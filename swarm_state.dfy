/** The state shared by the Queen, the warriors and the operator endpoints: a
    bounded mission log, a bounded list of warrior reports, the active-threat
    slot, the permission handshake with the operator, the patrol area and the
    record persisted to disk.

    Each locked block of the original is read as one atomic step. Wall-clock
    readings are parameters; the polling loop of the permission request runs
    over a sequence of polls, each carrying the clock reading taken at the
    loop test and the operator answer (if any) posted just before it. */
module Swarm {
  import opened Common
  import Bounded

  const MaxLogs: nat := 2000
  const MaxReports: nat := 200
  const PersistedLogs: nat := 500
  const PersistEvery: nat := 20
  const ReportLogEvery: nat := 5
  const PermissionTimeout: real := 15.0
  const DefaultLogLimit: int := 50

  datatype Level = Info | Warning | Critical
  datatype ThreatLevel = Green | Yellow | Red

  /** `queen_mode`: anything other than "jammer" is supervised. */
  datatype QueenMode = Normal | Jammer

  /** The mission-log messages, without their formatting. */
  datatype Message =
    | ThreatAt(cls: string, at: Pos)
    | WarriorAt(pos: Pos3)
    | JammerAutoAuth
    | RequestingAuthorization
    | TargetAt(cls: string, at: Pos)
    | Authorized
    | Denied
    | TimeoutAutoAuth
    | PatrolUpdated(cx: real, cy: real, radius: real, relative: bool)
    | AutoAuthorizedByLearner
    | AutoAuthorizedWithoutLearner
    | LearnerConfirmedThreat(cls: string, yolo: real, ai: real, at: Pos)
    | ThreatDetected(cls: string, yolo: real, at: Pos)
    | ManualThreat(cls: string)
    | DetectionError

  /** A mission-log entry; the `HH:MM:SS` time stamp is not modelled. */
  datatype LogEntry = LogEntry(source: string, message: Message, level: Level)

  /** A warrior report; its status is always "PATROLLING". */
  datatype Report = Report(position: Pos3)

  /** The patrol triple `(center_x, center_y, radius)`. */
  datatype Patrol = Patrol(cx: real, cy: real, radius: real)

  /** The pose passed to `get_effective_patrol`, whose x may be None. Its y
      is always a number: every caller passes a pose read from the
      simulator, so the model does not express a pose with x present and y
      None, on which `queen_pose[1] + cy` would raise. */
  datatype QueenPose = QueenPose(x: Option<real>, y: real)

  datatype SwarmView = SwarmView(
    threats: seq<Threat>,
    activeThreat: Option<Threat>,
    mode: QueenMode,
    kamikazeDeployed: bool,
    kamikazeTarget: Option<Pos>,
    logs: seq<LogEntry>,
    reports: seq<Report>,
    queenScans: int,
    threatLevel: ThreatLevel,
    pending: bool,
    response: Option<bool>,
    patrol: Patrol,
    relative: bool,
    lastWarriorPos: Option<Pos3>,
    lastWarriorUpdate: real,
    lastPatrolUpdate: real)

  /** The bounds every operation keeps. */
  predicate WellFormed(v: SwarmView)
  {
    |v.logs| <= MaxLogs && |v.reports| <= MaxReports
  }

  // ---------------------------------------------------------------------
  // Mission log

  /** `log`: append, then drop the oldest entry when there are more than 2000. */
  function Logged(v: SwarmView, e: LogEntry): (r: SwarmView)
  {
    v.(logs := Bounded.Append(v.logs, e, MaxLogs))
  }

  /** Whether `log` writes the persisted record after this entry. */
  predicate PersistDue(v: SwarmView)
  {
    |v.logs| % PersistEvery == 0
  }

  function LoggedAll(v: SwarmView, es: seq<LogEntry>): SwarmView
  {
    v.(logs := Bounded.AppendAll(v.logs, es, MaxLogs))
  }

  /** The new entry is the newest; below the cap nothing is dropped, at the
      cap exactly the oldest entry is; no other field changes. */
  lemma LogAppendsNewest(v: SwarmView, e: LogEntry)
    requires WellFormed(v)
    ensures var r := Logged(v, e);
      && WellFormed(r)
      && r.logs[|r.logs| - 1] == e
      && (|v.logs| < MaxLogs ==> r.logs == v.logs + [e])
      && (|v.logs| == MaxLogs ==> r.logs == v.logs[1..] + [e])
      && r.(logs := v.logs) == v
  {
    Bounded.AppendKeepsNewest(v.logs, e, MaxLogs);
  }

  /** Logging a run of entries one by one keeps the newest 2000 of all of
      them. */
  lemma LoggedAllKeepsNewest(v: SwarmView, es: seq<LogEntry>)
    requires |v.logs| <= MaxLogs
    ensures LoggedAll(v, es).logs == Bounded.TakeLast(v.logs + es, MaxLogs)
  {
    Bounded.AppendAllKeepsNewest(v.logs, es, MaxLogs);
  }

  /** Logging no entries changes nothing; logging one is `log`. */
  lemma LoggedAllShort(v: SwarmView, e: LogEntry)
    ensures LoggedAll(v, []) == v
    ensures LoggedAll(v, [e]) == Logged(v, e)
  {
    assert [e][1..] == [];
    assert Bounded.AppendAll(v.logs, [e], MaxLogs)
        == Bounded.AppendAll(Bounded.Append(v.logs, e, MaxLogs), [], MaxLogs);
  }

  /** Once the log is full every new entry triggers a write of the persisted
      record. */
  lemma FullLogPersistsEveryEntry(v: SwarmView, e: LogEntry)
    requires |v.logs| == MaxLogs
    ensures PersistDue(Logged(v, e))
  {
    Bounded.AppendKeepsNewest(v.logs, e, MaxLogs);
  }

  /** Python's `s[-limit:]`: the last `limit` entries for a positive limit,
      everything for 0, and everything but the first `-limit` for a negative
      one. */
  function PyTail<T>(s: seq<T>, limit: int): (r: seq<T>)
    ensures limit >= 1 ==> r == Bounded.TakeLast(s, limit)
    ensures limit == 0 ==> r == s
    ensures limit < 0 ==> r == (if -limit <= |s| then s[-limit..] else [])
  {
    if limit > 0 then (if limit >= |s| then s else s[|s| - limit..])
    else if limit == 0 then s
    else if -limit <= |s| then s[-limit..]
    else []
  }

  /** `get_logs(limit)` for a positive limit: the newest `min(limit, n)`
      entries, oldest first. */
  lemma LogsAreNewestEntries(v: SwarmView, limit: int)
    requires limit >= 1
    ensures var r := PyTail(v.logs, limit);
      && |r| == (if |v.logs| <= limit then |v.logs| else limit)
      && (forall k :: 0 <= k < |r| ==> r[k] == v.logs[|v.logs| - |r| + k])
  {
  }

  // ---------------------------------------------------------------------
  // Threats and reports

  /** `add_threat`: unconditional; the new threat replaces the active one
      whatever the confidence of either. */
  function ThreatAdded(v: SwarmView, t: Threat): (r: SwarmView)
    ensures r.activeThreat == Some(t) && r.threatLevel == Red
    ensures r.threats == v.threats + [t]
    ensures r.logs == Bounded.Append(v.logs, LogEntry("QUEEN", ThreatAt(t.cls, t.worldPos), Critical), MaxLogs)
  {
    Logged(v.(threats := v.threats + [t], activeThreat := Some(t), threatLevel := Red),
           LogEntry("QUEEN", ThreatAt(t.cls, t.worldPos), Critical))
  }

  /** `warrior_report` at clock `now`. */
  function Reported(v: SwarmView, pos: Pos3, now: real): (r: SwarmView)
  {
    var reports := Bounded.Append(v.reports, Report(pos), MaxReports);
    var v1 := v.(reports := reports, lastWarriorPos := Some(pos), lastWarriorUpdate := now);
    if |reports| % ReportLogEvery == 0 then Logged(v1, LogEntry("WARRIOR", WarriorAt(pos), Info)) else v1
  }

  /** `get_warrior_status`. */
  function WarriorStatus(v: SwarmView): (r: Option<Report>)
    ensures r.None? <==> v.reports == []
    ensures r.Some? ==> r.value == v.reports[|v.reports| - 1]
  {
    if v.reports == [] then None else Some(v.reports[|v.reports| - 1])
  }

  /** A report is kept as the newest of at most 200, becomes the warrior's
      status and its telemetry, and is logged exactly when the number of kept
      reports is a multiple of five. */
  lemma ReportBecomesStatus(v: SwarmView, pos: Pos3, now: real)
    requires WellFormed(v)
    ensures var r := Reported(v, pos, now);
      && WellFormed(r)
      && WarriorStatus(r) == Some(Report(pos))
      && r.lastWarriorPos == Some(pos) && r.lastWarriorUpdate == now
      && (|v.reports| < MaxReports ==> r.reports == v.reports + [Report(pos)])
      && (|v.reports| == MaxReports ==> r.reports == v.reports[1..] + [Report(pos)])
      && (|r.reports| % ReportLogEvery == 0 ==>
            r.logs == Bounded.Append(v.logs, LogEntry("WARRIOR", WarriorAt(pos), Info), MaxLogs))
      && (|r.reports| % ReportLogEvery != 0 ==> r.logs == v.logs)
  {
    Bounded.AppendKeepsNewest(v.reports, Report(pos), MaxReports);
    var reports := Bounded.Append(v.reports, Report(pos), MaxReports);
    if |reports| % ReportLogEvery == 0 {
      Bounded.AppendKeepsNewest(v.logs, LogEntry("WARRIOR", WarriorAt(pos), Info), MaxLogs);
    }
  }

  /** With 200 reports kept, every further report is logged. */
  lemma FullReportsLogEveryReport(v: SwarmView, pos: Pos3, now: real)
    requires WellFormed(v) && |v.reports| == MaxReports
    ensures Reported(v, pos, now).logs
         == Bounded.Append(v.logs, LogEntry("WARRIOR", WarriorAt(pos), Info), MaxLogs)
  {
    Bounded.AppendKeepsNewest(v.reports, Report(pos), MaxReports);
  }

  // ---------------------------------------------------------------------
  // Permission handshake

  /** One pass of the polling loop: an answer the operator posted since the
      previous pass (if any), then the clock reading of the loop test. */
  datatype Poll = Poll(posted: Option<bool>, clock: real)

  datatype Resolution = JammerBypass | Answered | TimedOut

  datatype Waited = Waited(view: SwarmView, granted: bool, resolution: Resolution)

  /** What `approve` (true) and `deny` (false) do to the shared state. */
  function OperatorPosted(v: SwarmView, approved: bool): (r: SwarmView)
    ensures r.response == Some(approved) && !r.pending
  {
    Logged(v.(response := Some(approved), pending := false),
           if approved then LogEntry("USER", Authorized, Critical) else LogEntry("USER", Denied, Warning))
  }

  /** The exit on timeout: approve by default. */
  function TimedOutView(v: SwarmView): SwarmView
  {
    Logged(v, LogEntry("SYSTEM", TimeoutAutoAuth, Warning)).(pending := false)
  }

  /** The end of the polling loop, from the polls still to come. */
  function Await(v: SwarmView, polls: seq<Poll>, start: real): Waited
    decreases |polls|
  {
    if polls == [] then Waited(TimedOutView(v), true, TimedOut)
    else
      var p := polls[0];
      var v1 := if p.posted.Some? then OperatorPosted(v, p.posted.value) else v;
      if p.clock - start >= PermissionTimeout then Waited(TimedOutView(v1), true, TimedOut)
      else if v1.response.Some? then
        var approved := v1.response.value;
        var v2 := v1.(response := None, pending := false);
        Waited(Logged(v2, if approved then LogEntry("USER", Authorized, Critical)
                          else LogEntry("USER", Denied, Warning)),
               approved, Answered)
      else Await(v1, polls[1..], start)
  }

  /** The state just before polling starts. */
  function Requested(v: SwarmView): SwarmView
  {
    var v1 := Logged(v, LogEntry("QUEEN", RequestingAuthorization, Warning));
    var v2 := if v1.activeThreat.Some?
              then Logged(v1, LogEntry("QUEEN", TargetAt(v1.activeThreat.value.cls, v1.activeThreat.value.worldPos), Warning))
              else v1;
    v2.(pending := true)
  }

  /** `request_permission`. */
  function Permission(v: SwarmView, polls: seq<Poll>, start: real): Waited
  {
    if v.mode == Jammer then Waited(Logged(v, LogEntry("SYSTEM", JammerAutoAuth, Warning)), true, JammerBypass)
    else Await(Requested(v), polls, start)
  }

  /** The loop test eventually sees 15 seconds elapsed. */
  predicate Deadline(polls: seq<Poll>, start: real)
  {
    |polls| > 0 && polls[|polls| - 1].clock - start >= PermissionTimeout
  }

  /** No answer posted during the polls. */
  predicate Silent(polls: seq<Poll>)
  {
    forall i :: 0 <= i < |polls| ==> polls[i].posted.None?
  }

  /** In jammer mode the request is granted at once; the pending flag and the
      answer slot are left as they were. */
  lemma JammerGrantsWithoutTouchingSlot(v: SwarmView, polls: seq<Poll>, start: real)
    requires v.mode == Jammer
    ensures var w := Permission(v, polls, start);
      w.granted && w.resolution == JammerBypass && w.view.pending == v.pending && w.view.response == v.response
  {
  }

  /** However the request ends in supervised mode, nothing is pending
      afterwards. */
  lemma {:induction false} AwaitClearsPending(v: SwarmView, polls: seq<Poll>, start: real)
    ensures !Await(v, polls, start).view.pending
    ensures Await(v, polls, start).resolution != JammerBypass
    decreases |polls|
  {
    if polls != [] {
      var p := polls[0];
      var v1 := if p.posted.Some? then OperatorPosted(v, p.posted.value) else v;
      if !(p.clock - start >= PermissionTimeout) && v1.response.None? {
        AwaitClearsPending(v1, polls[1..], start);
      }
    }
  }

  /** An answer consumed by the loop is the answer it returns, and the slot
      is empty afterwards: each answer is consumed at most once. */
  lemma {:induction false} AnsweredEmptiesSlot(v: SwarmView, polls: seq<Poll>, start: real)
    ensures var w := Await(v, polls, start);
      w.resolution == Answered ==> w.view.response.None?
    decreases |polls|
  {
    if polls != [] {
      var p := polls[0];
      var v1 := if p.posted.Some? then OperatorPosted(v, p.posted.value) else v;
      if !(p.clock - start >= PermissionTimeout) && v1.response.None? {
        AnsweredEmptiesSlot(v1, polls[1..], start);
      }
    }
  }

  /** An answer left in the slot by an earlier request is not cleared: the
      first pass of the next request consumes it and returns it. */
  lemma StaleAnswerDecidesNextRequest(v: SwarmView, polls: seq<Poll>, start: real, stale: bool)
    requires v.mode == Normal && v.response == Some(stale)
    requires |polls| > 0 && polls[0].posted.None? && polls[0].clock - start < PermissionTimeout
    ensures var w := Permission(v, polls, start);
      w.granted == stale && w.resolution == Answered && w.view.response.None?
  {
  }

  /** With no answer in the slot and none posted, the request times out and
      is granted. */
  lemma {:induction false} SilenceGrants(v: SwarmView, polls: seq<Poll>, start: real)
    requires v.response.None? && Silent(polls)
    ensures var w := Await(v, polls, start);
      w.granted && w.resolution == TimedOut && !w.view.pending && w.view.response.None?
    decreases |polls|
  {
    if polls != [] {
      assert polls[0].posted.None?;
      if polls[0].clock - start < PermissionTimeout {
        assert Silent(polls[1..]) by {
          forall i | 0 <= i < |polls[1..]| ensures polls[1..][i].posted.None? {
            assert polls[1..][i] == polls[i + 1];
          }
        }
        SilenceGrants(v, polls[1..], start);
      }
    }
  }

  /** A supervised request is refused only by an answer "deny": one that was in
      the slot already or one posted while polling. */
  lemma {:induction false} OnlyTheOperatorDenies(v: SwarmView, polls: seq<Poll>, start: real)
    requires !Await(v, polls, start).granted
    ensures Await(v, polls, start).resolution == Answered
    ensures v.response == Some(false) || exists i :: 0 <= i < |polls| && polls[i].posted == Some(false)
    decreases |polls|
  {
    var p := polls[0];
    var v1 := if p.posted.Some? then OperatorPosted(v, p.posted.value) else v;
    if p.posted == Some(false) {
      assert polls[0].posted == Some(false);
    } else if v1.response.None? {
      OnlyTheOperatorDenies(v1, polls[1..], start);
      if v1.response != Some(false) {
        var i :| 0 <= i < |polls[1..]| && polls[1..][i].posted == Some(false);
        assert polls[i + 1].posted == Some(false);
      }
    }
  }

  /** The first answer posted before the deadline decides the request. */
  lemma {:induction false} FirstAnswerDecides(v: SwarmView, polls: seq<Poll>, start: real, k: nat)
    requires v.response.None?
    requires k < |polls| && polls[k].posted.Some?
    requires forall j :: 0 <= j < k ==> polls[j].posted.None?
    requires forall j :: 0 <= j <= k ==> polls[j].clock - start < PermissionTimeout
    ensures var w := Await(v, polls, start);
      w.granted == polls[k].posted.value && w.resolution == Answered && w.view.response.None?
    decreases k
  {
    if k > 0 {
      assert polls[0].posted.None? && polls[0].clock - start < PermissionTimeout;
      assert forall j :: 0 <= j < k - 1 ==> polls[1..][j] == polls[j + 1];
      FirstAnswerDecides(v, polls[1..], start, k - 1);
    }
  }

  /** An answer posted just as the deadline is reached is not consumed: the
      request times out and is granted, and the answer stays in the slot for
      the next request. */
  lemma {:induction false} LateAnswerSurvives(v: SwarmView, polls: seq<Poll>, start: real, k: nat, late: bool)
    requires v.response.None?
    requires k < |polls| && polls[k].posted == Some(late)
    requires forall j :: 0 <= j < k ==> polls[j].posted.None? && polls[j].clock - start < PermissionTimeout
    requires polls[k].clock - start >= PermissionTimeout
    ensures var w := Await(v, polls, start);
      w.granted && w.resolution == TimedOut && w.view.response == Some(late) && !w.view.pending
    decreases k
  {
    if k > 0 {
      assert polls[0].posted.None? && polls[0].clock - start < PermissionTimeout;
      assert forall j :: 0 <= j < k - 1 ==> polls[1..][j] == polls[j + 1];
      LateAnswerSurvives(v, polls[1..], start, k - 1, late);
    }
  }

  /** A request changes nothing but the mission log, the pending flag and the
      answer slot: the threats, the active threat, the level and the strike
      fields are untouched. */
  lemma {:induction false} AwaitTouchesOnlyHandshake(v: SwarmView, polls: seq<Poll>, start: real)
    ensures var w := Await(v, polls, start).view;
      w.(logs := v.logs, pending := v.pending, response := v.response) == v
    decreases |polls|
  {
    if polls != [] {
      var p := polls[0];
      var v1 := if p.posted.Some? then OperatorPosted(v, p.posted.value) else v;
      if !(p.clock - start >= PermissionTimeout) && v1.response.None? {
        AwaitTouchesOnlyHandshake(v1, polls[1..], start);
      }
    }
  }

  lemma PermissionTouchesOnlyHandshake(v: SwarmView, polls: seq<Poll>, start: real)
    ensures var w := Permission(v, polls, start).view;
      w.(logs := v.logs, pending := v.pending, response := v.response) == v
  {
    if v.mode == Normal {
      AwaitTouchesOnlyHandshake(Requested(v), polls, start);
    }
  }

  /** The mission-log bound is kept by the whole request. */
  /** A whole permission request, in either mode, keeps the log and report
      bounds. */
  lemma PermissionKeepsBounds(v: SwarmView, polls: seq<Poll>, start: real)
    requires WellFormed(v)
    ensures WellFormed(Permission(v, polls, start).view)
  {
    if v.mode != Jammer {
      AwaitKeepsBounds(Requested(v), polls, start);
    }
  }

  lemma {:induction false} AwaitKeepsBounds(v: SwarmView, polls: seq<Poll>, start: real)
    requires WellFormed(v)
    ensures WellFormed(Await(v, polls, start).view)
    decreases |polls|
  {
    if polls != [] {
      var p := polls[0];
      var v1 := if p.posted.Some? then OperatorPosted(v, p.posted.value) else v;
      AwaitKeepsBounds(v1, polls[1..], start);
    }
  }

  // ---------------------------------------------------------------------
  // Patrol area

  /** `set_patrol_area` at clock `now`. */
  function PatrolSet(v: SwarmView, cx: real, cy: real, radius: real, relative: bool, now: real): (r: SwarmView)
    ensures r.patrol == Patrol(cx, cy, radius) && r.relative == relative && r.lastPatrolUpdate == now
  {
    Logged(v.(patrol := Patrol(cx, cy, radius), relative := relative, lastPatrolUpdate := now),
           LogEntry("SYSTEM", PatrolUpdated(cx, cy, radius, relative), Warning))
  }

  /** `get_effective_patrol`. */
  function EffectivePatrol(v: SwarmView, queen: Option<QueenPose>): (p: Patrol)
    ensures p.radius == v.patrol.radius
    ensures v.relative && queen.Some? && queen.value.x.Some? ==>
      p.cx == queen.value.x.value + v.patrol.cx && p.cy == queen.value.y + v.patrol.cy
    ensures !(v.relative && queen.Some? && queen.value.x.Some?) ==> p == v.patrol
  {
    if v.relative && queen.Some? && queen.value.x.Some? then
      Patrol(queen.value.x.value + v.patrol.cx, queen.value.y + v.patrol.cy, v.patrol.radius)
    else v.patrol
  }

  // ---------------------------------------------------------------------
  // Persisted record

  datatype PersistRecord = PersistRecord(logs: seq<LogEntry>, patrol: Patrol, relative: bool)

  /** A JSON file as read back: each key may be missing. */
  datatype StoredData = StoredData(
    logs: Option<seq<LogEntry>>, cx: Option<real>, cy: Option<real>,
    radius: Option<real>, relative: Option<bool>)

  datatype PersistSource = Absent | Unreadable | Stored(data: StoredData)

  /** `_persist`: only the newest 500 entries are written. */
  function Persisted(v: SwarmView): (r: PersistRecord)
    ensures |r.logs| <= PersistedLogs
    ensures r.logs == Bounded.TakeLast(v.logs, PersistedLogs)
    ensures r.patrol == v.patrol && r.relative == v.relative
  {
    PersistRecord(Bounded.TakeLast(v.logs, PersistedLogs), v.patrol, v.relative)
  }

  /** The record as the JSON file holds it. */
  function AsJson(r: PersistRecord): StoredData
  {
    StoredData(Some(r.logs), Some(r.patrol.cx), Some(r.patrol.cy), Some(r.patrol.radius), Some(r.relative))
  }

  /** `_load_persisted`: a missing key keeps the current value, except for the
      log, which becomes empty; at most the newest 500 entries are kept. */
  function Loaded(v: SwarmView, src: PersistSource): (r: SwarmView)
    ensures !src.Stored? ==> r == v
    ensures src.Stored? ==> |r.logs| <= PersistedLogs
    ensures src.Stored? ==> r.logs == Bounded.TakeLast(src.data.logs.GetOr([]), PersistedLogs)
    ensures src.Stored? ==> r.(logs := v.logs, patrol := v.patrol, relative := v.relative) == v
  {
    match src
    case Stored(d) =>
      v.(logs := Bounded.TakeLast(d.logs.GetOr([]), PersistedLogs),
         patrol := Patrol(d.cx.GetOr(v.patrol.cx), d.cy.GetOr(v.patrol.cy), d.radius.GetOr(v.patrol.radius)),
         relative := d.relative.GetOr(v.relative))
    case _ => v
  }

  /** The state before anything is loaded. */
  function Fresh(): SwarmView
  {
    SwarmView([], None, Normal, false, None, [], [], 0, Green, false, None,
              Patrol(0.0, 0.0, 30.0), false, None, 0.0, 0.0)
  }

  function Initial(src: PersistSource): SwarmView
  {
    Loaded(Fresh(), src)
  }

  /** A restart from the written record restores the patrol area, its mode
      and the newest 500 log entries; everything else starts afresh. */
  lemma RestartRestoresPersisted(v: SwarmView)
    ensures var r := Initial(Stored(AsJson(Persisted(v))));
      && r.logs == Bounded.TakeLast(v.logs, PersistedLogs)
      && r.patrol == v.patrol && r.relative == v.relative
      && r.(logs := [], patrol := Fresh().patrol, relative := false) == Fresh()
  {
    assert |Bounded.TakeLast(v.logs, PersistedLogs)| <= PersistedLogs;
  }

  /** A file without any key leaves the defaults: an empty log and a 30 m
      patrol around the origin in absolute mode. */
  /** Each key is read on its own: a missing patrol key keeps the value the
      state already had, a missing log loads as empty, and a stored log longer
      than 500 entries loads as exactly its newest 500. */
  lemma LoadedKeyByKey(v: SwarmView, l: seq<LogEntry>, cx: real, relative: bool)
    ensures Loaded(v, Stored(StoredData(None, Some(cx), None, None, None))).patrol
         == Patrol(cx, v.patrol.cy, v.patrol.radius)
    ensures Loaded(v, Stored(StoredData(None, None, None, None, Some(relative)))).patrol == v.patrol
    ensures Loaded(v, Stored(StoredData(None, None, None, None, Some(relative)))).relative == relative
    ensures Loaded(v, Stored(StoredData(None, None, None, None, None))).logs == []
    ensures Loaded(v, Stored(StoredData(Some(l), None, None, None, None))).relative == v.relative
    ensures |l| > PersistedLogs ==>
      Loaded(v, Stored(StoredData(Some(l), None, None, None, None))).logs == l[|l| - 500..]
    ensures |l| <= PersistedLogs ==>
      Loaded(v, Stored(StoredData(Some(l), None, None, None, None))).logs == l
  {
  }

  lemma EmptyFileKeepsDefaults()
    ensures Initial(Stored(StoredData(None, None, None, None, None))) == Fresh()
    ensures Fresh().patrol == Patrol(0.0, 0.0, 30.0) && !Fresh().relative
  {
  }

  // ---------------------------------------------------------------------
  // The shared object

  class SwarmState {
    var threats: seq<Threat>
    var activeThreat: Option<Threat>
    var queenMode: QueenMode
    var kamikazeDeployed: bool
    var kamikazeTarget: Option<Pos>
    var missionLogs: seq<LogEntry>
    var warriorReports: seq<Report>
    var queenScans: int
    var threatLevel: ThreatLevel
    var pendingPermission: bool
    var userResponse: Option<bool>
    var patrol: Patrol
    var patrolRelativeToQueen: bool
    var lastWarriorPos: Option<Pos3>
    var lastWarriorUpdate: real
    var lastPatrolUpdate: real

    function View(): SwarmView
      reads this
    {
      SwarmView(threats, activeThreat, queenMode, kamikazeDeployed, kamikazeTarget,
                missionLogs, warriorReports, queenScans, threatLevel, pendingPermission, userResponse,
                patrol, patrolRelativeToQueen, lastWarriorPos, lastWarriorUpdate, lastPatrolUpdate)
    }

    constructor (src: PersistSource)
      ensures View() == Initial(src)
    {
      threats := [];
      activeThreat := None;
      queenMode := Normal;
      kamikazeDeployed := false;
      kamikazeTarget := None;
      missionLogs := [];
      warriorReports := [];
      queenScans := 0;
      threatLevel := Green;
      pendingPermission := false;
      userResponse := None;
      patrol := Patrol(0.0, 0.0, 30.0);
      patrolRelativeToQueen := false;
      lastWarriorPos := None;
      lastWarriorUpdate := 0.0;
      lastPatrolUpdate := 0.0;
      new;
      LoadPersisted(src);
    }

    /** `_load_persisted`. */
    method LoadPersisted(src: PersistSource)
      modifies this
      ensures View() == Loaded(old(View()), src)
    {
      if !src.Stored? {
        return;
      }
      var d := src.data;
      missionLogs := d.logs.GetOr([]);
      if |missionLogs| > PersistedLogs {
        missionLogs := missionLogs[|missionLogs| - PersistedLogs..];
      }
      patrol := Patrol(d.cx.GetOr(patrol.cx), d.cy.GetOr(patrol.cy), d.radius.GetOr(patrol.radius));
      patrolRelativeToQueen := d.relative.GetOr(patrolRelativeToQueen);
    }

    /** `_persist`: the record written to the file. */
    method Persist() returns (r: PersistRecord)
      ensures r == Persisted(View())
    {
      r := PersistRecord(Bounded.TakeLast(missionLogs, PersistedLogs), patrol, patrolRelativeToQueen);
    }

    /** `log`; `saved` is the record written when a write is due. */
    method Log(source: string, message: Message, level: Level) returns (saved: Option<PersistRecord>)
      modifies this
      ensures View() == Logged(old(View()), LogEntry(source, message, level))
      ensures saved.Some? <==> PersistDue(View())
      ensures saved.Some? ==> saved.value == Persisted(View())
    {
      missionLogs := missionLogs + [LogEntry(source, message, level)];
      if |missionLogs| > MaxLogs {
        missionLogs := missionLogs[1..];
      }
      saved := None;
      if |missionLogs| % PersistEvery == 0 {
        var r := Persist();
        saved := Some(r);
      }
    }

    /** `add_threat`. */
    method AddThreat(t: Threat)
      modifies this
      ensures View() == ThreatAdded(old(View()), t)
    {
      threats := threats + [t];
      activeThreat := Some(t);
      threatLevel := Red;
      var _ := Log("QUEEN", ThreatAt(t.cls, t.worldPos), Critical);
    }

    /** `warrior_report` at clock `now`. */
    method WarriorReport(pos: Pos3, now: real)
      modifies this
      ensures View() == Reported(old(View()), pos, now)
    {
      warriorReports := warriorReports + [Report(pos)];
      if |warriorReports| > MaxReports {
        warriorReports := warriorReports[1..];
      }
      lastWarriorPos := Some(pos);
      lastWarriorUpdate := now;
      if |warriorReports| % ReportLogEvery == 0 {
        var _ := Log("WARRIOR", WarriorAt(pos), Info);
      }
    }

    /** The operator's `approve` / `deny`, landing while a request may be
        polling. */
    method Respond(approved: bool)
      modifies this
      ensures View() == OperatorPosted(old(View()), approved)
    {
      userResponse := Some(approved);
      pendingPermission := false;
      if approved {
        var _ := Log("USER", Authorized, Critical);
      } else {
        var _ := Log("USER", Denied, Warning);
      }
    }

    method FinishTimedOut()
      modifies this
      ensures View() == TimedOutView(old(View()))
    {
      var _ := Log("SYSTEM", TimeoutAutoAuth, Warning);
      pendingPermission := false;
    }

    /** `request_permission`, started at clock `start`. */
    method RequestPermission(polls: seq<Poll>, start: real) returns (granted: bool)
      requires queenMode == Jammer || Deadline(polls, start)
      modifies this
      ensures View() == Permission(old(View()), polls, start).view
      ensures granted == Permission(old(View()), polls, start).granted
    {
      if queenMode == Jammer {
        var _ := Log("SYSTEM", JammerAutoAuth, Warning);
        return true;
      }
      var _ := Log("QUEEN", RequestingAuthorization, Warning);
      if activeThreat.Some? {
        var _ := Log("QUEEN", TargetAt(activeThreat.value.cls, activeThreat.value.worldPos), Warning);
      }
      pendingPermission := true;
      ghost var goal := Permission(old(View()), polls, start);
      var i := 0;
      while i < |polls|
        invariant 0 <= i <= |polls|
        invariant Await(View(), polls[i..], start) == goal
      {
        var p := polls[i];
        if p.posted.Some? {
          Respond(p.posted.value);
        }
        if p.clock - start >= PermissionTimeout {
          FinishTimedOut();
          return true;
        }
        if userResponse.Some? {
          var approved := userResponse.value;
          userResponse := None;
          pendingPermission := false;
          if approved {
            var _ := Log("USER", Authorized, Critical);
          } else {
            var _ := Log("USER", Denied, Warning);
          }
          return approved;
        }
        i := i + 1;
      }
      FinishTimedOut();
      return true;
    }

    /** `get_logs(limit)`. */
    method GetLogs(limit: int) returns (r: seq<LogEntry>)
      ensures r == PyTail(View().logs, limit)
    {
      if limit > 0 {
        r := if limit >= |missionLogs| then missionLogs else missionLogs[|missionLogs| - limit..];
      } else if limit == 0 {
        r := missionLogs;
      } else {
        r := if -limit <= |missionLogs| then missionLogs[-limit..] else [];
      }
    }

    method GetWarriorStatus() returns (r: Option<Report>)
      ensures r == WarriorStatus(View())
    {
      r := if warriorReports == [] then None else Some(warriorReports[|warriorReports| - 1]);
    }

    /** `set_patrol_area` at clock `now`; `written` is the persisted record. */
    method SetPatrolArea(cx: real, cy: real, radius: real, relative: bool, now: real)
      returns (written: PersistRecord)
      modifies this
      ensures View() == PatrolSet(old(View()), cx, cy, radius, relative, now)
      ensures written == Persisted(View())
    {
      patrol := Patrol(cx, cy, radius);
      patrolRelativeToQueen := relative;
      lastPatrolUpdate := now;
      var _ := Log("SYSTEM", PatrolUpdated(cx, cy, radius, relative), Warning);
      written := Persist();
    }

    method GetPatrolArea() returns (p: Patrol)
      ensures p == View().patrol
    {
      p := patrol;
    }

    method GetEffectivePatrol(queen: Option<QueenPose>) returns (p: Patrol)
      ensures p == EffectivePatrol(View(), queen)
    {
      var cx, cy, r, rel := patrol.cx, patrol.cy, patrol.radius, patrolRelativeToQueen;
      if rel && queen.Some? && queen.value.x.Some? {
        return Patrol(queen.value.x.value + cx, queen.value.y + cy, r);
      }
      return Patrol(cx, cy, r);
    }
  }
}
