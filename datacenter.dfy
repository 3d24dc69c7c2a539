/** The state effects of the operator endpoints of the command-centre web
    server: approve, deny, spawn a threat, set the patrol area, read the log
    and read the status. Request bodies are given with each field present or
    missing; the HTTP layer itself is not modelled. */
module Datacenter {
  import opened Common
  import Swarm

  const LogsShown: int := 200
  const SpawnDefaultX: real := 10.0
  const SpawnDefaultY: real := 10.0
  const SpawnDefaultClass := "person"
  const SpawnConfidence: real := 1.0
  const PatrolDefaultRadius: real := 30.0

  /** The body of `POST /spawn_threat`. */
  datatype SpawnRequest = SpawnRequest(x: Option<real>, y: Option<real>, kind: Option<string>)

  /** The body of `POST /set_patrol`. */
  datatype PatrolRequest = PatrolRequest(x: Option<real>, y: Option<real>, radius: Option<real>)

  /** The answer of `GET /status`. */
  datatype StatusReport = StatusReport(
    threatLevel: Swarm.ThreatLevel,
    pending: bool,
    activeThreat: Option<Threat>,
    warriorStatus: Option<Swarm.Report>,
    kamikazeDeployed: bool,
    queenScans: int,
    patrol: Swarm.Patrol,
    lastPatrolUpdate: real,
    lastWarriorUpdate: real)

  /** `approve`: not gated on a pending request. */
  function Approve(v: Swarm.SwarmView): Swarm.SwarmView
  {
    Swarm.OperatorPosted(v, true)
  }

  /** `deny`: not gated on a pending request. */
  function Deny(v: Swarm.SwarmView): Swarm.SwarmView
  {
    Swarm.OperatorPosted(v, false)
  }

  /** Approve and deny fill the answer slot and clear the pending flag
      whether or not a request is waiting, and log one USER entry; nothing
      else changes. */
  lemma AnswersAreUngated(v: Swarm.SwarmView)
    requires Swarm.WellFormed(v)
    ensures var a := Approve(v);
      && a.response == Some(true) && !a.pending
      && a.logs[|a.logs| - 1] == Swarm.LogEntry("USER", Swarm.Authorized, Swarm.Critical)
      && a.(logs := v.logs, response := v.response, pending := v.pending) == v
    ensures var d := Deny(v);
      && d.response == Some(false) && !d.pending
      && d.logs[|d.logs| - 1] == Swarm.LogEntry("USER", Swarm.Denied, Swarm.Warning)
      && d.(logs := v.logs, response := v.response, pending := v.pending) == v
  {
    Swarm.LogAppendsNewest(v.(response := Some(true), pending := false),
                           Swarm.LogEntry("USER", Swarm.Authorized, Swarm.Critical));
    Swarm.LogAppendsNewest(v.(response := Some(false), pending := false),
                           Swarm.LogEntry("USER", Swarm.Denied, Swarm.Warning));
  }

  /** The handshake: an answer posted while a supervised request polls, before
      its deadline, is the request's result. */
  lemma AnswerDuringRequestDecides(v: Swarm.SwarmView, polls: seq<Swarm.Poll>, start: real, k: nat)
    requires v.mode == Swarm.Normal && v.response.None?
    requires k < |polls| && polls[k].posted.Some?
    requires forall j :: 0 <= j < k ==> polls[j].posted.None?
    requires forall j :: 0 <= j <= k ==> polls[j].clock - start < Swarm.PermissionTimeout
    ensures Swarm.Permission(v, polls, start).granted == polls[k].posted.value
    ensures Swarm.Permission(v, polls, start).resolution == Swarm.Answered
  {
    Swarm.FirstAnswerDecides(Swarm.Requested(v), polls, start, k);
  }

  /** Because neither side checks the pending flag, an answer given while no
      request is waiting decides the next request, which does not wait for
      the operator at all. */
  lemma EarlyAnswerDecidesNextRequest(v: Swarm.SwarmView, polls: seq<Swarm.Poll>, start: real, approved: bool)
    requires v.mode == Swarm.Normal && !v.pending
    requires |polls| > 0 && polls[0].posted.None? && polls[0].clock - start < Swarm.PermissionTimeout
    ensures var w := Swarm.Permission(Swarm.OperatorPosted(v, approved), polls, start);
      w.granted == approved && w.resolution == Swarm.Answered
  {
  }

  /** The threat built by `spawn_threat` at clock `now`: defaults (10, 10),
      "person", confidence 1.0 and no bounding box. */
  function SpawnedThreat(req: SpawnRequest, now: real): (t: Threat)
    ensures t.worldPos == Pos(req.x.GetOr(SpawnDefaultX), req.y.GetOr(SpawnDefaultY))
    ensures t.cls == req.kind.GetOr(SpawnDefaultClass)
    ensures t.confidence == Some(SpawnConfidence) && t.bboxArea.None? && t.timestamp == now
  {
    Threat(req.kind.GetOr(SpawnDefaultClass), Some(SpawnConfidence),
           Pos(req.x.GetOr(SpawnDefaultX), req.y.GetOr(SpawnDefaultY)), None, now)
  }

  function Spawn(v: Swarm.SwarmView, req: SpawnRequest, now: real): Swarm.SwarmView
  {
    Swarm.ThreatAdded(v, SpawnedThreat(req, now))
  }

  /** An empty spawn request makes a person at (10, 10) the active threat and
      raises the level to RED, whatever threat was active before. */
  lemma EmptySpawnIsPersonAtTenTen(v: Swarm.SwarmView, now: real)
    ensures var r := Spawn(v, SpawnRequest(None, None, None), now);
      && r.activeThreat == Some(Threat("person", Some(1.0), Pos(10.0, 10.0), None, now))
      && r.threatLevel == Swarm.Red
      && r.threats == v.threats + [r.activeThreat.value]
  {
  }

  /** The triple `set_patrol` passes on: defaults (0, 0) and 30 m. */
  function PatrolOf(req: PatrolRequest): Swarm.Patrol
  {
    Swarm.Patrol(req.x.GetOr(0.0), req.y.GetOr(0.0), req.radius.GetOr(PatrolDefaultRadius))
  }

  /** An empty request patrols 30 m around the origin; a full one is taken as
      given, and each missing key falls back on its own default. */
  lemma PatrolDefaults(x: real, y: real, radius: real)
    ensures PatrolOf(PatrolRequest(None, None, None)) == Swarm.Patrol(0.0, 0.0, 30.0)
    ensures PatrolOf(PatrolRequest(Some(x), Some(y), Some(radius))) == Swarm.Patrol(x, y, radius)
    ensures PatrolOf(PatrolRequest(Some(x), None, None)) == Swarm.Patrol(x, 0.0, 30.0)
    ensures PatrolOf(PatrolRequest(None, None, Some(radius))) == Swarm.Patrol(0.0, 0.0, radius)
  {
  }

  /** `set_patrol` leaves `relative` at its default, so the patrol is always
      absolute. */
  function SetPatrol(v: Swarm.SwarmView, req: PatrolRequest, now: real): Swarm.SwarmView
  {
    var p := PatrolOf(req);
    Swarm.PatrolSet(v, p.cx, p.cy, p.radius, false, now)
  }

  /** After `set_patrol` the warriors' effective patrol is the requested
      triple, wherever the Queen is. */
  lemma SetPatrolIsAbsolute(v: Swarm.SwarmView, req: PatrolRequest, now: real, queen: Option<Swarm.QueenPose>)
    ensures !SetPatrol(v, req, now).relative
    ensures Swarm.EffectivePatrol(SetPatrol(v, req, now), queen) == PatrolOf(req)
  {
  }

  /** `logs`: `get_logs(200)`. */
  function Logs(v: Swarm.SwarmView): (r: seq<Swarm.LogEntry>)
    ensures |r| <= 200 && |r| == (if |v.logs| <= 200 then |v.logs| else 200)
    ensures forall k :: 0 <= k < |r| ==> r[k] == v.logs[|v.logs| - |r| + k]
  {
    Swarm.LogsAreNewestEntries(v, LogsShown);
    Swarm.PyTail(v.logs, LogsShown)
  }

  /** `status`. */
  function Status(v: Swarm.SwarmView): (s: StatusReport)
    ensures s.threatLevel == v.threatLevel && s.pending == v.pending && s.activeThreat == v.activeThreat
    ensures s.patrol == v.patrol && s.kamikazeDeployed == v.kamikazeDeployed
    ensures s.warriorStatus == Swarm.WarriorStatus(v)
  {
    StatusReport(v.threatLevel, v.pending, v.activeThreat, Swarm.WarriorStatus(v), v.kamikazeDeployed,
                 v.queenScans, v.patrol, v.lastPatrolUpdate, v.lastWarriorUpdate)
  }

  /** The status after a spawn shows the spawned threat as active at RED. */
  lemma StatusShowsSpawnedThreat(v: Swarm.SwarmView, req: SpawnRequest, now: real)
    ensures Status(Spawn(v, req, now)).activeThreat == Some(SpawnedThreat(req, now))
    ensures Status(Spawn(v, req, now)).threatLevel == Swarm.Red
  {
  }

  // ---------------------------------------------------------------------
  // The endpoints on the shared object

  method ApproveEndpoint(swarm: Swarm.SwarmState)
    modifies swarm
    ensures swarm.View() == Approve(old(swarm.View()))
  {
    swarm.Respond(true);
  }

  method DenyEndpoint(swarm: Swarm.SwarmState)
    modifies swarm
    ensures swarm.View() == Deny(old(swarm.View()))
  {
    swarm.Respond(false);
  }

  method SpawnThreatEndpoint(swarm: Swarm.SwarmState, req: SpawnRequest, now: real) returns (t: Threat)
    modifies swarm
    ensures t == SpawnedThreat(req, now)
    ensures swarm.View() == Spawn(old(swarm.View()), req, now)
  {
    var x := req.x.GetOr(SpawnDefaultX);
    var y := req.y.GetOr(SpawnDefaultY);
    var kind := req.kind.GetOr(SpawnDefaultClass);
    t := Threat(kind, Some(SpawnConfidence), Pos(x, y), None, now);
    swarm.AddThreat(t);
  }

  method SetPatrolEndpoint(swarm: Swarm.SwarmState, req: PatrolRequest, now: real) returns (p: Swarm.Patrol)
    modifies swarm
    ensures p == PatrolOf(req)
    ensures swarm.View() == SetPatrol(old(swarm.View()), req, now)
  {
    p := Swarm.Patrol(req.x.GetOr(0.0), req.y.GetOr(0.0), req.radius.GetOr(PatrolDefaultRadius));
    var _ := swarm.SetPatrolArea(p.cx, p.cy, p.radius, false, now);
  }

  method LogsEndpoint(swarm: Swarm.SwarmState) returns (r: seq<Swarm.LogEntry>)
    ensures r == Logs(swarm.View())
  {
    r := swarm.GetLogs(LogsShown);
  }

  method StatusEndpoint(swarm: Swarm.SwarmState) returns (s: StatusReport)
    ensures s == Status(swarm.View())
  {
    var p := swarm.GetPatrolArea();
    var w := swarm.GetWarriorStatus();
    s := StatusReport(swarm.threatLevel, swarm.pendingPermission, swarm.activeThreat, w,
                      swarm.kamikazeDeployed, swarm.queenScans, p, swarm.lastPatrolUpdate, swarm.lastWarriorUpdate);
  }
}
