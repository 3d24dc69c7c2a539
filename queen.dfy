/** The Queen drone: it filters the detector's boxes on the warrior's camera
    frame into threats, converts pixel positions to world coordinates, decides
    on each threat by mode (the learner alone in jammer mode, the operator
    otherwise), learns from every decision, and hands an authorised threat's
    position to the kamikaze fields of the shared state.

    The camera, the detector and the simulator's poses are inputs of each
    scan; the learner's prediction oracle and feature environment are passed
    along. */
module QueenDrone {
  import opened Common
  import Swarm
  import AL = AdaptiveLearner

  /** The detector class ids the Queen treats as threats. */
  const ThreatClasses: map<int, string> :=
    map[0 := "person", 2 := "car", 5 := "bus", 7 := "truck", 3 := "motorcycle"]
  const MinBoxConfidence: real := 0.5
  const CooldownSeconds: real := 8.0
  const BasicConfidence: real := 0.7
  const DefaultBboxArea: real := 1000.0
  const ErrorLogEvery: int := 50

  /** The size of the camera frame. */
  datatype Frame = Frame(width: real, height: real)

  /** `box.xywh[0]`: centre and size in pixels. */
  datatype Geometry = Geometry(px: real, py: real, w: real, h: real)

  /** One detector box; the geometry and the warrior pose read for it may be
      unavailable. */
  datatype Box = Box(classId: int, conf: real, geometry: Option<Geometry>, warriorPose: Option<Pos>)

  /** What one scan sees: the camera frame (None when the camera fails),
      whether loading the detector succeeds if it is tried, the boxes (None
      when the detector raises) and the clock. */
  datatype ScanInput = ScanInput(frame: Option<Frame>, loadOk: bool, boxes: Option<seq<Box>>, clock: real)

  /** The learner's environment and classifier oracle. */
  datatype Oracle = Oracle(env: AL.Env, predictor: AL.Predictor)

  datatype QueenView = QueenView(aiScanCount: int, lastThreatTime: real, modelLoaded: bool)

  // ---------------------------------------------------------------------
  // Box filter and coordinates

  /** A box is considered when its class is a threat class, its confidence is
      above 0.5, and the cooldown since the last threat has passed. */
  predicate BoxPasses(b: Box, lastThreatTime: real, now: real)
  {
    b.classId in ThreatClasses && b.conf > MinBoxConfidence && !(now - lastThreatTime < CooldownSeconds)
  }

  /** The threshold and the cooldown are each exclusive on one side: a box at
      exactly 0.5 is dropped, one exactly 8 s after the last threat is not. */
  lemma FilterBoundaries(b: Box, last: real)
    requires b.classId in ThreatClasses
    ensures !BoxPasses(b.(conf := 0.5), last, last + 100.0)
    ensures b.conf > 0.5 ==> BoxPasses(b, last, last + 8.0)
    ensures !BoxPasses(b, last, last + 7.9)
    ensures !BoxPasses(b.(classId := 1), last, last + 100.0)
  {
  }

  function Scale(f: Frame): (s: real)
    ensures s >= 10.0 && s >= f.width / 50.0
  {
    if f.width / 50.0 > 10.0 then f.width / 50.0 else 10.0
  }

  /** The box centre, or the frame centre when the geometry is unavailable. */
  function Centre(f: Frame, b: Box): (real, real)
  {
    if b.geometry.Some? then (b.geometry.value.px, b.geometry.value.py) else (f.width / 2.0, f.height / 2.0)
  }

  /** The warrior position plus the pixel offset from the frame centre divided
      by the scale; a pose that cannot be read counts as the origin. */
  function WorldPosition(f: Frame, b: Box): (p: Pos)
    ensures var w := b.warriorPose.GetOr(Pos(0.0, 0.0));
      && (p.x - w.x) * Scale(f) == Centre(f, b).0 - f.width / 2.0
      && (p.y - w.y) * Scale(f) == Centre(f, b).1 - f.height / 2.0
  {
    var w := b.warriorPose.GetOr(Pos(0.0, 0.0));
    var (px, py) := Centre(f, b);
    Pos(w.x + (px - f.width / 2.0) / Scale(f), w.y + (py - f.height / 2.0) / Scale(f))
  }

  /** A box without geometry is placed at the warrior itself, and its threat
      record carries the default area of 1000. */
  lemma MissingGeometryIsAtWarrior(f: Frame, b: Box, now: real)
    requires b.geometry.None?
    ensures WorldPosition(f, b) == b.warriorPose.GetOr(Pos(0.0, 0.0))
    ensures b.classId in ThreatClasses ==>
      ThreatOf(f, b, now) == Threat(ThreatClasses[b.classId], Some(b.conf), b.warriorPose.GetOr(Pos(0.0, 0.0)),
                                    Some(1000.0), now)
  {
  }

  function BboxArea(b: Box): (a: real)
    ensures b.geometry.None? ==> a == DefaultBboxArea
    ensures b.geometry.Some? ==> a == b.geometry.value.w * b.geometry.value.h
  {
    if b.geometry.Some? then b.geometry.value.w * b.geometry.value.h else DefaultBboxArea
  }

  /** The threat record built for a box at clock `now`. */
  function ThreatOf(f: Frame, b: Box, now: real): (t: Threat)
    requires b.classId in ThreatClasses
    ensures t.cls == ThreatClasses[b.classId] && t.confidence == Some(b.conf)
    ensures t.worldPos == WorldPosition(f, b) && t.bboxArea == Some(BboxArea(b)) && t.timestamp == now
  {
    Threat(ThreatClasses[b.classId], Some(b.conf), WorldPosition(f, b), Some(BboxArea(b)), now)
  }

  // ---------------------------------------------------------------------
  // Scanning

  /** With a learner a box becomes a threat when the learner predicts a
      threat; without one its confidence must exceed 0.7. */
  predicate Accepts(learner: Option<AL.LearnerState>, t: Threat, b: Box, o: Oracle)
  {
    if learner.Some? then AL.PredictThreatLevel(learner.value, t, o.env, o.predictor).isThreat
    else b.conf > BasicConfidence
  }

  predicate Admitted(f: Frame, b: Box, learner: Option<AL.LearnerState>, last: real, now: real, o: Oracle)
  {
    BoxPasses(b, last, now) && Accepts(learner, ThreatOf(f, b, now), b, o)
  }

  /** The first admitted box at or after `from`. */
  function FirstThreatFrom(f: Frame, boxes: seq<Box>, from: nat, learner: Option<AL.LearnerState>,
                           last: real, now: real, o: Oracle): (r: Option<nat>)
    requires from <= |boxes|
    ensures r.Some? ==> from <= r.value < |boxes| && Admitted(f, boxes[r.value], learner, last, now, o)
    ensures r.Some? ==> forall j :: from <= j < r.value ==> !Admitted(f, boxes[j], learner, last, now, o)
    ensures r.None? ==> forall j :: from <= j < |boxes| ==> !Admitted(f, boxes[j], learner, last, now, o)
    decreases |boxes| - from
  {
    if from == |boxes| then None
    else if Admitted(f, boxes[from], learner, last, now, o) then Some(from)
    else FirstThreatFrom(f, boxes, from + 1, learner, last, now, o)
  }

  /** The CRITICAL entry logged for a threat found in a scan. */
  function FoundEntry(learner: Option<AL.LearnerState>, t: Threat, b: Box, o: Oracle): Swarm.LogEntry
  {
    if learner.Some? then
      Swarm.LogEntry("QUEEN", Swarm.LearnerConfirmedThreat(t.cls, b.conf,
        AL.PredictThreatLevel(learner.value, t, o.env, o.predictor).confidence, t.worldPos), Swarm.Critical)
    else Swarm.LogEntry("QUEEN", Swarm.ThreatDetected(t.cls, b.conf, t.worldPos), Swarm.Critical)
  }

  /** The outcome of a scan: the Queen's new counters, the entries it logs,
      and the threat it returns. */
  datatype Scan = Scan(queen: QueenView, logs: seq<Swarm.LogEntry>, found: Option<Threat>)

  /** The detector entries logged when detection raises. */
  function ErrorEntries(q: QueenView): seq<Swarm.LogEntry>
  {
    if q.aiScanCount % ErrorLogEvery == 0 then [Swarm.LogEntry("QUEEN", Swarm.DetectionError, Swarm.Warning)] else []
  }

  /** The common start of a scan: count it, then load the detector lazily. */
  function Prepared(q: QueenView, input: ScanInput): QueenView
  {
    var q1 := q.(aiScanCount := q.aiScanCount + 1);
    if input.frame.Some? && !q1.modelLoaded then q1.(modelLoaded := input.loadOk) else q1
  }

  /** `detect_threats_from_warrior`, with the missing stats hook read as doing
      nothing. */
  function Detect(q: QueenView, learner: Option<AL.LearnerState>, input: ScanInput, o: Oracle): Scan
  {
    var q1 := Prepared(q, input);
    if input.frame.None? || !q1.modelLoaded then Scan(q1, [], None)
    else if input.boxes.None? then Scan(q1, ErrorEntries(q1), None)
    else
      var boxes := input.boxes.value;
      match FirstThreatFrom(input.frame.value, boxes, 0, learner, q1.lastThreatTime, input.clock, o)
      case None => Scan(q1, [], None)
      case Some(i) =>
        var t := ThreatOf(input.frame.value, boxes[i], input.clock);
        Scan(q1.(lastThreatTime := input.clock), [FoundEntry(learner, t, boxes[i], o)], Some(t))
  }

  /** A scan returns the threat of the first admitted box, and only then
      restarts the cooldown; every scan is counted. */
  lemma DetectFindsFirstAdmitted(q: QueenView, learner: Option<AL.LearnerState>, input: ScanInput, o: Oracle)
    requires input.frame.Some? && input.boxes.Some? && Prepared(q, input).modelLoaded
    ensures var s := Detect(q, learner, input, o);
      var boxes := input.boxes.value;
      var last := q.lastThreatTime;
      && s.queen.aiScanCount == q.aiScanCount + 1
      && (s.found.Some? <==> exists i :: 0 <= i < |boxes| && Admitted(input.frame.value, boxes[i], learner, last, input.clock, o))
      && (s.found.Some? ==> exists i :: && 0 <= i < |boxes|
                                        && Admitted(input.frame.value, boxes[i], learner, last, input.clock, o)
                                        && (forall j :: 0 <= j < i ==> !Admitted(input.frame.value, boxes[j], learner, last, input.clock, o))
                                        && s.found.value == ThreatOf(input.frame.value, boxes[i], input.clock))
      && (s.found.Some? ==> s.queen.lastThreatTime == input.clock && last + CooldownSeconds <= input.clock)
      && (s.found.None? ==> s.queen.lastThreatTime == last)
  {
  }

  /** A threat returned by a scan was predicted a threat by the learner, or,
      without a learner, had detector confidence above 0.7. */
  lemma FoundThreatWasAccepted(q: QueenView, learner: Option<AL.LearnerState>, input: ScanInput, o: Oracle)
    requires Detect(q, learner, input, o).found.Some?
    ensures var t := Detect(q, learner, input, o).found.value;
      && t.cls in ThreatClasses.Values
      && (learner.Some? ==> AL.PredictThreatLevel(learner.value, t, o.env, o.predictor).isThreat)
      && (learner.None? ==> t.confidence.Some? && t.confidence.value > BasicConfidence)
  {
    var q1 := Prepared(q, input);
    var i := FirstThreatFrom(input.frame.value, input.boxes.value, 0, learner, q1.lastThreatTime, input.clock, o).value;
    assert input.boxes.value[i].classId in ThreatClasses;
  }

  /** The scan as written: with a learner, the call to the missing stats hook
      raises right after the threat is logged and the cooldown restarted, and
      the handler returns no threat. */
  function DetectAsWritten(q: QueenView, learner: Option<AL.LearnerState>, input: ScanInput, o: Oracle): Scan
  {
    var s := Detect(q, learner, input, o);
    if learner.Some? && s.found.Some? then Scan(s.queen, s.logs + ErrorEntries(s.queen), None)
    else s
  }

  /** As written, a Queen with a learner never reports a detected threat,
      although it logs one and starts the cooldown. */
  lemma LearnerThreatsNeverReported(q: QueenView, l: AL.LearnerState, input: ScanInput, o: Oracle)
    ensures DetectAsWritten(q, Some(l), input, o).found.None?
    ensures Detect(q, Some(l), input, o).found.Some? ==>
      DetectAsWritten(q, Some(l), input, o).queen.lastThreatTime == input.clock
  {
  }

  /** The corrected scan reports a person that the rules accept. */
  lemma LearnerThreatReported(l: AL.LearnerState, o: Oracle)
    requires !AL.ModelTrusted(l) && l.patterns == AL.DefaultPatterns
    ensures var input := ScanInput(Some(Frame(640.0, 480.0)), true,
                                   Some([Box(0, 0.9, None, Some(Pos(5.0, 5.0)))]), 100.0);
      Detect(QueenView(0, 0.0, true), Some(l), input, o).found
        == Some(Threat("person", Some(0.9), Pos(5.0, 5.0), Some(1000.0), 100.0))
  {
    var t := Threat("person", Some(0.9), Pos(5.0, 5.0), Some(1000.0), 100.0);
    assert AL.Matches(AL.DefaultPatterns[1], "person", 0.9);
    assert AL.PredictThreatLevel(l, t, o.env, o.predictor).isThreat;
  }

  // ---------------------------------------------------------------------
  // Handling a threat

  /** How a decision is reached: whether the learner's incremental fit
      succeeds, the clock, and the operator polls of a permission request. */
  datatype Decision = Decision(fitOk: bool, now: real, polls: seq<Swarm.Poll>, start: real)

  datatype Handled = Handled(swarm: Swarm.SwarmView, learner: Option<AL.LearnerState>, authorized: bool)

  /** The state after a refusal: the threat list and the active threat are
      cleared and the level drops to YELLOW. */
  function Cleared(v: Swarm.SwarmView): (r: Swarm.SwarmView)
    ensures r.threats == [] && r.activeThreat.None? && r.threatLevel == Swarm.Yellow
    ensures r.(threats := v.threats, activeThreat := v.activeThreat, threatLevel := v.threatLevel) == v
  {
    v.(threats := [], activeThreat := None, threatLevel := Swarm.Yellow)
  }

  /** `handle_threat`, with the missing stats hook read as doing nothing. */
  function Handle(v: Swarm.SwarmView, learner: Option<AL.LearnerState>, t: Threat, o: Oracle, d: Decision): Handled
  {
    if v.mode == Swarm.Jammer then
      if learner.Some? then
        if AL.AutonomousDecision(learner.value, t, o.env, o.predictor) then
          Handled(Swarm.Logged(v, Swarm.LogEntry("QUEEN", Swarm.AutoAuthorizedByLearner, Swarm.Critical)),
                  Some(AL.Learn(learner.value, t, true, o.env, d.fitOk, d.now).state), true)
        else Handled(Cleared(v), learner, false)
      else
        Handled(Swarm.Logged(v, Swarm.LogEntry("QUEEN", Swarm.AutoAuthorizedWithoutLearner, Swarm.Critical)),
                None, true)
    else
      var w := Swarm.Permission(v, d.polls, d.start);
      var l := if learner.Some? then Some(AL.Learn(learner.value, t, w.granted, o.env, d.fitOk, d.now).state)
               else None;
      if w.granted then Handled(w.view, l, true) else Handled(Cleared(w.view), l, false)
  }

  /** In jammer mode with a learner the strike is exactly the learner's
      autonomous decision; a strike is learned as a confirmed threat, a hold
      clears the threats and learns nothing. */
  lemma JammerModeFollowsLearner(v: Swarm.SwarmView, l: AL.LearnerState, t: Threat, o: Oracle, d: Decision)
    requires v.mode == Swarm.Jammer
    ensures var h := Handle(v, Some(l), t, o, d);
      && h.authorized == AL.AutonomousDecision(l, t, o.env, o.predictor)
      && (h.authorized ==> h.learner == Some(AL.Learn(l, t, true, o.env, d.fitOk, d.now).state)
                           && h.swarm.activeThreat == v.activeThreat && h.swarm.threats == v.threats)
      && (!h.authorized ==> h.learner == Some(l) && h.swarm == Cleared(v))
  {
  }

  /** In jammer mode without a learner every threat is struck and no threat
      state changes. */
  lemma JammerModeWithoutLearnerStrikes(v: Swarm.SwarmView, t: Threat, o: Oracle, d: Decision)
    requires v.mode == Swarm.Jammer
    ensures var h := Handle(v, None, t, o, d);
      && h.authorized && h.learner.None?
      && h.swarm.threats == v.threats && h.swarm.activeThreat == v.activeThreat
      && h.swarm.threatLevel == v.threatLevel
  {
  }

  /** In supervised mode the result is the permission request's result, the
      learner learns that result as the label, and only a refusal clears the
      threat state. */
  lemma SupervisedModeFollowsOperator(v: Swarm.SwarmView, learner: Option<AL.LearnerState>, t: Threat, o: Oracle, d: Decision)
    requires v.mode == Swarm.Normal
    ensures var h := Handle(v, learner, t, o, d);
      var w := Swarm.Permission(v, d.polls, d.start);
      && h.authorized == w.granted
      && (learner.Some? ==> h.learner == Some(AL.Learn(learner.value, t, w.granted, o.env, d.fitOk, d.now).state))
      && (learner.None? ==> h.learner.None?)
      && (h.authorized ==> h.swarm.threats == v.threats && h.swarm.activeThreat == v.activeThreat
                           && h.swarm.threatLevel == v.threatLevel)
      && (!h.authorized ==> h.swarm == Cleared(w.view))
  {
    Swarm.PermissionTouchesOnlyHandshake(v, d.polls, d.start);
  }

  /** Whatever the mode, a threat that is not struck leaves no active
      threat behind. */
  lemma RefusalLeavesNoActiveThreat(v: Swarm.SwarmView, learner: Option<AL.LearnerState>, t: Threat, o: Oracle, d: Decision)
    requires !Handle(v, learner, t, o, d).authorized
    ensures Handle(v, learner, t, o, d).swarm.activeThreat.None?
    ensures Handle(v, learner, t, o, d).swarm.threatLevel == Swarm.Yellow
  {
  }

  /** How `handle_threat` as written ends: it returns, or raises from the
      missing stats hook in the given state. */
  datatype HandleOutcome = Returned(handled: Handled) | RaisedIn(swarm: Swarm.SwarmView, learner: Option<AL.LearnerState>)

  /** `handle_threat` as written: an autonomous strike raises before the
      learner learns, and every supervised decision with a learner raises
      after learning and before a refusal clears the threat. */
  function HandleAsWritten(v: Swarm.SwarmView, learner: Option<AL.LearnerState>, t: Threat, o: Oracle, d: Decision): HandleOutcome
  {
    if v.mode == Swarm.Jammer && learner.Some? && AL.AutonomousDecision(learner.value, t, o.env, o.predictor) then
      RaisedIn(Swarm.Logged(v, Swarm.LogEntry("QUEEN", Swarm.AutoAuthorizedByLearner, Swarm.Critical)), learner)
    else if v.mode == Swarm.Normal && learner.Some? then
      var w := Swarm.Permission(v, d.polls, d.start);
      RaisedIn(w.view, Some(AL.Learn(learner.value, t, w.granted, o.env, d.fitOk, d.now).state))
    else Returned(Handle(v, learner, t, o, d))
  }

  /** As written, a supervised Queen with a learner never completes a
      decision, and an operator's refusal leaves the threat active. */
  lemma SupervisedHandlingRaises(v: Swarm.SwarmView, l: AL.LearnerState, t: Threat, o: Oracle, d: Decision)
    requires v.mode == Swarm.Normal
    ensures HandleAsWritten(v, Some(l), t, o, d).RaisedIn?
    ensures HandleAsWritten(v, Some(l), t, o, d).swarm.activeThreat == v.activeThreat
  {
    Swarm.PermissionTouchesOnlyHandshake(v, d.polls, d.start);
  }

  // ---------------------------------------------------------------------
  // One pass of the monitoring loop

  datatype StepInput = StepInput(scan: ScanInput, decision: Decision)

  datatype Stepped = Stepped(swarm: Swarm.SwarmView, queen: QueenView, learner: Option<AL.LearnerState>,
                             handled: Option<Threat>)

  /** Strike fields set on authorisation. */
  function Deployed(h: Handled, t: Threat): Swarm.SwarmView
  {
    if h.authorized then h.swarm.(kamikazeTarget := Some(t.worldPos), kamikazeDeployed := true) else h.swarm
  }

  /** One pass of `run`'s loop: an active threat that has not been struck is
      handled first, otherwise the warrior feed is scanned and a threat found
      there is added and handled. */
  function RunStep(v: Swarm.SwarmView, q: QueenView, learner: Option<AL.LearnerState>, scanNo: int,
                   inp: StepInput, o: Oracle): Stepped
  {
    var v0 := v.(queenScans := scanNo);
    if v0.activeThreat.Some? && !v0.kamikazeDeployed then
      var t := v0.activeThreat.value;
      var h := Handle(Swarm.Logged(v0, Swarm.LogEntry("QUEEN", Swarm.ManualThreat(t.cls), Swarm.Critical)),
                      learner, t, o, inp.decision);
      Stepped(Deployed(h, t), q, h.learner, Some(t))
    else
      var s := Detect(q, learner, inp.scan, o);
      var v1 := Swarm.LoggedAll(v0, s.logs);
      if s.found.None? then Stepped(v1, s.queen, learner, None)
      else
        var t := s.found.value;
        var h := Handle(Swarm.ThreatAdded(v1, t), learner, t, o, inp.decision);
        Stepped(Deployed(h, t), s.queen, h.learner, Some(t))
  }

  /** After a pass that handled a threat, either the kamikaze is deployed
      towards that threat's position, or no threat is active; an active
      threat is handled before any scan. */
  lemma StepDeploysOrClears(v: Swarm.SwarmView, q: QueenView, learner: Option<AL.LearnerState>, scanNo: int,
                            inp: StepInput, o: Oracle)
    ensures var r := RunStep(v, q, learner, scanNo, inp, o);
      && r.swarm.queenScans == scanNo
      && (r.handled.Some? ==>
            (r.swarm.kamikazeDeployed && r.swarm.kamikazeTarget == Some(r.handled.value.worldPos))
            || r.swarm.activeThreat.None?)
      && (v.activeThreat.Some? && !v.kamikazeDeployed ==> r.queen == q && r.handled == v.activeThreat)
  {
    var r := RunStep(v, q, learner, scanNo, inp, o);
    var v0 := v.(queenScans := scanNo);
    if v0.activeThreat.Some? && !v0.kamikazeDeployed {
      var t := v0.activeThreat.value;
      var v1 := Swarm.Logged(v0, Swarm.LogEntry("QUEEN", Swarm.ManualThreat(t.cls), Swarm.Critical));
      HandleKeepsScanCount(v1, learner, t, o, inp.decision);
      if !Handle(v1, learner, t, o, inp.decision).authorized {
        RefusalLeavesNoActiveThreat(v1, learner, t, o, inp.decision);
      }
    } else {
      var s := Detect(q, learner, inp.scan, o);
      var v1 := Swarm.LoggedAll(v0, s.logs);
      if s.found.Some? {
        var v2 := Swarm.ThreatAdded(v1, s.found.value);
        HandleKeepsScanCount(v2, learner, s.found.value, o, inp.decision);
        if !Handle(v2, learner, s.found.value, o, inp.decision).authorized {
          RefusalLeavesNoActiveThreat(v2, learner, s.found.value, o, inp.decision);
        }
      }
    }
  }

  /** Handling a threat never changes the scan counter. */
  lemma HandleKeepsScanCount(v: Swarm.SwarmView, learner: Option<AL.LearnerState>, t: Threat, o: Oracle, d: Decision)
    ensures Handle(v, learner, t, o, d).swarm.queenScans == v.queenScans
  {
    Swarm.PermissionTouchesOnlyHandshake(v, d.polls, d.start);
  }

  // ---------------------------------------------------------------------
  // The Queen object

  class Queen {
    const swarm: Swarm.SwarmState
    const learner: AL.AdaptiveThreatLearner?
    var aiScanCount: int
    var lastThreatTime: real
    var modelLoaded: bool

    function View(): QueenView
      reads this
    {
      QueenView(aiScanCount, lastThreatTime, modelLoaded)
    }

    function LearnerView(): Option<AL.LearnerState>
      reads learner
    {
      if learner == null then None else Some(learner.State())
    }

    /** A learner that fails to initialise is passed as null. */
    constructor (swarm: Swarm.SwarmState, learner: AL.AdaptiveThreatLearner?)
      ensures this.swarm == swarm && this.learner == learner
      ensures View() == QueenView(0, 0.0, false)
    {
      this.swarm := swarm;
      this.learner := learner;
      aiScanCount := 0;
      lastThreatTime := 0.0;
      modelLoaded := false;
    }

    method DetectThreatsFromWarrior(input: ScanInput, o: Oracle) returns (found: Option<Threat>)
      modifies this, swarm
      ensures var s := Detect(old(View()), LearnerView(), input, o);
        && View() == s.queen && found == s.found
        && swarm.View() == Swarm.LoggedAll(old(swarm.View()), s.logs)
    {
      Swarm.LoggedAllShort(swarm.View(), Swarm.LogEntry("QUEEN", Swarm.DetectionError, Swarm.Warning));
      aiScanCount := aiScanCount + 1;
      found := None;
      if input.frame.None? {
        return;
      }
      if !modelLoaded {
        modelLoaded := input.loadOk;
        if !modelLoaded {
          return;
        }
      }
      if input.boxes.None? {
        if aiScanCount % ErrorLogEvery == 0 {
          var _ := swarm.Log("QUEEN", Swarm.DetectionError, Swarm.Warning);
        }
        return;
      }
      var frame := input.frame.value;
      var boxes := input.boxes.value;
      var i := 0;
      while i < |boxes|
        invariant 0 <= i <= |boxes|
        invariant View() == Prepared(old(View()), input) && swarm.View() == old(swarm.View())
        invariant FirstThreatFrom(frame, boxes, 0, LearnerView(), lastThreatTime, input.clock, o)
               == FirstThreatFrom(frame, boxes, i, LearnerView(), lastThreatTime, input.clock, o)
      {
        var box := boxes[i];
        if box.classId in ThreatClasses && box.conf > MinBoxConfidence
           && !(input.clock - lastThreatTime < CooldownSeconds) {
          var t := ThreatOf(frame, box, input.clock);
          if learner != null {
            var a := learner.PredictThreat(t, o.env, o.predictor);
            if a.isThreat {
              Swarm.LoggedAllShort(swarm.View(), FoundEntry(LearnerView(), t, box, o));
              lastThreatTime := input.clock;
              var _ := swarm.Log("QUEEN", Swarm.LearnerConfirmedThreat(t.cls, box.conf, a.confidence, t.worldPos),
                                 Swarm.Critical);
              return Some(t);
            }
          } else if box.conf > BasicConfidence {
            Swarm.LoggedAllShort(swarm.View(), FoundEntry(LearnerView(), t, box, o));
            lastThreatTime := input.clock;
            var _ := swarm.Log("QUEEN", Swarm.ThreatDetected(t.cls, box.conf, t.worldPos), Swarm.Critical);
            return Some(t);
          }
        }
        i := i + 1;
      }
    }

    method HandleThreat(t: Threat, o: Oracle, d: Decision) returns (authorized: bool)
      requires swarm.queenMode == Swarm.Jammer || Swarm.Deadline(d.polls, d.start)
      modifies swarm, learner
      ensures var h := Handle(old(swarm.View()), old(LearnerView()), t, o, d);
        swarm.View() == h.swarm && LearnerView() == h.learner && authorized == h.authorized
    {
      if swarm.queenMode == Swarm.Jammer {
        if learner != null {
          var strike := learner.Decide(t, o.env, o.predictor);
          if strike {
            var _ := swarm.Log("QUEEN", Swarm.AutoAuthorizedByLearner, Swarm.Critical);
            var _ := learner.LearnFromFeedback(t, true, o.env, d.fitOk, d.now);
            return true;
          }
          swarm.threats := [];
          swarm.activeThreat := None;
          swarm.threatLevel := Swarm.Yellow;
          return false;
        }
        var _ := swarm.Log("QUEEN", Swarm.AutoAuthorizedWithoutLearner, Swarm.Critical);
        return true;
      }
      var approved := swarm.RequestPermission(d.polls, d.start);
      if learner != null {
        var _ := learner.LearnFromFeedback(t, approved, o.env, d.fitOk, d.now);
      }
      if approved {
        return true;
      }
      swarm.threats := [];
      swarm.activeThreat := None;
      swarm.threatLevel := Swarm.Yellow;
      return false;
    }

    /** Handle a threat and, when authorised, aim the kamikaze at it. */
    method Strike(t: Threat, o: Oracle, d: Decision)
      requires swarm.queenMode == Swarm.Jammer || Swarm.Deadline(d.polls, d.start)
      modifies swarm, learner
      ensures var h := Handle(old(swarm.View()), old(LearnerView()), t, o, d);
        swarm.View() == Deployed(h, t) && LearnerView() == h.learner
    {
      var strike := HandleThreat(t, o, d);
      if strike {
        swarm.kamikazeTarget := Some(t.worldPos);
        swarm.kamikazeDeployed := true;
      }
    }

    /** One pass of `run`'s monitoring loop, numbered `scanNo`. */
    method RunIteration(scanNo: int, inp: StepInput, o: Oracle) returns (handled: Option<Threat>)
      requires swarm.queenMode == Swarm.Jammer || Swarm.Deadline(inp.decision.polls, inp.decision.start)
      modifies this, swarm, learner
      ensures var r := RunStep(old(swarm.View()), old(View()), old(LearnerView()), scanNo, inp, o);
        && swarm.View() == r.swarm && View() == r.queen && LearnerView() == r.learner && handled == r.handled
    {
      swarm.queenScans := scanNo;
      if swarm.activeThreat.Some? && !swarm.kamikazeDeployed {
        var t := swarm.activeThreat.value;
        var _ := swarm.Log("QUEEN", Swarm.ManualThreat(t.cls), Swarm.Critical);
        Strike(t, o, inp.decision);
        return Some(t);
      }
      var found := DetectThreatsFromWarrior(inp.scan, o);
      if found.None? {
        return None;
      }
      var t := found.value;
      swarm.AddThreat(t);
      Strike(t, o, inp.decision);
      return Some(t);
    }
  }
}
