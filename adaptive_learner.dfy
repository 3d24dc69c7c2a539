/** The adaptive threat learner: an ordered rule table used until a
    Gaussian naive-Bayes classifier is trusted, the autonomous-strike
    threshold, a FIFO experience buffer of at most 1000 labelled examples,
    label statistics, reset, and the snapshot written to and read back from
    the model file.

    The classifier's numerics are not modelled: a classifier value records the
    examples it was fitted with, a prediction is an oracle that may raise, and
    whether an incremental fit raises is an input. */
module AdaptiveLearner {
  import opened Common
  import Bounded

  const MaxExperiences: nat := 1000
  const MinExperiencesForModel: nat := 5
  const SaveEvery: nat := 5
  const HistoryInSnapshot: nat := 100
  const AutonomousThreshold: real := 0.80
  const NoMatchWeight: real := 0.4
  const DefaultConfidence: real := 0.5
  const DefaultBboxArea: real := 1000.0
  const SnapshotVersion := "1.0"

  // ---------------------------------------------------------------------
  // Features

  /** Readings of the host taken while features are computed: the hour of
      `datetime.now()`, and the Euclidean norm `np.sqrt(x**2 + y**2)`, which
      is left uninterpreted. */
  datatype Env = Env(hour: int, norm: (real, real) -> real)

  type Features = seq<real>

  /** `class_map.get(cls, -1)`. */
  function ClassCode(cls: string): (c: int)
    ensures -1 <= c <= 5
  {
    if cls == "person" then 0
    else if cls == "car" then 1
    else if cls == "truck" then 2
    else if cls == "bus" then 3
    else if cls == "motorcycle" then 4
    else if cls == "bicycle" then 5
    else -1
  }

  /** The class name a code stands for; the inverse of `ClassCode`. */
  function ClassName(c: int): Option<string>
  {
    if c == 0 then Some("person")
    else if c == 1 then Some("car")
    else if c == 2 then Some("truck")
    else if c == 3 then Some("bus")
    else if c == 4 then Some("motorcycle")
    else if c == 5 then Some("bicycle")
    else None
  }

  /** The six known classes get distinct codes and decode back to themselves;
      every other class gets the sentinel -1. */
  lemma ClassCodeRoundTrip(cls: string)
    ensures ClassCode(cls) != -1 ==> ClassName(ClassCode(cls)) == Some(cls)
    ensures ClassCode(cls) == -1 <==> ClassName(ClassCode(cls)) == None
  {
  }

  /** `float(detection.get('confidence', 0.5))`. */
  function ConfidenceOf(t: Threat): real
  {
    t.confidence.GetOr(DefaultConfidence)
  }

  /** The seven features of a detection. */
  function ExtractFeatures(t: Threat, env: Env): (f: Features)
    ensures |f| == 7
    ensures f[0] == ClassCode(t.cls) as real
    ensures f[1] == ConfidenceOf(t)
    ensures f[2] * 100.0 == t.worldPos.x && f[3] * 100.0 == t.worldPos.y
    ensures f[4] * 10000.0 == t.bboxArea.GetOr(DefaultBboxArea)
    ensures f[5] * 100.0 == env.norm(t.worldPos.x, t.worldPos.y)
    ensures f[6] * 24.0 == env.hour as real
  {
    [ ClassCode(t.cls) as real,
      ConfidenceOf(t),
      t.worldPos.x / 100.0,
      t.worldPos.y / 100.0,
      t.bboxArea.GetOr(DefaultBboxArea) / 10000.0,
      env.norm(t.worldPos.x, t.worldPos.y) / 100.0,
      env.hour as real / 24.0 ]
  }

  // ---------------------------------------------------------------------
  // Rule table

  datatype Pattern = Pattern(name: string, minConf: real, classes: seq<string>, priority: real)

  /** The rule table in declaration order; the order decides which rule wins. */
  const DefaultPatterns: seq<Pattern> := [
    Pattern("high_confidence_vehicle", 0.75, ["car", "truck", "bus"], 0.8),
    Pattern("person_detected", 0.70, ["person"], 0.85),
    Pattern("large_vehicle", 0.65, ["truck", "bus"], 0.9)
  ]

  datatype Assessment = Assessment(isThreat: bool, confidence: real)

  predicate Matches(p: Pattern, cls: string, conf: real)
  {
    cls in p.classes && conf >= p.minConf
  }

  /** The first pattern at or after `from` that matches. */
  function FirstMatchFrom(patterns: seq<Pattern>, from: nat, cls: string, conf: real): (r: Option<nat>)
    requires from <= |patterns|
    ensures r.Some? ==> from <= r.value < |patterns| && Matches(patterns[r.value], cls, conf)
    ensures r.Some? ==> forall j :: from <= j < r.value ==> !Matches(patterns[j], cls, conf)
    ensures r.None? ==> forall j :: from <= j < |patterns| ==> !Matches(patterns[j], cls, conf)
    decreases |patterns| - from
  {
    if from == |patterns| then None
    else if Matches(patterns[from], cls, conf) then Some(from)
    else FirstMatchFrom(patterns, from + 1, cls, conf)
  }

  /** `_rule_based_assessment`: the first matching pattern weighs the
      confidence by its priority; with no match the confidence is weighed by
      0.4 and the detection is not a threat. */
  function RuleBasedAssessment(patterns: seq<Pattern>, t: Threat): (r: Assessment)
    ensures r.isThreat <==> exists i :: 0 <= i < |patterns| && Matches(patterns[i], t.cls, ConfidenceOf(t))
    ensures r.isThreat ==>
      exists i :: && 0 <= i < |patterns| && Matches(patterns[i], t.cls, ConfidenceOf(t))
                  && (forall j :: 0 <= j < i ==> !Matches(patterns[j], t.cls, ConfidenceOf(t)))
                  && r.confidence == ConfidenceOf(t) * patterns[i].priority
    ensures !r.isThreat ==> r.confidence == ConfidenceOf(t) * NoMatchWeight
  {
    var conf := ConfidenceOf(t);
    match FirstMatchFrom(patterns, 0, t.cls, conf)
    case Some(i) => Assessment(true, conf * patterns[i].priority)
    case None => Assessment(false, conf * NoMatchWeight)
  }

  /** A truck at 0.8 is scored by the first pattern (0.64), not by
      `large_vehicle` (0.72). */
  lemma TruckScoredByFirstPattern()
    ensures RuleBasedAssessment(DefaultPatterns, Threat("truck", Some(0.8), Pos(0.0, 0.0), None, 0.0))
         == Assessment(true, 0.64)
  {
    assert Matches(DefaultPatterns[0], "truck", 0.8);
  }

  /** A person at 0.70 scores 0.595; a bicycle at 0.99 matches nothing and
      scores 0.396; a detection without a confidence is read as 0.5. */
  lemma RuleExamples()
    ensures RuleBasedAssessment(DefaultPatterns, Threat("person", Some(0.70), Pos(0.0, 0.0), None, 0.0))
         == Assessment(true, 0.595)
    ensures RuleBasedAssessment(DefaultPatterns, Threat("bicycle", Some(0.99), Pos(0.0, 0.0), None, 0.0))
         == Assessment(false, 0.396)
    ensures RuleBasedAssessment(DefaultPatterns, Threat("person", None, Pos(0.0, 0.0), None, 0.0))
         == Assessment(false, 0.2)
  {
    assert Matches(DefaultPatterns[1], "person", 0.70);
    assert !Matches(DefaultPatterns[0], "person", 0.70);
    assert !Matches(DefaultPatterns[1], "person", 0.5);
  }

  // ---------------------------------------------------------------------
  // Classifier oracle and learner state

  datatype Sample = Sample(features: Features, threatLabel: int)

  /** A Gaussian naive-Bayes classifier, identified by the examples it has been
      incrementally fitted with. */
  datatype Classifier = GaussianNB(fitted: seq<Sample>)

  /** What `predict` / `predict_proba` give for one feature vector:
      the predicted label and the probability of that label, or an exception. */
  datatype ClassifierOutput = Output(threat: bool, confidence: real) | Raised

  type Predictor = (Classifier, Features) -> ClassifierOutput

  datatype Experience = Experience(
    features: Features, threatLabel: int, timestamp: real, cls: string, confidence: Option<real>)

  datatype HistoryEvent = HistoryEvent(timestamp: real, threatLabel: int, cls: string)

  datatype LearnerState = LearnerState(
    classifier: Option<Classifier>,
    isTrained: bool,
    buffer: seq<Experience>,
    history: seq<HistoryEvent>,
    patterns: seq<Pattern>)

  /** The classifier is consulted only when it exists, has been trained and
      the buffer holds at least five experiences. */
  predicate ModelTrusted(st: LearnerState)
  {
    st.isTrained && |st.buffer| >= MinExperiencesForModel && st.classifier.Some?
  }

  /** `predict_threat_level`: the rules unless the classifier is trusted, and
      the rules again when the classifier raises. */
  function PredictThreatLevel(st: LearnerState, t: Threat, env: Env, predictor: Predictor): (r: Assessment)
    ensures !ModelTrusted(st) ==> r == RuleBasedAssessment(st.patterns, t)
    ensures ModelTrusted(st) && predictor(st.classifier.value, ExtractFeatures(t, env)).Output? ==>
      var out := predictor(st.classifier.value, ExtractFeatures(t, env));
      r == Assessment(out.threat, out.confidence)
    ensures ModelTrusted(st) && predictor(st.classifier.value, ExtractFeatures(t, env)).Raised? ==>
      r == RuleBasedAssessment(st.patterns, t)
  {
    if !st.isTrained || |st.buffer| < MinExperiencesForModel then
      RuleBasedAssessment(st.patterns, t)
    else if st.classifier.None? then
      RuleBasedAssessment(st.patterns, t)
    else
      match predictor(st.classifier.value, ExtractFeatures(t, env))
      case Output(b, c) => Assessment(b, c)
      case Raised => RuleBasedAssessment(st.patterns, t)
  }

  /** A trusted classifier that raises is replaced by the rules for that call. */
  lemma PredictionFallsBackOnError(st: LearnerState, t: Threat, env: Env, predictor: Predictor)
    requires ModelTrusted(st)
    requires predictor(st.classifier.value, ExtractFeatures(t, env)) == Raised
    ensures PredictThreatLevel(st, t, env, predictor) == RuleBasedAssessment(st.patterns, t)
  {
  }

  /** `autonomous_decision`: strike only on a threat predicted with confidence
      strictly above 0.80. */
  function AutonomousDecision(st: LearnerState, t: Threat, env: Env, predictor: Predictor): (b: bool)
    ensures b <==> PredictThreatLevel(st, t, env, predictor).isThreat
                   && PredictThreatLevel(st, t, env, predictor).confidence > AutonomousThreshold
  {
    var a := PredictThreatLevel(st, t, env, predictor);
    a.isThreat && a.confidence > AutonomousThreshold
  }

  /** A prediction of exactly 0.80 holds fire whatever it says about the
      threat. */
  lemma ThresholdBoundaryHolds(st: LearnerState, t: Threat, env: Env, predictor: Predictor)
    requires PredictThreatLevel(st, t, env, predictor).confidence == 0.80
    ensures !AutonomousDecision(st, t, env, predictor)
  {
  }

  /** While the classifier is not trusted, the default rule table authorises
      an autonomous strike only on a person detected with confidence above
      16/17 (about 0.941); no vehicle of confidence at most 1 qualifies. */
  lemma UntrainedAutonomyOnlyStrikesPersons(st: LearnerState, t: Threat, env: Env, predictor: Predictor)
    requires !ModelTrusted(st) && st.patterns == DefaultPatterns
    requires ConfidenceOf(t) <= 1.0
    requires AutonomousDecision(st, t, env, predictor)
    ensures t.cls == "person" && ConfidenceOf(t) > 16.0 / 17.0
  {
    var conf := ConfidenceOf(t);
    var r := RuleBasedAssessment(DefaultPatterns, t);
    assert r.isThreat && r.confidence > 0.8;
    var i :| 0 <= i < 3 && Matches(DefaultPatterns[i], t.cls, conf)
      && (forall j :: 0 <= j < i ==> !Matches(DefaultPatterns[j], t.cls, conf))
      && r.confidence == conf * DefaultPatterns[i].priority;
    assert i == 1;
  }

  // ---------------------------------------------------------------------
  // Learning

  datatype Learned = Learned(state: LearnerState, saved: bool)

  /** `learn_from_feedback`. Without a classifier nothing changes. Otherwise
      the experience is appended to the 1000-entry FIFO buffer first; only a
      successful incremental fit then marks the learner trained, records one
      history event, and asks for a save when the buffer length is a multiple
      of five. A failed fit keeps the appended experience. */
  function Learn(st: LearnerState, t: Threat, confirmed: bool, env: Env, fitOk: bool, now: real): Learned
  {
    if st.classifier.None? then Learned(st, false)
    else
      var features := ExtractFeatures(t, env);
      var threatLabel := if confirmed then 1 else 0;
      var buffer := Bounded.TakeLast(st.buffer + [Experience(features, threatLabel, now, t.cls, t.confidence)],
                                     MaxExperiences);
      if !fitOk then Learned(st.(buffer := buffer), false)
      else
        var fitted := GaussianNB(st.classifier.value.fitted + [Sample(features, threatLabel)]);
        Learned(st.(classifier := Some(fitted), isTrained := true, buffer := buffer,
                    history := st.history + [HistoryEvent(now, threatLabel, t.cls)]),
                |buffer| % SaveEvery == 0)
  }

  /** What one call to `learn_from_feedback` does, stated against the old
      state. */
  lemma LearnEffect(st: LearnerState, t: Threat, confirmed: bool, env: Env, fitOk: bool, now: real)
    ensures var r := Learn(st, t, confirmed, env, fitOk, now);
      && (st.classifier.None? ==> r.state == st && !r.saved)
      && (st.classifier.Some? ==>
            && |r.state.buffer| <= MaxExperiences
            && r.state.buffer[|r.state.buffer| - 1]
               == Experience(ExtractFeatures(t, env), if confirmed then 1 else 0, now, t.cls, t.confidence)
            && (|st.buffer| < MaxExperiences ==> r.state.buffer == st.buffer + [r.state.buffer[|st.buffer|]])
            && (|st.buffer| == MaxExperiences ==> r.state.buffer[..MaxExperiences - 1] == st.buffer[1..])
            && r.state.patterns == st.patterns
            && (fitOk ==> r.state.isTrained && |r.state.history| == |st.history| + 1
                          && r.saved == (|r.state.buffer| % SaveEvery == 0))
            && (!fitOk ==> r.state.isTrained == st.isTrained && r.state.history == st.history
                           && r.state.classifier == st.classifier && !r.saved))
  {
    if st.classifier.Some? {
      var e := Experience(ExtractFeatures(t, env), if confirmed then 1 else 0, now, t.cls, t.confidence);
      var b := Bounded.TakeLast(st.buffer + [e], MaxExperiences);
      if |st.buffer| == MaxExperiences {
        assert b == (st.buffer + [e])[1..];
        assert b[..MaxExperiences - 1] == st.buffer[1..];
      }
    }
  }

  /** Once the buffer is full every successful fit asks for a save. */
  lemma FullBufferSavesEveryTime(st: LearnerState, t: Threat, confirmed: bool, env: Env, now: real)
    requires st.classifier.Some? && |st.buffer| >= MaxExperiences
    ensures Learn(st, t, confirmed, env, true, now).saved
  {
  }

  /** One item of operator feedback. */
  datatype Feedback = Feedback(threat: Threat, confirmed: bool, fitOk: bool, now: real)

  function LearnAll(st: LearnerState, fs: seq<Feedback>, env: Env): LearnerState
    decreases |fs|
  {
    if fs == [] then st
    else LearnAll(Learn(st, fs[0].threat, fs[0].confirmed, env, fs[0].fitOk, fs[0].now).state, fs[1..], env)
  }

  function ExperienceOf(f: Feedback, env: Env): Experience
  {
    Experience(ExtractFeatures(f.threat, env), if f.confirmed then 1 else 0, f.now, f.threat.cls, f.threat.confidence)
  }

  function ExperiencesOf(fs: seq<Feedback>, env: Env): seq<Experience>
    decreases |fs|
  {
    if fs == [] then [] else [ExperienceOf(fs[0], env)] + ExperiencesOf(fs[1..], env)
  }

  /** With a classifier present, after any run of feedback whether each fit
      succeeds or not, the buffer holds exactly the newest 1000 experiences of
      the whole history, oldest first. */
  lemma {:induction false} BufferKeepsNewest(st: LearnerState, fs: seq<Feedback>, env: Env)
    requires st.classifier.Some? && |st.buffer| <= MaxExperiences
    ensures LearnAll(st, fs, env).buffer == Bounded.TakeLast(st.buffer + ExperiencesOf(fs, env), MaxExperiences)
    ensures LearnAll(st, fs, env).classifier.Some?
    decreases |fs|
  {
    if fs == [] {
      assert st.buffer + ExperiencesOf(fs, env) == st.buffer;
    } else {
      var e := ExperienceOf(fs[0], env);
      var st1 := Learn(st, fs[0].threat, fs[0].confirmed, env, fs[0].fitOk, fs[0].now).state;
      assert st1.buffer == Bounded.TakeLast(st.buffer + [e], MaxExperiences);
      BufferKeepsNewest(st1, fs[1..], env);
      Bounded.TakeLastAbsorbs(st.buffer + [e], ExperiencesOf(fs[1..], env), MaxExperiences);
      assert st.buffer + [e] + ExperiencesOf(fs[1..], env) == st.buffer + ExperiencesOf(fs, env);
    }
  }

  // ---------------------------------------------------------------------
  // Statistics

  datatype Stats = Stats(
    totalDetections: nat, confirmedThreats: nat, deniedThreats: nat,
    accuracyEstimate: real, isTrained: bool, modelAgeHours: real)

  /** The number of buffered experiences labelled 1. */
  function CountConfirmed(buffer: seq<Experience>): (n: nat)
    ensures n <= |buffer|
  {
    if buffer == [] then 0
    else CountConfirmed(buffer[..|buffer| - 1]) + (if buffer[|buffer| - 1].threatLabel == 1 then 1 else 0)
  }

  /** The share `part / whole` of a non-empty whole lies in [0, 1] and
      multiplies back to the part. */
  lemma ShareBounds(part: nat, whole: nat)
    requires 0 < whole && part <= whole
    ensures (part as real / whole as real) * (whole as real) == part as real
    ensures 0.0 <= part as real / whole as real <= 1.0
  {
  }

  /** `get_stats`. `accuracy_estimate` is the share of buffered experiences
      labelled as confirmed threats; the model age is measured from the first
      training event to `now`. */
  function LearningStats(st: LearnerState, now: real): (s: Stats)
    ensures |st.buffer| == 0 ==> s == Stats(0, 0, 0, 0.0, false, 0.0)
    ensures |st.buffer| > 0 ==>
      && s.totalDetections == |st.buffer|
      && s.confirmedThreats + s.deniedThreats == s.totalDetections
      && s.accuracyEstimate * (s.totalDetections as real) == s.confirmedThreats as real
      && 0.0 <= s.accuracyEstimate <= 1.0
      && s.isTrained == st.isTrained
    ensures |st.buffer| > 0 ==> s.confirmedThreats == multiset(LabelsOf(st.buffer))[1]
  {
    var total := |st.buffer|;
    if total == 0 then Stats(0, 0, 0, 0.0, false, 0.0)
    else
      var confirmed := CountConfirmed(st.buffer);
      CountConfirmedIsMultiplicity(st.buffer);
      ShareBounds(confirmed, total);
      var age := if st.history != [] then (now - st.history[0].timestamp) / 3600.0 else 0.0;
      Stats(total, confirmed, total - confirmed, confirmed as real / total as real, st.isTrained, age)
  }

  /** The labels of the buffered experiences, in order. */
  function LabelsOf(buffer: seq<Experience>): seq<int>
  {
    seq(|buffer|, i requires 0 <= i < |buffer| => buffer[i].threatLabel)
  }

  /** The confirmed count is the number of times label 1 occurs among the
      buffered experiences. */
  lemma {:induction false} CountConfirmedIsMultiplicity(buffer: seq<Experience>)
    ensures CountConfirmed(buffer) == multiset(LabelsOf(buffer))[1]
    decreases |buffer|
  {
    if buffer != [] {
      var init := buffer[..|buffer| - 1];
      CountConfirmedIsMultiplicity(init);
      assert LabelsOf(buffer) == LabelsOf(init) + [buffer[|buffer| - 1].threatLabel];
    }
  }

  /** Appending one experience adds one to the confirmed count exactly when
      its label is 1. */
  lemma CountConfirmedAppend(buffer: seq<Experience>, e: Experience)
    ensures CountConfirmed(buffer + [e]) == CountConfirmed(buffer) + (if e.threatLabel == 1 then 1 else 0)
  {
    assert (buffer + [e])[..|buffer|] == buffer;
  }

  /** A confirmed threat learned while the buffer has room raises both the
      total and the confirmed count by one; a denial raises total and denied. */
  lemma LearningCountsLabel(st: LearnerState, t: Threat, confirmed: bool, env: Env, fitOk: bool, now: real, at: real)
    requires st.classifier.Some? && |st.buffer| < MaxExperiences
    ensures var before := LearningStats(st, at);
            var after := LearningStats(Learn(st, t, confirmed, env, fitOk, now).state, at);
      && after.totalDetections == |st.buffer| + 1
      && after.confirmedThreats == before.confirmedThreats + (if confirmed then 1 else 0)
      && after.deniedThreats == before.deniedThreats + (if confirmed then 0 else 1)
  {
    var e := Experience(ExtractFeatures(t, env), if confirmed then 1 else 0, now, t.cls, t.confidence);
    CountConfirmedAppend(st.buffer, e);
    assert Learn(st, t, confirmed, env, fitOk, now).state.buffer == st.buffer + [e];
  }

  // ---------------------------------------------------------------------
  // Reset and the model file

  /** A freshly constructed classifier, or none when scikit-learn cannot be
      imported. */
  function NewClassifier(sklearnAvailable: bool): Option<Classifier>
  {
    if sklearnAvailable then Some(GaussianNB([])) else None
  }

  /** `reset_model`. */
  function Reset(st: LearnerState, sklearnAvailable: bool): (r: LearnerState)
    ensures !r.isTrained && r.buffer == [] && r.history == [] && r.patterns == st.patterns
  {
    st.(classifier := NewClassifier(sklearnAvailable), isTrained := false, buffer := [], history := [])
  }

  /** After a reset the statistics are all zeros and the rules decide. */
  lemma ResetForgets(st: LearnerState, sklearnAvailable: bool, t: Threat, env: Env, predictor: Predictor, now: real)
    ensures LearningStats(Reset(st, sklearnAvailable), now) == Stats(0, 0, 0, 0.0, false, 0.0)
    ensures PredictThreatLevel(Reset(st, sklearnAvailable), t, env, predictor) == RuleBasedAssessment(st.patterns, t)
  {
  }

  /** The record `save_model` pickles. */
  datatype ModelSnapshot = ModelSnapshot(
    classifier: Option<Classifier>,
    experience: seq<Experience>,
    patterns: seq<Pattern>,
    isTrained: bool,
    trainingHistory: seq<HistoryEvent>,
    version: string,
    savedAt: real)

  /** The model file as found when the learner starts. */
  datatype ModelFile = NoFile | Unreadable | Stored(snapshot: ModelSnapshot)

  /** `save_model`: only the last 100 training events are kept. */
  function Snapshot(st: LearnerState, now: real): (s: ModelSnapshot)
    ensures |s.trainingHistory| <= HistoryInSnapshot
    ensures s.trainingHistory == Bounded.TakeLast(st.history, HistoryInSnapshot)
    ensures s.experience == st.buffer && s.isTrained == st.isTrained && s.version == SnapshotVersion
  {
    ModelSnapshot(st.classifier, st.buffer, st.patterns, st.isTrained,
                  Bounded.TakeLast(st.history, HistoryInSnapshot), SnapshotVersion, now)
  }

  /** `load_model` on a learner whose rule table exists: a missing or
      unreadable file changes nothing; a stored snapshot replaces the
      classifier, the rule table, the trained flag and the history, and only
      its last 1000 experiences are kept. */
  function LoadModel(st: LearnerState, file: ModelFile): (r: LearnerState)
    ensures !file.Stored? ==> r == st
    ensures file.Stored? ==>
      && |r.buffer| <= MaxExperiences
      && r.buffer == Bounded.TakeLast(file.snapshot.experience, MaxExperiences)
      && r.isTrained == file.snapshot.isTrained
  {
    match file
    case Stored(s) =>
      st.(classifier := s.classifier,
          buffer := Bounded.TakeLast(s.experience, MaxExperiences),
          patterns := s.patterns,
          isTrained := s.isTrained,
          history := s.trainingHistory)
    case _ => st
  }

  /** The learner before anything is loaded. */
  function Fresh(sklearnAvailable: bool): LearnerState
  {
    LearnerState(NewClassifier(sklearnAvailable), false, [], [], DefaultPatterns)
  }

  /** The learner's state after construction with the rule table assigned
      before the model file is read. */
  function Initial(sklearnAvailable: bool, file: ModelFile): LearnerState
  {
    LoadModel(Fresh(sklearnAvailable), file)
  }

  /** The construction as written: `load_model` runs before `threat_patterns`
      exists, so reading the snapshot's patterns raises after the classifier
      and the experience were taken over; the trained flag and the history
      stay at their initial values and the default rule table is assigned
      afterwards. */
  function InitialAsWritten(sklearnAvailable: bool, file: ModelFile): LearnerState
  {
    match file
    case Stored(s) =>
      Fresh(sklearnAvailable).(classifier := s.classifier,
                               buffer := Bounded.TakeLast(s.experience, MaxExperiences))
    case _ => Fresh(sklearnAvailable)
  }

  /** As written, a restart forgets that the model was trained and forgets
      its training history, although every experience is reloaded. */
  lemma RestartForgetsTraining(st: LearnerState, sklearnAvailable: bool, now: real)
    requires st.isTrained && 0 < |st.buffer| <= MaxExperiences && st.history != []
    ensures var r := InitialAsWritten(sklearnAvailable, Stored(Snapshot(st, now)));
      !r.isTrained && r.history == [] && r.buffer == st.buffer
  {
  }

  /** Saving and then starting from the saved file keeps the trained flag,
      the classifier, the rule table, every experience (at most 1000 are ever
      buffered) and the last 100 training events. */
  lemma RestartKeepsTraining(st: LearnerState, sklearnAvailable: bool, now: real)
    requires |st.buffer| <= MaxExperiences
    ensures var r := Initial(sklearnAvailable, Stored(Snapshot(st, now)));
      && r.isTrained == st.isTrained && r.buffer == st.buffer && r.classifier == st.classifier
      && r.patterns == st.patterns && r.history == Bounded.TakeLast(st.history, HistoryInSnapshot)
  {
  }

  // ---------------------------------------------------------------------
  // The learner object

  class AdaptiveThreatLearner {
    var classifier: Option<Classifier>
    var isTrained: bool
    var experienceBuffer: seq<Experience>
    var trainingHistory: seq<HistoryEvent>
    var threatPatterns: seq<Pattern>

    function State(): LearnerState
      reads this
    {
      LearnerState(classifier, isTrained, experienceBuffer, trainingHistory, threatPatterns)
    }

    /** Construction: a classifier if scikit-learn imports, then the model
        file is read into a learner that already has its rule table. */
    constructor (sklearnAvailable: bool, file: ModelFile)
      ensures State() == Initial(sklearnAvailable, file)
    {
      classifier := NewClassifier(sklearnAvailable);
      isTrained := false;
      experienceBuffer := [];
      trainingHistory := [];
      threatPatterns := DefaultPatterns;
      new;
      LoadModelFrom(file);
    }

    method PredictThreat(t: Threat, env: Env, predictor: Predictor) returns (a: Assessment)
      ensures a == PredictThreatLevel(State(), t, env, predictor)
    {
      var features := ExtractFeatures(t, env);
      if !isTrained || |experienceBuffer| < MinExperiencesForModel {
        return RuleBasedAssessment(threatPatterns, t);
      }
      if classifier.None? {
        return RuleBasedAssessment(threatPatterns, t);
      }
      match predictor(classifier.value, features)
      case Output(b, c) => a := Assessment(b, c);
      case Raised => a := RuleBasedAssessment(threatPatterns, t);
    }

    method Decide(t: Threat, env: Env, predictor: Predictor) returns (strike: bool)
      ensures strike == AutonomousDecision(State(), t, env, predictor)
    {
      var a := PredictThreat(t, env, predictor);
      strike := a.isThreat && a.confidence > AutonomousThreshold;
    }

    /** `learn_from_feedback`; `saved` is the record written to the model file
        when a save is due. */
    method LearnFromFeedback(t: Threat, confirmed: bool, env: Env, fitOk: bool, now: real)
      returns (saved: Option<ModelSnapshot>)
      modifies this
      ensures State() == Learn(old(State()), t, confirmed, env, fitOk, now).state
      ensures saved.Some? == Learn(old(State()), t, confirmed, env, fitOk, now).saved
      ensures saved.Some? ==> saved.value == Snapshot(State(), now)
    {
      saved := None;
      if classifier.None? {
        return;
      }
      var features := ExtractFeatures(t, env);
      var threatLabel := if confirmed then 1 else 0;
      experienceBuffer := Bounded.TakeLast(
        experienceBuffer + [Experience(features, threatLabel, now, t.cls, t.confidence)], MaxExperiences);
      if fitOk {
        classifier := Some(GaussianNB(classifier.value.fitted + [Sample(features, threatLabel)]));
        isTrained := true;
        trainingHistory := trainingHistory + [HistoryEvent(now, threatLabel, t.cls)];
        if |experienceBuffer| % SaveEvery == 0 {
          var s := SaveModel(now);
          saved := Some(s);
        }
      }
    }

    method GetStats(now: real) returns (s: Stats)
      ensures s == LearningStats(State(), now)
    {
      s := LearningStats(State(), now);
    }

    /** `save_model`: the record written to the model file. */
    method SaveModel(now: real) returns (s: ModelSnapshot)
      ensures s == Snapshot(State(), now)
    {
      s := ModelSnapshot(classifier, experienceBuffer, threatPatterns, isTrained,
                         Bounded.TakeLast(trainingHistory, HistoryInSnapshot), SnapshotVersion, now);
    }

    /** `load_model` on a learner that has its rule table. */
    method LoadModelFrom(file: ModelFile)
      modifies this
      ensures State() == LoadModel(old(State()), file)
    {
      if !file.Stored? {
        return;
      }
      var data := file.snapshot;
      classifier := data.classifier;
      experienceBuffer := Bounded.TakeLast(data.experience, MaxExperiences);
      threatPatterns := data.patterns;
      isTrained := data.isTrained;
      trainingHistory := data.trainingHistory;
    }

    /** `reset_model`. */
    method ResetModel(sklearnAvailable: bool)
      modifies this
      ensures State() == Reset(old(State()), sklearnAvailable)
    {
      classifier := NewClassifier(sklearnAvailable);
      isTrained := false;
      experienceBuffer := [];
      trainingHistory := [];
    }
  }
}
