# Drone swarm decision layer, modelled in Dafny

This project models the decision and bookkeeping layer of a simulated drone
swarm. A Queen drone scans a warrior drone's camera feed for threats. It
decides on each one, either by itself ("jammer" mode) or by asking a human
operator, and it hands an authorised target to the kamikaze drone. Warriors
patrol a circle. An adaptive learner learns from every decision and takes
over the scoring once it is trusted.

Modules (one file each):

- `Common` (`common.dfy`): the optional value, positions and the threat
  record.
- `Bounded` (`bounded.dfy`): the bounded tails kept by `deque(maxlen=n)`,
  `s[-n:]` and append-then-`pop(0)`.
- `AdaptiveLearner` (`adaptive_learner.dfy`): the rule table, the gate
  between rules and classifier, the autonomous threshold, the 1000-entry
  experience buffer, the statistics, reset, and the saved and loaded
  snapshot. It ends with the `AdaptiveThreatLearner` class.
- `Swarm` (`swarm_state.dfy`): the shared state. This covers the 2000-entry
  mission log, the 200-entry warrior reports, the active threat, the
  permission handshake with its 15-second default approval and jammer
  bypass, the patrol area and the 500-entry persisted record. It ends with
  the `SwarmState` class.
- `Datacenter` (`datacenter.dfy`): the effects of the operator endpoints
  `approve`, `deny`, `spawn_threat`, `set_patrol`, `logs` and `status`.
- `QueenDrone` (`queen.dfy`): the box filter, the pixel-to-world conversion,
  the scan, threat handling by mode, and one pass of the monitoring loop. It
  ends with the `Queen` class.
- `WarriorMulti` (`warrior_multi.dfy`): how warrior names are selected from
  the settings, the angle offset of each warrior, and the patrol loop of each
  warrior.
- `Warriors` (`warriors.dfy`): the single-warrior patrol loop.

Each locked block of the original counts as one atomic step. Every place the
original reads the clock, the simulator, the camera, the detector or the
classifier becomes an input. This covers:

- the clock readings of the permission loop, as a sequence of polls;
- the detector's boxes, with their geometry and the warrior pose;
- the Gaussian classifier's `predict`, as an oracle that may raise;
- whether `partial_fit` raises, as a flag;
- the hour and the Euclidean norm used by the features;
- the passes of a warrior's loop.

Each class's state is mirrored by a datatype (`View()` / `State()`). Each
method is proved to take its class from the old state to the result of a
specification function. The properties are lemmas about those functions.

Behaviours the model follows as the code has them:

- `add_threat` is unconditional. A new threat always replaces the active one
  and sets the level to RED, whatever either threat's confidence is.
- `request_permission` does not clear an answer left in the slot by an
  earlier request. The first poll consumes that answer
  (`Swarm.StaleAnswerDecidesNextRequest`).
- `approve` and `deny` are not gated on a pending request
  (`Datacenter.AnswersAreUngated`). When an answer lands while a request is
  polling, the endpoint logs one USER entry and the polling loop logs a
  second one.
- When `partial_fit` raises, the new experience stays in the buffer.
- The mode `"jammer"` is never assigned anywhere in the modelled code. The
  model keeps it as a field of the shared state.

## Model

| member | source | states |
|---|---|---|
| Bounded.TakeLast | adaptive_learner.py:381 | `deque(exp_list, maxlen=1000)` keeps min(n, length) elements |
| Bounded.Append | swarm_state.py:99-102 | appending and popping the oldest element keeps a bounded sequence within its bound |
| Bounded.AppendKeepsNewest | swarm_state.py:99-102 | append then `pop(0)` keeps the newest `cap` elements, and the new one is last; below the cap nothing is dropped, at the cap exactly the oldest is |
| Bounded.TakeLastAbsorbs | adaptive_learner.py:52 | a FIFO of capacity n ends up holding the last n elements of its whole history, however often it was trimmed along the way |
| Bounded.AppendAllKeepsNewest | swarm_state.py:99-102 | any run of bounded appends keeps the newest `cap` elements of the whole history, in order |
| AdaptiveLearner.ClassCodeRoundTrip | adaptive_learner.py:105-114 | the six known classes get distinct codes that decode back to the class; any other class gets -1 |
| AdaptiveLearner.ExtractFeatures | adaptive_learner.py:83-141 | seven features: class code, confidence (default 0.5), x/100, y/100, area/10000 (default 1000), norm/100, hour/24 |
| AdaptiveLearner.FirstMatchFrom | adaptive_learner.py:193-199 | the index returned is the first matching pattern at or after the start; None means no pattern there matches |
| AdaptiveLearner.RuleBasedAssessment | adaptive_learner.py:178-202 | a threat if and only if some pattern matches; then confidence × priority of the first match; otherwise confidence × 0.4 |
| AdaptiveLearner.TruckScoredByFirstPattern | adaptive_learner.py:61-77 | a truck at 0.8 scores 0.64 from `high_confidence_vehicle`, not 0.72 from `large_vehicle` |
| AdaptiveLearner.RuleExamples | adaptive_learner.py:189-202 | person at 0.70 scores (true, 0.595); bicycle at 0.99 scores (false, 0.396); a missing confidence counts as 0.5 |
| AdaptiveLearner.PredictThreatLevel | adaptive_learner.py:143-176 | untrusted (untrained, fewer than 5 experiences, or no classifier): the rule assessment; trusted and `predict` answers (b, c): exactly (b, c); trusted and `predict` raises: the rule assessment |
| AdaptiveLearner.PredictionFallsBackOnError | adaptive_learner.py:165-176 | a trusted classifier that raises is replaced by the rules |
| AdaptiveLearner.AutonomousDecision | adaptive_learner.py:264-299 | strike if and only if the prediction is a threat with confidence strictly above 0.80 |
| AdaptiveLearner.ThresholdBoundaryHolds | adaptive_learner.py:283-287 | a confidence of exactly 0.80 holds fire |
| AdaptiveLearner.UntrainedAutonomyOnlyStrikesPersons | adaptive_learner.py:279-287 | with the default rules and confidences at most 1, an untrusted learner strikes only a person above 16/17 |
| AdaptiveLearner.LearnEffect | adaptive_learner.py:204-252 | no classifier: nothing changes; otherwise the labelled experience is appended to the ≤1000 FIFO (evicting the oldest when full); a successful fit sets trained, adds one history event and saves when the length is a multiple of 5; a failed fit keeps the experience and changes nothing else |
| AdaptiveLearner.FullBufferSavesEveryTime | adaptive_learner.py:250-252 | once the buffer holds 1000 experiences every successful fit saves |
| AdaptiveLearner.BufferKeepsNewest | adaptive_learner.py:213-229 | after any sequence of feedback the buffer is exactly the newest 1000 experiences of the whole history |
| AdaptiveLearner.CountConfirmed | adaptive_learner.py:321 | the confirmed count never exceeds the buffer size |
| AdaptiveLearner.CountConfirmedIsMultiplicity | adaptive_learner.py:321 | the confirmed count is the number of occurrences of label 1 among the buffered experiences' labels |
| AdaptiveLearner.LearningStats | adaptive_learner.py:301-338 | empty buffer: all zeros and untrained; otherwise confirmed is the number of label-1 experiences, confirmed + denied = total, accuracy × total = confirmed, accuracy in [0, 1] |
| AdaptiveLearner.CountConfirmedAppend | adaptive_learner.py:321-322 | one more experience adds one to the confirmed count exactly when its label is 1 |
| AdaptiveLearner.LearningCountsLabel | adaptive_learner.py:218-229 | below capacity, learning a confirmation raises total and confirmed by one; learning a denial raises total and denied by one |
| AdaptiveLearner.Reset | adaptive_learner.py:400-413 | empties buffer and history, clears trained, keeps the rule table |
| AdaptiveLearner.ResetForgets | adaptive_learner.py:400-413 | after a reset the statistics are all zeros and the rules decide every prediction |
| AdaptiveLearner.Snapshot | adaptive_learner.py:340-354 | the saved record holds the whole buffer, the trained flag, version "1.0" and only the last 100 history events |
| AdaptiveLearner.LoadModel | adaptive_learner.py:364-398 | a missing or unreadable file changes nothing; a stored one restores the trained flag and only its last 1000 experiences |
| AdaptiveLearner.RestartKeepsTraining | adaptive_learner.py:340-398 | saving and starting again from the file restores the classifier, the trained flag, the rules, every experience and the last 100 history events |
| AdaptiveLearner.RestartForgetsTraining | adaptive_learner.py:58-61 | as written, a restart reloads every experience but forgets the trained flag and the history |
| AdaptiveLearner.AdaptiveThreatLearner.constructor | adaptive_learner.py:34-77 | the new learner is the fresh state (a classifier if scikit-learn imports, the default rules) with the model file loaded, in the corrected order of the adaptive_learner.py:58 finding (rule table first); the order as written is `InitialAsWritten` |
| AdaptiveLearner.AdaptiveThreatLearner.PredictThreat | adaptive_learner.py:143-176 | returns `PredictThreatLevel` of the current state |
| AdaptiveLearner.AdaptiveThreatLearner.Decide | adaptive_learner.py:264-299 | returns `AutonomousDecision` of the current state |
| AdaptiveLearner.AdaptiveThreatLearner.LearnFromFeedback | adaptive_learner.py:204-262 | the new state is `Learn` of the old one; a snapshot of the new state is returned exactly when a save is due |
| AdaptiveLearner.AdaptiveThreatLearner.GetStats | adaptive_learner.py:301-338 | returns `LearningStats` of the current state |
| AdaptiveLearner.AdaptiveThreatLearner.SaveModel | adaptive_learner.py:340-362 | returns `Snapshot` of the current state |
| AdaptiveLearner.AdaptiveThreatLearner.LoadModelFrom | adaptive_learner.py:364-398 | the new state is `LoadModel` of the old one |
| AdaptiveLearner.AdaptiveThreatLearner.ResetModel | adaptive_learner.py:400-413 | the new state is `Reset` of the old one |
| Swarm.LogAppendsNewest | swarm_state.py:91-102 | the new entry is the newest; below 2000 nothing is dropped, at 2000 exactly the oldest is; the bounds and every other field are kept |
| Swarm.LoggedAllKeepsNewest | swarm_state.py:99-102 | logging entries one by one keeps the newest 2000 of all of them |
| Swarm.FullLogPersistsEveryEntry | swarm_state.py:111-113 | once the log holds 2000 entries every new entry writes the persisted record |
| Swarm.PyTail | swarm_state.py:179-181 | Python's `s[-limit:]` for positive, zero and negative limits |
| Swarm.LogsAreNewestEntries | swarm_state.py:179-181 | `get_logs(limit)` with limit ≥ 1 is the newest min(limit, n) entries, oldest first |
| Swarm.ThreatAdded | swarm_state.py:115-120 | the threat is appended and becomes the active threat, the level becomes RED, and one QUEEN entry is logged, with no confidence test |
| Swarm.WarriorStatus | swarm_state.py:183-185 | None exactly when there are no reports, otherwise the newest report |
| Swarm.ReportBecomesStatus | swarm_state.py:122-137 | the report is the newest of at most 200 and becomes the warrior status and telemetry; it is logged exactly when the number kept is a multiple of 5 |
| Swarm.FullReportsLogEveryReport | swarm_state.py:129-137 | with 200 reports kept, every further report is logged |
| Swarm.OperatorPosted | datacenter.py:165-168 | an answer fills the slot and clears the pending flag |
| Swarm.JammerGrantsWithoutTouchingSlot | swarm_state.py:140-142 | jammer mode grants at once and leaves the pending flag and the slot as they were |
| Swarm.AwaitClearsPending | swarm_state.py:148-177 | a supervised request never leaves the pending flag set |
| Swarm.AnsweredEmptiesSlot | swarm_state.py:162-172 | an answer the loop returns is consumed: the slot is empty afterwards |
| Swarm.StaleAnswerDecidesNextRequest | swarm_state.py:148-165 | an answer left in the slot decides the next request at its first poll |
| Swarm.SilenceGrants | swarm_state.py:154-177 | with an empty slot and no answer posted, the request times out, grants, and leaves nothing pending |
| Swarm.OnlyTheOperatorDenies | swarm_state.py:154-177 | a refusal comes only from a "deny" already in the slot or posted during the polling |
| Swarm.FirstAnswerDecides | swarm_state.py:154-172 | the first answer posted before the deadline is the result |
| Swarm.LateAnswerSurvives | swarm_state.py:154-177 | an answer posted as the deadline is reached is not consumed: the request grants by timeout and the answer stays in the slot |
| Swarm.AwaitTouchesOnlyHandshake | swarm_state.py:148-177 | polling changes only the log, the pending flag and the slot |
| Swarm.PermissionTouchesOnlyHandshake | swarm_state.py:139-177 | a permission request, in either mode, changes only the log, the pending flag and the slot |
| Swarm.AwaitKeepsBounds | swarm_state.py:148-177 | the polling loop of a supervised request keeps the log and report bounds |
| Swarm.PermissionKeepsBounds | swarm_state.py:139-177 | a whole permission request, jammer bypass or request and polling, keeps the log and report bounds |
| Swarm.PatrolSet | swarm_state.py:187-197 | the patrol triple, its mode and its update time are the new values |
| Swarm.EffectivePatrol | swarm_state.py:203-222 | the Queen's x, y are added only in relative mode with a pose whose x is present; the radius never changes |
| Swarm.Persisted | swarm_state.py:75-84 | the record written holds the newest 500 entries and the patrol settings |
| Swarm.Loaded | swarm_state.py:58-70 | no file or an unreadable one changes nothing; a read file gives the newest 500 entries of its log (empty when the key is missing), each patrol key or its current value, and changes no other field |
| Swarm.LoadedKeyByKey | swarm_state.py:64-70 | each key falls back on its own: a missing patrol key keeps the current value, a missing log loads empty, a log of more than 500 entries loads as exactly its last 500 |
| Swarm.RestartRestoresPersisted | swarm_state.py:58-84 | restarting from the written record restores the newest 500 entries and the patrol settings; everything else starts fresh |
| Swarm.EmptyFileKeepsDefaults | swarm_state.py:24-70 | a file without keys leaves the initial state: empty log, 30 m patrol around the origin, absolute mode |
| Swarm.SwarmState.constructor | swarm_state.py:24-55 | the new object is the initial state with the persisted file loaded |
| Swarm.SwarmState.LoadPersisted | swarm_state.py:58-73 | the new state is `Loaded` of the old one |
| Swarm.SwarmState.Persist | swarm_state.py:75-88 | returns `Persisted` of the current state |
| Swarm.SwarmState.Log | swarm_state.py:91-113 | the new state is `Logged` of the old one; the record is written exactly when the log length is a multiple of 20 |
| Swarm.SwarmState.AddThreat | swarm_state.py:115-120 | the new state is `ThreatAdded` of the old one |
| Swarm.SwarmState.WarriorReport | swarm_state.py:122-137 | the new state is `Reported` of the old one |
| Swarm.SwarmState.Respond | datacenter.py:164-180 | the new state is `OperatorPosted` of the old one |
| Swarm.SwarmState.FinishTimedOut | swarm_state.py:175-177 | the timeout exit logs and clears the pending flag |
| Swarm.SwarmState.RequestPermission | swarm_state.py:139-177 | the polling loop ends in the state and with the result of `Permission` |
| Swarm.SwarmState.GetLogs | swarm_state.py:179-181 | returns `PyTail` of the log |
| Swarm.SwarmState.GetWarriorStatus | swarm_state.py:183-185 | returns `WarriorStatus` of the current state |
| Swarm.SwarmState.SetPatrolArea | swarm_state.py:187-197 | the new state is `PatrolSet` of the old one, and the record written is that of the new state |
| Swarm.SwarmState.GetPatrolArea | swarm_state.py:199-201 | returns the stored patrol triple |
| Swarm.SwarmState.GetEffectivePatrol | swarm_state.py:203-222 | returns `EffectivePatrol` of the current state |
| Datacenter.AnswersAreUngated | datacenter.py:163-183 | approve and deny fill the slot, clear pending and log one USER entry (CRITICAL / WARNING) whether or not a request waits; nothing else changes |
| Datacenter.AnswerDuringRequestDecides | datacenter.py:163-183 | an answer posted while a supervised request polls, before its deadline, is that request's result |
| Datacenter.EarlyAnswerDecidesNextRequest | datacenter.py:163-183 | an answer given while nothing is pending decides the next request without waiting |
| Datacenter.SpawnedThreat | datacenter.py:188-197 | the threat has the requested or default (10, 10) position, class (default "person"), confidence 1.0 and no area |
| Datacenter.EmptySpawnIsPersonAtTenTen | datacenter.py:185-198 | an empty request makes a person at (10, 10) the active threat at RED |
| Datacenter.PatrolDefaults | datacenter.py:208-211 | an empty request gives (0, 0) and radius 30; a full request is taken as given; each missing key falls back on its own default |
| Datacenter.SetPatrolIsAbsolute | datacenter.py:205-212 | after `set_patrol` the effective patrol is the requested triple wherever the Queen is |
| Datacenter.Logs | datacenter.py:129-132 | at most the newest 200 entries, oldest first |
| Datacenter.Status | datacenter.py:137-157 | the report shows the current level, pending flag, active threat, patrol, kamikaze flag and newest warrior report |
| Datacenter.StatusShowsSpawnedThreat | datacenter.py:185-198 | after a spawn the status shows the spawned threat active at RED |
| Datacenter.ApproveEndpoint | datacenter.py:163-172 | the new state is `Approve` of the old one |
| Datacenter.DenyEndpoint | datacenter.py:174-183 | the new state is `Deny` of the old one |
| Datacenter.SpawnThreatEndpoint | datacenter.py:185-203 | returns `SpawnedThreat`; the new state is `Spawn` of the old one |
| Datacenter.SetPatrolEndpoint | datacenter.py:205-217 | returns `PatrolOf`; the new state is `SetPatrol` of the old one |
| Datacenter.LogsEndpoint | datacenter.py:129-135 | returns `Logs` of the current state |
| Datacenter.StatusEndpoint | datacenter.py:137-161 | returns `Status` of the current state |
| QueenDrone.FilterBoundaries | queen.py:196-210 | for a threat class: a box at exactly 0.5 is dropped; a box above 0.5 exactly 8 s after the last threat passes; one 7.9 s after never does; class 1 (bicycle), outside the threat classes, never passes |
| QueenDrone.Scale | queen.py:233 | the scale is at least 10 and at least width / 50 |
| QueenDrone.WorldPosition | queen.py:225-238 | (world − warrior) × scale is the pixel offset from the frame centre; an unreadable pose counts as the origin |
| QueenDrone.MissingGeometryIsAtWarrior | queen.py:213-247 | a box without geometry is placed at the warrior, and its threat record carries the default area 1000 |
| QueenDrone.BboxArea | queen.py:213-223 | width × height, or 1000 without geometry |
| QueenDrone.ThreatOf | queen.py:240-247 | the threat record carries the class name, the box confidence, the world position, the area and the scan time |
| QueenDrone.FirstThreatFrom | queen.py:196-281 | the index returned is the first admitted box at or after the start; None means none there is admitted |
| QueenDrone.DetectFindsFirstAdmitted | queen.py:141-287 | for the corrected scan of the queen.py:263 finding: every scan is counted; a threat is returned exactly when some box is admitted, and it is the first admitted box; only then is the cooldown restarted (as written, `DetectAsWritten`) |
| QueenDrone.FoundThreatWasAccepted | queen.py:249-281 | a returned threat has a threat class and was predicted a threat by the learner or, without one, had confidence above 0.7 |
| QueenDrone.LearnerThreatsNeverReported | queen.py:249-265 | as written, a Queen with a learner never returns a threat, although it logs one and restarts the cooldown |
| QueenDrone.LearnerThreatReported | queen.py:249-265 | the corrected scan returns a person at 0.9 that the rules accept |
| QueenDrone.Cleared | queen.py:320-323 | threats emptied, no active threat, level YELLOW, nothing else changed |
| QueenDrone.JammerModeFollowsLearner | queen.py:300-324 | the result is the learner's autonomous decision; a strike is learned as confirmed, a hold clears the threat state and learns nothing |
| QueenDrone.JammerModeWithoutLearnerStrikes | queen.py:325-328 | every threat is struck and no threat state changes |
| QueenDrone.SupervisedModeFollowsOperator | queen.py:329-353 | the result is the permission result, learned as the label; only a refusal clears the threat state |
| QueenDrone.RefusalLeavesNoActiveThreat | queen.py:289-353 | a threat that is not struck leaves no active threat and level YELLOW |
| QueenDrone.SupervisedHandlingRaises | queen.py:329-343 | as written, a supervised decision with a learner raises after learning, and a refusal leaves the threat active |
| QueenDrone.StepDeploysOrClears | queen.py:477-499 | for the corrected scan and handling of the queen.py:263 and queen.py:339 findings: an active threat is handled before any scan; after handling, either the kamikaze is deployed at that threat's position or no threat is active |
| QueenDrone.HandleKeepsScanCount | queen.py:289-353 | handling never changes the scan counter |
| QueenDrone.Queen.constructor | queen.py:49-75 | zero scans, cooldown clock 0, detector not loaded, the given learner (null when it fails to initialise) |
| QueenDrone.Queen.DetectThreatsFromWarrior | queen.py:141-287 | the loop over boxes ends in the counters, log and result of the corrected `Detect` (the stats hook of queen.py:263 does nothing; as written, `DetectAsWritten`) |
| QueenDrone.Queen.HandleThreat | queen.py:289-353 | the shared state, the learner and the result are those of the corrected `Handle` (the stats hook of queen.py:308 and 339 does nothing; as written, `HandleAsWritten`) |
| QueenDrone.Queen.Strike | queen.py:482-486 | the shared state becomes `Deployed` of the corrected handling: on authorisation the kamikaze flag is set with the threat's position as target; the learner is that of `Handle` |
| QueenDrone.Queen.RunIteration | queen.py:454-499 | one pass ends in the state of `RunStep`, built on the corrected `Detect` and `Handle` |
| WarriorMulti.LowerChar | warrior_multi.py:171 | ASCII upper-case letters map to lower case, everything else is kept |
| WarriorMulti.Lower | warrior_multi.py:171 | lower-cases each character in place |
| WarriorMulti.Insert | warrior_multi.py:174 | inserting into a sorted list gives a sorted list with one more copy of the name |
| WarriorMulti.Sort | warrior_multi.py:174 | sorted in Python's string order, and the same names |
| WarriorMulti.Matching | warrior_multi.py:170-172 | a name is kept exactly when it is a vehicle name containing "warrior" in any letter case |
| WarriorMulti.WarriorListSpec | warrior_multi.py:163-181 | the list is never empty: the sorted warrior names when there are any, `["Warrior1"]` otherwise or on any read error |
| WarriorMulti.SelectWarriors | warrior_multi.py:163-181 | the append loop, sort and default give `WarriorList` |
| WarriorMulti.OffsetBound | warrior_multi.py:192-195 | every offset `i * (360 // n)` is in [0, 360) |
| WarriorMulti.OffsetsSpreadAround | warrior_multi.py:192-195 | offsets are in [0, 360) and, with at most 360 warriors, strictly increasing and so distinct |
| WarriorMulti.AssignOffsets | warrior_multi.py:191-205 | warrior i of n is launched with offset i × (360 // n) |
| WarriorMulti.Advance | warrior_multi.py:112-136 | a changed patrol restarts at the offset, the same patrol continues; the next angle is (angle + 60) % 360 |
| WarriorMulti.Present | warrior_multi.py:130-133 | the positions of the pose readings that succeeded, no more than the readings |
| WarriorMulti.PresentAppend | warrior_multi.py:130-133 | the reports keep the order of the readings: the reports of two runs of readings are the first run's followed by the second's |
| WarriorMulti.PresentOfAllRead | warrior_multi.py:130-133 | when every reading succeeds there is one report per reading, in the same order |
| WarriorMulti.ReportPoses | warrior_multi.py:130-133 | the report loop of one pass gives `ReportsOf` |
| WarriorMulti.WarriorRun | warrior_multi.py:70-147 | the loop gives `Run`: nothing without a connection and takeoff, otherwise the patrol from the offset |
| WarriorMulti.OneWaypointPerPass | warrior_multi.py:99-136 | one waypoint per pass before the kamikaze is deployed |
| WarriorMulti.AtMostTwoReportsPerWaypoint | warrior_multi.py:130-133 | with two pose readings per pass, at most two reports per waypoint |
| WarriorMulti.OnlyWarriorOneReports | warrior_multi.py:61-68 | only "Warrior1" ever reports |
| WarriorMulti.WarriorOneReportsEveryPose | warrior_multi.py:98-133 | "Warrior1" reports every successful reading of the passes before the kamikaze is deployed, in order |
| WarriorMulti.WarriorOneReportsTwicePerWaypoint | warrior_multi.py:130-133 | when every reading succeeds, "Warrior1" reports exactly twice per waypoint |
| WarriorMulti.WaypointRule | warrior_multi.py:112-136 | waypoint k uses pass k's patrol; a patrol change restarts at the offset; the same patrol steps by 60 mod 360 |
| WarriorMulti.AnglesStayInTurn | warrior_multi.py:136 | started in [0, 360) every angle stays in [0, 360) |
| WarriorMulti.TurnedIsModular | warrior_multi.py:136 | k steps from angle a reach (a + 60k) mod 360 |
| WarriorMulti.SixStepsReturn | warrior_multi.py:136 | six steps return to the start, and no fewer do |
| Warriors.Readable | warriors.py:85-98 | no more passes than there were |
| Warriors.SkippedPassChangesNothing | warriors.py:95-98 | a pass whose patrol cannot be read neither moves, reports, nor changes the angle |
| Warriors.SameAsMultiAtOffsetZero | warriors.py:80-121 | on the readable passes the loop is the multi-warrior loop at offset 0: the same waypoints for any name, the same trace as "Warrior1" |
| Warriors.EveryPoseReported | warriors.py:117-119 | every successful pose reading is reported, whatever the vehicle name |
| Warriors.AnglesAreSixDirections | warriors.py:121 | every angle is one of 0, 60, …, 300 |
| Warriors.AtMostThreeReportsPerWaypoint | warriors.py:117-119 | with three pose readings per pass, at most three reports per waypoint |
| Warriors.ThreeReportsPerWaypoint | warriors.py:117-119 | when every reading succeeds, exactly three reports per waypoint; skipped passes add neither |
| Warriors.ReportPoses | warriors.py:117-119 | the report loop of one pass gives the successful readings |
| Warriors.WarriorRun | warriors.py:64-121 | the loop gives `Run`: the patrol from angle 0, whether or not the startup succeeded |

## Left out

- Message text and time stamps of log entries: each message is a constructor with its data, without formatting or `HH:MM:SS`.
- The countdown entries of the permission loop (swarm_state.py:155-160) and the `time.sleep` pauses.
- The Queen's diagnostic entries: the periodic scan and status entries (every 30th scan, every 40th pass, every 20th "sees" entry), the "low threat" entry, the detector-load and camera entries, and the start, mission-complete and connection entries.
- The warriors' own log entries (patrol change, moving, move errors, patrol read errors, RTB) and their file loggers.
- Pickle and JSON file I/O: the model file and the persisted record are values that are returned or passed in. Missing keys in the model file are not modelled.
- AirSim (connection, takeoff, moves, hover, poses), YOLO inference and drawing, scikit-learn numerics, threads, locks and the web layer: they appear only as the inputs described above.
- QueenDrone.Detect: reads the clock once per scan; the original reads it per box for the cooldown and the threat time stamp.
- QueenDrone.RunStep: models one pass of the loop in `Queen.run`, not the loop, the startup, `last_queen_pos` or the final stats and `save_model` call.
- WarriorMulti.Patrolled: the waypoint is recorded as the patrol and angle; the cosine and sine of the position are not computed.
- WarriorMulti.Patrolled: the patrol read on each pass is an input, not tied to `get_effective_patrol` of the shared state. The reports are returned as a sequence, not applied to the shared state one at a time; `Swarm.Reported` is that step.
- WarriorMulti.LowerChar: ASCII lower-casing only; Python's `str.lower` also folds non-ASCII letters.
- AdaptiveLearner.ExtractFeatures: the Euclidean norm and the hour are readings of the environment; `np.sqrt` and `datetime` are not modelled.
- AdaptiveLearner.LearningStats: the model age is the clock difference over 3600 and is parsed from no ISO string.
- Request bodies that `float()` cannot parse (error 500) and a JSON body that is not an object.
- kamikaze.py, main.py and the Flask routes other than the six endpoints.
- AdaptiveLearner.AdaptiveThreatLearner.constructor, QueenDrone.Queen.DetectThreatsFromWarrior, QueenDrone.Queen.HandleThreat, QueenDrone.Queen.Strike, QueenDrone.Queen.RunIteration, QueenDrone.RunStep: these follow the corrected code of the three findings below, not the code as written. As written, a restart loses the trained flag and the history (`InitialAsWritten`), a Queen with a learner never returns a scanned threat (`DetectAsWritten`), and supervised handling with a learner raises out of `handle_threat` (`HandleAsWritten`), which ends the Queen's thread because neither the loop nor `run` catches it. The objects do not model the code as written.
- `Swarm.SwarmState.RequestPermission`, `QueenDrone.Queen.HandleThreat`, `QueenDrone.Queen.Strike` and `QueenDrone.Queen.RunIteration` require, in supervised mode, that the given polls reach the 15-second deadline, so that the sequence of polls is long enough for the loop to end.

## Findings

| source | as written | input that shows it | evidently intended | confidence | as-written member | corrected member |
|---|---|---|---|---|---|---|
| queen.py:263 | after a learner confirms a threat, the scan calls `swarm.update_learning_stats`, which the shared state does not define; the AttributeError is caught at line 283 and the scan returns None after restarting the cooldown | a Queen with a learner and one person box at 0.9 accepted by the rules | the threat is returned and handled; the stats hook is a no-op | not executed | QueenDrone.LearnerThreatsNeverReported | QueenDrone.LearnerThreatReported |
| queen.py:339 | in supervised mode with a learner, `handle_threat` calls the missing `update_learning_stats` after learning; the AttributeError escapes `handle_threat`, so an operator's refusal never clears the threat (the same call at line 308 raises before an autonomous strike is learned) | normal mode, a learner, and an operator who denies | the permission result is returned, a refusal clears the threat state | not executed | QueenDrone.SupervisedHandlingRaises | QueenDrone.SupervisedModeFollowsOperator |
| adaptive_learner.py:58 | `load_model` runs before `threat_patterns` is assigned (line 61), and line 383 reads `self.threat_patterns` as the default of `data.get`; the AttributeError is caught at line 396 after the classifier and buffer were taken over, so the trained flag and the history are lost on every restart | a saved model of a trained learner with a non-empty history | a restart restores the whole snapshot | not executed | AdaptiveLearner.RestartForgetsTraining | AdaptiveLearner.RestartKeepsTraining |
