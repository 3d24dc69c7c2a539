/** The multi-warrior launcher and patrol loop: the warrior names read from
    the simulator settings, the angle offset given to each warrior, and each
    warrior's waypoint cycle around the effective patrol circle, which steps
    by 60 degrees and restarts at the warrior's offset whenever the patrol
    changes.

    Each pass of a warrior's loop is an input: whether the kamikaze has been
    deployed at the loop test, the patrol triple read on that pass, and the
    poses read for the position reports. Waypoints are kept as the patrol and
    the angle they are computed from; the trigonometry is not modelled. */
module WarriorMulti {
  import opened Common
  import Swarm

  const DefaultWarrior := "Warrior1"
  const Marker := "warrior"
  const FullTurn: int := 360
  const AngleStep: int := 60
  const ReportsPerWaypoint: nat := 2

  // ---------------------------------------------------------------------
  // Strings

  /** ASCII lower-casing of one character. */
  function LowerChar(c: char): (r: char)
    ensures 'A' <= c <= 'Z' ==> r as int == c as int + 32
    ensures !('A' <= c <= 'Z') ==> r == c
  {
    if 'A' <= c <= 'Z' then (c as int + 32) as char else c
  }

  function Lower(s: string): (r: string)
    ensures |r| == |s| && forall i :: 0 <= i < |s| ==> r[i] == LowerChar(s[i])
  {
    seq(|s|, i requires 0 <= i < |s| => LowerChar(s[i]))
  }

  predicate OccursAt(s: string, sub: string, i: int)
  {
    0 <= i && i + |sub| <= |s| && s[i..i + |sub|] == sub
  }

  /** `sub in s`. */
  predicate Contains(s: string, sub: string)
  {
    exists i :: 0 <= i <= |s| - |sub| && OccursAt(s, sub, i)
  }

  /** Whether a vehicle of the settings is a warrior. */
  predicate IsWarriorName(name: string)
  {
    Contains(Lower(name), Marker)
  }

  /** Python's string order: by code point, a proper prefix first. */
  predicate LexLe(a: string, b: string)
    decreases |a|
  {
    |a| == 0 || (|b| > 0 && (a[0] < b[0] || (a[0] == b[0] && LexLe(a[1..], b[1..]))))
  }

  lemma {:induction false} LexTotal(a: string, b: string)
    ensures LexLe(a, b) || LexLe(b, a)
    decreases |a|
  {
    if |a| > 0 && |b| > 0 && a[0] == b[0] {
      LexTotal(a[1..], b[1..]);
    }
  }

  predicate Sorted(s: seq<string>)
  {
    forall i :: 0 < i < |s| ==> LexLe(s[i - 1], s[i])
  }

  function Insert(x: string, s: seq<string>): (r: seq<string>)
    requires Sorted(s)
    ensures Sorted(r) && multiset(r) == multiset(s) + multiset{x}
    ensures |s| > 0 ==> r[0] == x || r[0] == s[0]
    ensures |s| == 0 ==> r == [x]
    decreases |s|
  {
    if s == [] then [x]
    else if LexLe(x, s[0]) then [x] + s
    else
      LexTotal(x, s[0]);
      assert Sorted(s[1..]) by {
        forall i | 0 < i < |s[1..]| ensures LexLe(s[1..][i - 1], s[1..][i]) {
          assert s[1..][i - 1] == s[i] && s[1..][i] == s[i + 1];
        }
      }
      var r := [s[0]] + Insert(x, s[1..]);
      assert s == [s[0]] + s[1..];
      r
  }

  /** `list.sort()`: sorted, and the same names. */
  function Sort(s: seq<string>): (r: seq<string>)
    ensures Sorted(r) && multiset(r) == multiset(s)
    decreases |s|
  {
    if s == [] then []
    else
      assert s == [s[0]] + s[1..];
      Insert(s[0], Sort(s[1..]))
  }

  // ---------------------------------------------------------------------
  // Selecting the warriors

  /** What reading `settings.json` gives: no file, an exception, or the keys
      of its `Vehicles` object (empty when the object is missing). */
  datatype Settings = NoSettingsFile | Unreadable | Vehicles(names: seq<string>)

  /** The warrior names in settings order. */
  function Matching(names: seq<string>): (r: seq<string>)
    ensures forall x :: x in r <==> x in names && IsWarriorName(x)
    ensures |r| <= |names|
  {
    if names == [] then []
    else
      var last := names[|names| - 1];
      assert names == names[..|names| - 1] + [last];
      Matching(names[..|names| - 1]) + (if IsWarriorName(last) then [last] else [])
  }

  /** The launch list of `run`. */
  function WarriorList(settings: Settings): seq<string>
  {
    if settings.Vehicles? && Matching(settings.names) != [] then Sort(Matching(settings.names))
    else [DefaultWarrior]
  }

  /** The launch list is never empty: it is the sorted warrior names of the
      settings, exactly those containing "warrior" in any letter case, when
      there are any, and `["Warrior1"]` otherwise. */
  lemma WarriorListSpec(settings: Settings)
    ensures var l := WarriorList(settings);
      && |l| >= 1
      && (settings.Vehicles? && (exists x :: x in settings.names && IsWarriorName(x)) ==>
            && Sorted(l)
            && multiset(l) == multiset(Matching(settings.names))
            && (forall x :: x in l <==> x in settings.names && IsWarriorName(x)))
      && (!(settings.Vehicles? && (exists x :: x in settings.names && IsWarriorName(x))) ==> l == [DefaultWarrior])
  {
    if settings.Vehicles? && Matching(settings.names) != [] {
      var l := WarriorList(settings);
      forall x ensures x in l <==> x in Matching(settings.names) {
        assert x in l <==> x in multiset(l);
        assert x in Matching(settings.names) <==> x in multiset(Matching(settings.names));
      }
      assert Matching(settings.names)[0] in Matching(settings.names);
    } else if settings.Vehicles? {
      assert forall x :: x in settings.names && IsWarriorName(x) ==> x in Matching(settings.names);
    }
  }

  /** The selection step of `run`. */
  method SelectWarriors(settings: Settings) returns (names: seq<string>)
    ensures names == WarriorList(settings)
  {
    names := [];
    if settings.Vehicles? {
      var keys := settings.names;
      for i := 0 to |keys|
        invariant names == Matching(keys[..i])
      {
        assert keys[..i + 1][..i] == keys[..i];
        if IsWarriorName(keys[i]) {
          names := names + [keys[i]];
        }
      }
      assert keys[..|keys|] == keys;
      names := Sort(names);
    }
    if names == [] {
      names := [DefaultWarrior];
    }
  }

  // ---------------------------------------------------------------------
  // Angle offsets

  datatype Launch = Launch(name: string, offset: int)

  /** `idx * (360 // n)`. */
  function Offset(i: int, n: int): int
    requires n >= 1
  {
    i * (FullTurn / n)
  }

  /** Every offset is in [0, 360), and with at most 360 warriors they are
      strictly increasing, hence pairwise distinct. */
  lemma OffsetsSpreadAround(n: int, i: int, j: int)
    requires 1 <= n && 0 <= i < j < n
    ensures 0 <= Offset(i, n) < FullTurn && 0 <= Offset(j, n) < FullTurn
    ensures n <= FullTurn ==> Offset(i, n) < Offset(j, n)
  {
    OffsetBound(n, i);
    OffsetBound(n, j);
    if n <= FullTurn {
      var q := 360 / n;
      assert q >= 1;
      MulStrict(i, j, q);
    }
  }

  lemma MulMono(a: int, b: int, q: int)
    requires 0 <= a <= b && q >= 0
    ensures a * q <= b * q
  {
    assert b * q == a * q + (b - a) * q;
  }

  lemma MulStrict(a: int, b: int, q: int)
    requires 0 <= a < b && q >= 1
    ensures a * q < b * q
  {
    assert b * q == a * q + (b - a) * q;
    MulMono(1, b - a, q);
  }

  lemma OffsetBound(n: int, i: int)
    requires 1 <= n && 0 <= i < n
    ensures 0 <= Offset(i, n) < FullTurn
  {
    var q := 360 / n;
    assert 360 == n * q + 360 % n;
    MulMono(0, i, q);
    if q > 0 {
      MulMono(i, n - 1, q);
      assert (n - 1) * q == n * q - q;
    } else {
      assert i * q == 0;
    }
  }

  /** The launch step of `run`: warrior `i` of `n` gets offset `i * (360 // n)`. */
  method AssignOffsets(names: seq<string>) returns (launches: seq<Launch>)
    requires |names| >= 1
    ensures |launches| == |names|
    ensures forall i :: 0 <= i < |names| ==> launches[i] == Launch(names[i], Offset(i, |names|))
  {
    var step := FullTurn / |names|;
    launches := [];
    for idx := 0 to |names|
      invariant |launches| == idx
      invariant forall i :: 0 <= i < idx ==> launches[i] == Launch(names[i], Offset(i, |names|))
    {
      launches := launches + [Launch(names[idx], idx * step)];
    }
  }

  // ---------------------------------------------------------------------
  // The patrol cycle

  /** One pass of a warrior's loop. */
  datatype Tick = Tick(deployed: bool, patrol: Swarm.Patrol, poses: seq<Option<Pos3>>)

  /** The centre, radius and angle a waypoint is computed from. */
  datatype Waypoint = Waypoint(patrol: Swarm.Patrol, angle: int)

  /** The loop variables `angle` and `last_patrol`. */
  datatype Cycle = Cycle(angle: int, last: Option<Swarm.Patrol>)

  function Start(offset: int): Cycle
  {
    Cycle(offset, None)
  }

  /** One waypoint: restart at the offset on a patrol change, then step by 60
      degrees modulo 360. */
  function Advance(offset: int, c: Cycle, p: Swarm.Patrol): (r: (Cycle, Waypoint))
    ensures r.0.last == Some(p) && r.1.patrol == p
    ensures r.0.angle == (r.1.angle + AngleStep) % FullTurn
    ensures c.last != Some(p) ==> r.1.angle == offset
    ensures c.last == Some(p) ==> r.1.angle == c.angle
  {
    var angle := if c.last != Some(p) then offset else c.angle;
    (Cycle((angle + AngleStep) % FullTurn, Some(p)), Waypoint(p, angle))
  }

  /** The positions read from the present poses. */
  function Present(ps: seq<Option<Pos3>>): (r: seq<Pos3>)
    ensures |r| <= |ps|
    ensures forall x :: x in r <==> Some(x) in ps
  {
    if ps == [] then []
    else Present(ps[..|ps| - 1]) + (if ps[|ps| - 1].Some? then [ps[|ps| - 1].value] else [])
  }

  /** What a warrior's loop does: the waypoints it flies to and the positions
      it reports to the shared state. */
  datatype Trace = Trace(waypoints: seq<Waypoint>, reports: seq<Pos3>)

  /** Only "Warrior1" reports its position. */
  function ReportsOf(name: string, poses: seq<Option<Pos3>>): seq<Pos3>
  {
    if name == DefaultWarrior then Present(poses) else []
  }

  /** The rest of the loop from cycle state `c`; it stops at the first pass
      that finds the kamikaze deployed. */
  function Patrolled(name: string, offset: int, c: Cycle, ticks: seq<Tick>): Trace
    decreases |ticks|
  {
    if ticks == [] || ticks[0].deployed then Trace([], [])
    else
      var (c1, w) := Advance(offset, c, ticks[0].patrol);
      var rest := Patrolled(name, offset, c1, ticks[1..]);
      Trace([w] + rest.waypoints, ReportsOf(name, ticks[0].poses) + rest.reports)
  }

  predicate WellSized(ticks: seq<Tick>)
  {
    forall k :: 0 <= k < |ticks| ==> |ticks[k].poses| == ReportsPerWaypoint
  }

  /** The whole of `Warrior.run`: a warrior that cannot connect or take off
      returns at once; otherwise it patrols from its offset. */
  function Run(name: string, offset: int, airborne: bool, ticks: seq<Tick>): Trace
  {
    if airborne then Patrolled(name, offset, Start(offset), ticks) else Trace([], [])
  }

  /** The two position reports of one pass. */
  method ReportPoses(name: string, poses: seq<Option<Pos3>>) returns (r: seq<Pos3>)
    ensures r == ReportsOf(name, poses)
  {
    r := [];
    for j := 0 to |poses|
      invariant r == ReportsOf(name, poses[..j])
    {
      assert poses[..j + 1][..j] == poses[..j];
      if poses[j].Some? && name == DefaultWarrior {
        r := r + [poses[j].value];
      }
    }
    assert poses[..|poses|] == poses;
  }

  /** One pass of the loop, unfolded. */
  /** One pass of the loop keeps its invariant: the trace so far followed by
      the rest of the loop does not change. */
  lemma LoopStep(name: string, offset: int, c: Cycle, ticks: seq<Tick>, i: int,
                 waypoints: seq<Waypoint>, reports: seq<Pos3>)
    requires 0 <= i < |ticks| && !ticks[i].deployed
    ensures var (c1, w) := Advance(offset, c, ticks[i].patrol);
      var rest := Patrolled(name, offset, c1, ticks[i + 1..]);
      var now := Patrolled(name, offset, c, ticks[i..]);
      Trace(waypoints + now.waypoints, reports + now.reports)
        == Trace((waypoints + [w]) + rest.waypoints, (reports + ReportsOf(name, ticks[i].poses)) + rest.reports)
  {
    PatrolledStep(name, offset, c, ticks[i..]);
    assert ticks[i..][1..] == ticks[i + 1..];
    var (c1, w) := Advance(offset, c, ticks[i].patrol);
    var rest := Patrolled(name, offset, c1, ticks[i + 1..]);
    assert waypoints + ([w] + rest.waypoints) == (waypoints + [w]) + rest.waypoints;
    assert reports + (ReportsOf(name, ticks[i].poses) + rest.reports)
        == (reports + ReportsOf(name, ticks[i].poses)) + rest.reports;
  }

  lemma PatrolledStep(name: string, offset: int, c: Cycle, ticks: seq<Tick>)
    requires ticks != [] && !ticks[0].deployed
    ensures var (c1, w) := Advance(offset, c, ticks[0].patrol);
      var rest := Patrolled(name, offset, c1, ticks[1..]);
      Patrolled(name, offset, c, ticks) == Trace([w] + rest.waypoints, ReportsOf(name, ticks[0].poses) + rest.reports)
  {
  }

  /** `Warrior.run` after startup. */
  method WarriorRun(name: string, offset: int, airborne: bool, ticks: seq<Tick>) returns (t: Trace)
    ensures t == Run(name, offset, airborne, ticks)
  {
    if !airborne {
      return Trace([], []);
    }
    var angle := offset;
    var last: Option<Swarm.Patrol> := None;
    var waypoints: seq<Waypoint> := [];
    var reports: seq<Pos3> := [];
    var i := 0;
    ghost var goal := Patrolled(name, offset, Start(offset), ticks);
    while i < |ticks| && !ticks[i].deployed
      invariant 0 <= i <= |ticks|
      invariant var rest := Patrolled(name, offset, Cycle(angle, last), ticks[i..]);
        Trace(waypoints + rest.waypoints, reports + rest.reports) == goal
      decreases |ticks| - i
    {
      ghost var c := Cycle(angle, last);
      LoopStep(name, offset, c, ticks, i, waypoints, reports);
      var p := ticks[i].patrol;
      if last != Some(p) {
        last := Some(p);
        angle := offset;
      }
      var w := Waypoint(p, angle);
      var rs := ReportPoses(name, ticks[i].poses);
      angle := (angle + AngleStep) % FullTurn;
      assert (Cycle(angle, last), w) == Advance(offset, c, p);
      waypoints := waypoints + [w];
      reports := reports + rs;
      i := i + 1;
    }
    t := Trace(waypoints, reports);
  }

  /** The number of waypoints is the number of passes before deployment. */
  lemma {:induction false} OneWaypointPerPass(name: string, offset: int, c: Cycle, ticks: seq<Tick>, k: nat)
    requires k <= |ticks| && forall j :: 0 <= j < k ==> !ticks[j].deployed
    requires k == |ticks| || ticks[k].deployed
    ensures |Patrolled(name, offset, c, ticks).waypoints| == k
    decreases k
  {
    if k > 0 {
      var (c1, w) := Advance(offset, c, ticks[0].patrol);
      OneWaypointPerPass(name, offset, c1, ticks[1..], k - 1);
    }
  }

  /** With two pose readings per pass, at most two reports per waypoint. */
  lemma {:induction false} AtMostTwoReportsPerWaypoint(name: string, offset: int, c: Cycle, ticks: seq<Tick>)
    requires WellSized(ticks)
    ensures var t := Patrolled(name, offset, c, ticks);
      |t.reports| <= ReportsPerWaypoint * |t.waypoints|
    decreases |ticks|
  {
    if ticks != [] && !ticks[0].deployed {
      var (c1, w) := Advance(offset, c, ticks[0].patrol);
      assert WellSized(ticks[1..]) by {
        forall k | 0 <= k < |ticks[1..]| ensures |ticks[1..][k].poses| == ReportsPerWaypoint {
          assert ticks[1..][k] == ticks[k + 1];
        }
      }
      AtMostTwoReportsPerWaypoint(name, offset, c1, ticks[1..]);
      assert |ticks[0].poses| == ReportsPerWaypoint;
    }
  }

  /** The reports keep the order of the readings: the successful readings of
      two runs of readings, one after the other. */
  lemma {:induction false} PresentAppend(a: seq<Option<Pos3>>, b: seq<Option<Pos3>>)
    ensures Present(a + b) == Present(a) + Present(b)
    decreases |b|
  {
    if b == [] {
      assert a + b == a;
    } else {
      var b0 := b[..|b| - 1];
      PresentAppend(a, b0);
      assert (a + b)[..|a + b| - 1] == a + b0;
      assert (a + b)[|a + b| - 1] == b[|b| - 1];
    }
  }

  /** When every reading succeeds, the reports are all of them, in order. */
  lemma {:induction false} PresentOfAllRead(ps: seq<Option<Pos3>>)
    requires forall k :: 0 <= k < |ps| ==> ps[k].Some?
    ensures |Present(ps)| == |ps|
    ensures forall k :: 0 <= k < |ps| ==> Present(ps)[k] == ps[k].value
    decreases |ps|
  {
    if ps != [] {
      var init := ps[..|ps| - 1];
      assert forall k :: 0 <= k < |init| ==> init[k] == ps[k];
      PresentOfAllRead(init);
      var r := Present(ps);
      assert r == Present(init) + [ps[|ps| - 1].value];
      forall k | 0 <= k < |ps| ensures r[k] == ps[k].value {
        if k < |init| {
          assert r[k] == Present(init)[k];
        }
      }
    }
  }

  /** Every pose reading of the pass succeeded. */
  predicate AllRead(ticks: seq<Tick>)
  {
    forall k, j :: 0 <= k < |ticks| && 0 <= j < |ticks[k].poses| ==> ticks[k].poses[j].Some?
  }

  /** When every reading succeeds, "Warrior1" reports exactly twice per
      waypoint. */
  lemma {:induction false} WarriorOneReportsTwicePerWaypoint(offset: int, c: Cycle, ticks: seq<Tick>)
    requires WellSized(ticks) && AllRead(ticks)
    ensures var t := Patrolled(DefaultWarrior, offset, c, ticks);
      |t.reports| == ReportsPerWaypoint * |t.waypoints|
    decreases |ticks|
  {
    if ticks != [] && !ticks[0].deployed {
      var (c1, w) := Advance(offset, c, ticks[0].patrol);
      assert WellSized(ticks[1..]) && AllRead(ticks[1..]) by {
        forall k | 0 <= k < |ticks[1..]| ensures ticks[1..][k] == ticks[k + 1] { }
      }
      WarriorOneReportsTwicePerWaypoint(offset, c1, ticks[1..]);
      assert forall j :: 0 <= j < |ticks[0].poses| ==> ticks[0].poses[j].Some?;
      PresentOfAllRead(ticks[0].poses);
    }
  }

  /** The successful readings of passes `0 .. k - 1`, in order. */
  function PresentUpTo(ticks: seq<Tick>, k: nat): seq<Pos3>
    requires k <= |ticks|
  {
    if k == 0 then [] else PresentUpTo(ticks, k - 1) + Present(ticks[k - 1].poses)
  }

  lemma {:induction false} PresentUpToShift(ticks: seq<Tick>, k: nat)
    requires 1 <= k <= |ticks|
    ensures PresentUpTo(ticks, k) == Present(ticks[0].poses) + PresentUpTo(ticks[1..], k - 1)
    decreases k
  {
    if k > 1 {
      PresentUpToShift(ticks, k - 1);
      assert ticks[1..][k - 2] == ticks[k - 1];
    }
  }

  /** "Warrior1" reports every successful reading of the passes before the
      kamikaze is deployed, in order. */
  lemma {:induction false} WarriorOneReportsEveryPose(offset: int, c: Cycle, ticks: seq<Tick>, k: nat)
    requires k <= |ticks| && forall j :: 0 <= j < k ==> !ticks[j].deployed
    requires k == |ticks| || ticks[k].deployed
    ensures Patrolled(DefaultWarrior, offset, c, ticks).reports == PresentUpTo(ticks, k)
    decreases k
  {
    if k > 0 {
      PresentUpToShift(ticks, k);
      var (c1, w) := Advance(offset, c, ticks[0].patrol);
      WarriorOneReportsEveryPose(offset, c1, ticks[1..], k - 1);
    }
  }

  /** Only "Warrior1" ever reports. */
  lemma {:induction false} OnlyWarriorOneReports(name: string, offset: int, c: Cycle, ticks: seq<Tick>)
    requires name != DefaultWarrior
    ensures Patrolled(name, offset, c, ticks).reports == []
    decreases |ticks|
  {
    if ticks != [] && !ticks[0].deployed {
      var (c1, w) := Advance(offset, c, ticks[0].patrol);
      OnlyWarriorOneReports(name, offset, c1, ticks[1..]);
    }
  }

  /** Waypoint `k` relates to pass `k` and to the patrol of pass `k - 1`: a
      new patrol restarts at the offset, the same patrol steps by 60 degrees. */
  lemma {:induction false} WaypointRule(name: string, offset: int, c: Cycle, ticks: seq<Tick>, k: nat)
    requires k < |Patrolled(name, offset, c, ticks).waypoints|
    ensures var ws := Patrolled(name, offset, c, ticks).waypoints;
      && k < |ticks| && ws[k].patrol == ticks[k].patrol
      && (k == 0 && c.last != Some(ticks[0].patrol) ==> ws[0].angle == offset)
      && (k == 0 && c.last == Some(ticks[0].patrol) ==> ws[0].angle == c.angle)
      && (k > 0 && ticks[k].patrol != ticks[k - 1].patrol ==> ws[k].angle == offset)
      && (k > 0 && ticks[k].patrol == ticks[k - 1].patrol ==> ws[k].angle == (ws[k - 1].angle + AngleStep) % FullTurn)
    decreases k
  {
    var (c1, w) := Advance(offset, c, ticks[0].patrol);
    if k > 0 {
      WaypointRule(name, offset, c1, ticks[1..], k - 1);
      assert ticks[1..][k - 1] == ticks[k];
      if k > 1 {
        assert ticks[1..][k - 2] == ticks[k - 1];
      }
    }
  }

  /** Started at an offset in [0, 360), every waypoint angle is in [0, 360). */
  lemma {:induction false} AnglesStayInTurn(name: string, offset: int, c: Cycle, ticks: seq<Tick>)
    requires 0 <= offset < FullTurn && 0 <= c.angle < FullTurn
    ensures forall w :: w in Patrolled(name, offset, c, ticks).waypoints ==> 0 <= w.angle < FullTurn
    decreases |ticks|
  {
    if ticks != [] && !ticks[0].deployed {
      var (c1, w) := Advance(offset, c, ticks[0].patrol);
      AnglesStayInTurn(name, offset, c1, ticks[1..]);
    }
  }

  /** Six steps of 60 degrees come back to the start. */
  function Turned(a: int, steps: nat): int
  {
    if steps == 0 then a else (Turned(a, steps - 1) + AngleStep) % FullTurn
  }

  lemma ModShift(m: int, d: int)
    ensures (m % 360 + d) % 360 == (m + d) % 360
  {
    var k := m / 360;
    assert m == 360 * k + m % 360;
    assert m + d == (m % 360 + d) + 360 * k;
  }

  lemma {:induction false} TurnedIsModular(a: int, steps: nat)
    requires 0 <= a < FullTurn
    ensures Turned(a, steps) == (a + 60 * steps) % 360
  {
    if steps > 0 {
      TurnedIsModular(a, steps - 1);
      ModShift(a + 60 * (steps - 1), 60);
    } else {
      assert a % 360 == a;
    }
  }

  lemma SixStepsReturn(a: int)
    requires 0 <= a < FullTurn
    ensures Turned(a, 6) == a
    ensures forall j :: 0 < j < 6 ==> Turned(a, j) != a
  {
    TurnedIsModular(a, 6);
    forall j | 0 < j < 6 ensures Turned(a, j) != a {
      TurnedIsModular(a, j);
    }
  }
}
