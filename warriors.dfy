/** The single-warrior patrol loop: one warrior, whatever its vehicle name,
    circles the effective patrol at 60-degree steps starting from angle 0,
    restarting at 0 whenever the patrol changes, and reports its position
    three times per waypoint. A failed startup is logged and the loop runs
    anyway, and a pass whose patrol cannot be read is skipped.

    The passes of the loop are inputs as for the multi-warrior launcher, with
    the patrol reading possibly failed and three pose readings per pass
    instead of two. */
module Warriors {
  import opened Common
  import Swarm
  import WM = WarriorMulti

  const ReportsPerWaypoint: nat := 3

  /** One pass of the loop: the loop test, the patrol triple (None when
      reading it raises) and the poses read for the position reports. */
  datatype Tick = Tick(deployed: bool, patrol: Option<Swarm.Patrol>, poses: seq<Option<Pos3>>)

  /** The rest of the loop with loop variables `angle` and `last_patrol`;
      it stops at the first pass that finds the kamikaze deployed. */
  function Patrolled(angle: int, last: Option<Swarm.Patrol>, ticks: seq<Tick>): WM.Trace
    decreases |ticks|
  {
    if ticks == [] || ticks[0].deployed then WM.Trace([], [])
    else if ticks[0].patrol.None? then Patrolled(angle, last, ticks[1..])
    else
      var p := ticks[0].patrol.value;
      var a := if last != Some(p) then 0 else angle;
      var rest := Patrolled((a + 60) % 360, Some(p), ticks[1..]);
      WM.Trace([WM.Waypoint(p, a)] + rest.waypoints, WM.Present(ticks[0].poses) + rest.reports)
  }

  /** `Warrior.run`, with or without a successful startup. */
  function Run(ticks: seq<Tick>): WM.Trace
  {
    Patrolled(0, None, ticks)
  }

  predicate WellSized(ticks: seq<Tick>)
  {
    forall k :: 0 <= k < |ticks| ==> |ticks[k].poses| == ReportsPerWaypoint
  }

  /** The passes that get as far as the waypoint, as multi-warrior passes;
      the first deployed pass is kept so that the loop stops there too. */
  function Readable(ticks: seq<Tick>): (r: seq<WM.Tick>)
    ensures |r| <= |ticks|
    decreases |ticks|
  {
    if ticks == [] then []
    else if ticks[0].patrol.None? && !ticks[0].deployed then Readable(ticks[1..])
    else [WM.Tick(ticks[0].deployed, ticks[0].patrol.GetOr(Swarm.Patrol(0.0, 0.0, 0.0)), ticks[0].poses)]
         + Readable(ticks[1..])
  }

  /** A pass whose patrol cannot be read neither moves, nor reports, nor
      changes the angle or the last patrol seen. */
  lemma SkippedPassChangesNothing(angle: int, last: Option<Swarm.Patrol>, ticks: seq<Tick>)
    requires ticks != [] && !ticks[0].deployed && ticks[0].patrol.None?
    ensures Patrolled(angle, last, ticks) == Patrolled(angle, last, ticks[1..])
  {
  }

  /** Over the passes whose patrol could be read, the loop is the
      multi-warrior loop at offset 0: the waypoints are the same for any
      vehicle name, and the whole trace, reports included, is that of
      "Warrior1" (which is the only multi-warrior loop that reports). */
  lemma {:induction false} SameAsMultiAtOffsetZero(name: string, angle: int, last: Option<Swarm.Patrol>, ticks: seq<Tick>)
    ensures Patrolled(angle, last, ticks).waypoints
         == WM.Patrolled(name, 0, WM.Cycle(angle, last), Readable(ticks)).waypoints
    ensures Patrolled(angle, last, ticks)
         == WM.Patrolled(WM.DefaultWarrior, 0, WM.Cycle(angle, last), Readable(ticks))
    decreases |ticks|
  {
    if ticks != [] && !ticks[0].deployed {
      SameAsMultiAtOffsetZero(name, angle, last, ticks[1..]);
      if ticks[0].patrol.Some? {
        var (c1, w) := WM.Advance(0, WM.Cycle(angle, last), ticks[0].patrol.value);
        SameAsMultiAtOffsetZero(name, c1.angle, c1.last, ticks[1..]);
        assert Readable(ticks)[1..] == Readable(ticks[1..]);
      }
    }
  }

  /** The present poses of the readable passes among `0 .. k - 1`. */
  function PresentUpTo(ticks: seq<Tick>, k: nat): seq<Pos3>
    requires k <= |ticks|
  {
    if k == 0 then []
    else PresentUpTo(ticks, k - 1) + (if ticks[k - 1].patrol.Some? then WM.Present(ticks[k - 1].poses) else [])
  }

  lemma {:induction false} PresentUpToShift(ticks: seq<Tick>, k: nat)
    requires 1 <= k <= |ticks|
    ensures PresentUpTo(ticks, k)
         == (if ticks[0].patrol.Some? then WM.Present(ticks[0].poses) else []) + PresentUpTo(ticks[1..], k - 1)
    decreases k
  {
    if k > 1 {
      PresentUpToShift(ticks, k - 1);
      assert ticks[1..][k - 2] == ticks[k - 1];
    }
  }

  /** Unlike the multi-warrior loop, every present pose is reported whatever
      the vehicle name is: the reports are the present poses of the readable
      passes before deployment, in order. */
  lemma {:induction false} EveryPoseReported(angle: int, last: Option<Swarm.Patrol>, ticks: seq<Tick>, k: nat)
    requires k <= |ticks| && forall j :: 0 <= j < k ==> !ticks[j].deployed
    requires k == |ticks| || ticks[k].deployed
    ensures Patrolled(angle, last, ticks).reports == PresentUpTo(ticks, k)
    decreases k
  {
    if k > 0 {
      PresentUpToShift(ticks, k);
      if ticks[0].patrol.Some? {
        var p := ticks[0].patrol.value;
        var a := if last != Some(p) then 0 else angle;
        EveryPoseReported((a + 60) % 360, Some(p), ticks[1..], k - 1);
      } else {
        EveryPoseReported(angle, last, ticks[1..], k - 1);
      }
    }
  }

  /** From angle 0 the waypoint angles are the six multiples of 60 in
      [0, 360). */
  lemma {:induction false} AnglesAreSixDirections(angle: int, last: Option<Swarm.Patrol>, ticks: seq<Tick>)
    requires 0 <= angle < 360 && angle % 60 == 0
    ensures forall w :: w in Patrolled(angle, last, ticks).waypoints ==> 0 <= w.angle < 360 && w.angle % 60 == 0
    decreases |ticks|
  {
    if ticks != [] && !ticks[0].deployed {
      if ticks[0].patrol.Some? {
        var p := ticks[0].patrol.value;
        var a := if last != Some(p) then 0 else angle;
        SixDirectionsStep(a);
        AnglesAreSixDirections((a + 60) % 360, Some(p), ticks[1..]);
      } else {
        AnglesAreSixDirections(angle, last, ticks[1..]);
      }
    }
  }

  lemma SixDirectionsStep(a: int)
    requires 0 <= a < 360 && a % 60 == 0
    ensures 0 <= (a + 60) % 360 < 360 && (a + 60) % 360 % 60 == 0
  {
    var k := a / 60;
    assert a == 60 * k;
    assert 0 <= k < 6;
    if k == 5 {
      assert (a + 60) % 360 == 0;
    } else {
      assert (a + 60) % 360 == 60 * (k + 1);
    }
  }

  /** With three pose readings per pass, at most three reports per waypoint. */
  lemma {:induction false} AtMostThreeReportsPerWaypoint(angle: int, last: Option<Swarm.Patrol>, ticks: seq<Tick>)
    requires WellSized(ticks)
    ensures var t := Patrolled(angle, last, ticks);
      |t.reports| <= ReportsPerWaypoint * |t.waypoints|
    decreases |ticks|
  {
    if ticks != [] && !ticks[0].deployed {
      assert WellSized(ticks[1..]) by {
        forall k | 0 <= k < |ticks[1..]| ensures |ticks[1..][k].poses| == ReportsPerWaypoint {
          assert ticks[1..][k] == ticks[k + 1];
        }
      }
      if ticks[0].patrol.Some? {
        var p := ticks[0].patrol.value;
        var a := if last != Some(p) then 0 else angle;
        AtMostThreeReportsPerWaypoint((a + 60) % 360, Some(p), ticks[1..]);
        assert |ticks[0].poses| == ReportsPerWaypoint;
      } else {
        AtMostThreeReportsPerWaypoint(angle, last, ticks[1..]);
      }
    }
  }

  /** Every pose reading of the pass succeeded. */
  predicate AllRead(ticks: seq<Tick>)
  {
    forall k, j :: 0 <= k < |ticks| && 0 <= j < |ticks[k].poses| ==> ticks[k].poses[j].Some?
  }

  /** When every pose reading succeeds, the warrior reports exactly three
      times per waypoint; passes skipped for an unreadable patrol add
      neither. */
  lemma {:induction false} ThreeReportsPerWaypoint(angle: int, last: Option<Swarm.Patrol>, ticks: seq<Tick>)
    requires WellSized(ticks) && AllRead(ticks)
    ensures var t := Patrolled(angle, last, ticks);
      |t.reports| == ReportsPerWaypoint * |t.waypoints|
    decreases |ticks|
  {
    if ticks != [] && !ticks[0].deployed {
      assert WellSized(ticks[1..]) && AllRead(ticks[1..]) by {
        forall k | 0 <= k < |ticks[1..]| ensures ticks[1..][k] == ticks[k + 1] { }
      }
      if ticks[0].patrol.Some? {
        var p := ticks[0].patrol.value;
        var a := if last != Some(p) then 0 else angle;
        ThreeReportsPerWaypoint((a + 60) % 360, Some(p), ticks[1..]);
        assert forall j :: 0 <= j < |ticks[0].poses| ==> ticks[0].poses[j].Some?;
        WM.PresentOfAllRead(ticks[0].poses);
      } else {
        ThreeReportsPerWaypoint(angle, last, ticks[1..]);
      }
    }
  }

  /** The three position reports of one pass. */
  method ReportPoses(poses: seq<Option<Pos3>>) returns (r: seq<Pos3>)
    ensures r == WM.Present(poses)
  {
    r := [];
    for j := 0 to |poses|
      invariant r == WM.Present(poses[..j])
    {
      assert poses[..j + 1][..j] == poses[..j];
      if poses[j].Some? {
        r := r + [poses[j].value];
      }
    }
    assert poses[..|poses|] == poses;
  }

  /** `Warrior.run`. */
  method WarriorRun(ticks: seq<Tick>) returns (t: WM.Trace)
    ensures t == Run(ticks)
  {
    var angle := 0;
    var last: Option<Swarm.Patrol> := None;
    var waypoints: seq<WM.Waypoint> := [];
    var reports: seq<Pos3> := [];
    var i := 0;
    ghost var goal := Run(ticks);
    while i < |ticks| && !ticks[i].deployed
      invariant 0 <= i <= |ticks|
      invariant var rest := Patrolled(angle, last, ticks[i..]);
        WM.Trace(waypoints + rest.waypoints, reports + rest.reports) == goal
      decreases |ticks| - i
    {
      assert ticks[i..][1..] == ticks[i + 1..];
      if ticks[i].patrol.None? {
        i := i + 1;
        continue;
      }
      ghost var a0, l0 := angle, last;
      var p := ticks[i].patrol.value;
      if last != Some(p) {
        last := Some(p);
        angle := 0;
      }
      var w := WM.Waypoint(p, angle);
      var rs := ReportPoses(ticks[i].poses);
      angle := (angle + 60) % 360;
      ghost var rest := Patrolled(angle, last, ticks[i + 1..]);
      assert Patrolled(a0, l0, ticks[i..]) == WM.Trace([w] + rest.waypoints, rs + rest.reports);
      assert waypoints + ([w] + rest.waypoints) == (waypoints + [w]) + rest.waypoints;
      assert reports + (rs + rest.reports) == (reports + rs) + rest.reports;
      waypoints := waypoints + [w];
      reports := reports + rs;
      i := i + 1;
    }
    t := WM.Trace(waypoints, reports);
  }
}
