/** One control cycle of the scanning radar: take a distance reading, drive the
    detection latch and its alert outputs, and advance the sweep unless latched. */
module Radar {
  import opened Ranging
  import opened Sweep

  /** An object at or nearer than this distance, in cm, is reported. */
  const DETECTION_LIMIT_CM: real := 50.0

  /** What a cycle does to the LED and the buzzer: drive both high, drive both
      low, or leave them alone. */
  datatype Actuation = NoEdge | AlertOn | AlertOff

  /** The four globals of the controller: `currentAngle` and `movingForward`
      (the sweep), `isDetecting` (the latch) and `lastDistance`. */
  datatype RadarState = RadarState(sweep: SweepState, detecting: bool, lastDistance: real)

  /** The values the globals are initialised to. */
  const INITIAL: RadarState := RadarState(START, false, 0.0)

  /** The state after a cycle together with what the cycle did to the outputs. */
  datatype Outcome = Outcome(state: RadarState, act: Actuation)

  /** What holds of the globals before and after every cycle: the sweep is in a
      reachable state, the last distance is in range (or the initial 0), and the
      latch is set exactly when that distance is a detection. */
  predicate Inv(s: RadarState)
  {
    && SweepInv(s.sweep)
    && 0.0 <= s.lastDistance <= MAX_RANGE_CM
    && (s.detecting <==> 0.0 < s.lastDistance <= DETECTION_LIMIT_CM)
  }

  /** One cycle on the state s with raw distance reading raw. */
  function Step(s: RadarState, raw: real): (o: Outcome)
    // the reading published is the clamped one
    ensures o.state.lastDistance == ClampDistance(raw)
    // the latch after the cycle is decided by this cycle's reading alone
    ensures o.state.detecting == (ClampDistance(raw) <= DETECTION_LIMIT_CM)
    // the outputs are driven only on the two edges of the latch
    ensures o.act == AlertOn <==> !s.detecting && o.state.detecting
    ensures o.act == AlertOff <==> s.detecting && !o.state.detecting
    // the sweep holds while latched, and otherwise (clearing cycles included) takes one step
    ensures o.state.detecting ==> o.state.sweep == s.sweep
    ensures !o.state.detecting ==> o.state.sweep == Next(s.sweep)
    ensures Inv(s) ==> Inv(o.state)
  {
    var d := ClampDistance(raw);
    if d <= DETECTION_LIMIT_CM then
      Outcome(RadarState(s.sweep, true, d), if s.detecting then NoEdge else AlertOn)
    else
      Outcome(RadarState(Next(s.sweep), false, d), if s.detecting then AlertOff else NoEdge)
  }

  /** A clearing cycle both releases the latch and advances the sweep. */
  lemma ClearingCycleAdvances(s: RadarState, raw: real)
    requires s.detecting && ClampDistance(raw) > DETECTION_LIMIT_CM
    ensures Step(s, raw).act == AlertOff
    ensures !Step(s, raw).state.detecting
    ensures Step(s, raw).state.sweep == Next(s.sweep)
  {
  }

  /** The outcomes of the cycles fed the readings rs in turn, starting from s. */
  function Run(s: RadarState, rs: seq<real>): (outs: seq<Outcome>)
    ensures |outs| == |rs|
    ensures forall i :: 0 <= i < |rs| ==>
              outs[i].state.detecting == (ClampDistance(rs[i]) <= DETECTION_LIMIT_CM)
    ensures Inv(s) ==> forall i :: 0 <= i < |rs| ==> Inv(outs[i].state)
    decreases |rs|
  {
    if rs == [] then []
    else
      var o := Step(s, rs[0]);
      [o] + Run(o.state, rs[1..])
  }

  /** The number of readings that do not latch. */
  function UnlatchedCount(rs: seq<real>): (n: nat)
    ensures n <= |rs|
    decreases |rs|
  {
    if rs == [] then 0
    else (if ClampDistance(rs[0]) > DETECTION_LIMIT_CM then 1 else 0) + UnlatchedCount(rs[1..])
  }

  /** The sweep takes exactly one step per unlatched cycle: after cycle i it has
      taken as many steps as there were unlatched readings among the first i+1. */
  lemma {:induction false} SweepCountsUnlatchedCycles(s: RadarState, rs: seq<real>, i: nat)
    requires i < |rs|
    ensures Run(s, rs)[i].state.sweep == After(s.sweep, UnlatchedCount(rs[..i + 1]))
    decreases |rs|
  {
    var o := Step(s, rs[0]);
    var step: nat := if ClampDistance(rs[0]) > DETECTION_LIMIT_CM then 1 else 0;
    assert rs[..i + 1][0] == rs[0];
    if i == 0 {
      assert rs[..1][1..] == [];
      assert UnlatchedCount(rs[..1]) == step;
    } else {
      SweepCountsUnlatchedCycles(o.state, rs[1..], i - 1);
      assert rs[..i + 1][1..] == rs[1..][..i];
      assert UnlatchedCount(rs[..i + 1]) == step + UnlatchedCount(rs[1..][..i]);
      var n := UnlatchedCount(rs[1..][..i]);
      if step == 1 {
        AfterAdd(s.sweep, 1, n);
        assert After(s.sweep, 1) == Next(s.sweep);
      } else {
        assert 0 + n == n;
      }
    }
  }

  /** While every reading latches, the head holds its angle and direction, for
      any number of consecutive cycles. */
  lemma FrozenWhileLatched(s: RadarState, rs: seq<real>)
    requires forall i :: 0 <= i < |rs| ==> ClampDistance(rs[i]) <= DETECTION_LIMIT_CM
    ensures forall i :: 0 <= i < |rs| ==> Run(s, rs)[i].state.sweep == s.sweep
  {
    forall i | 0 <= i < |rs|
      ensures Run(s, rs)[i].state.sweep == s.sweep
    {
      SweepCountsUnlatchedCycles(s, rs, i);
      NoneUnlatched(rs[..i + 1]);
    }
  }

  lemma {:induction false} NoneUnlatched(rs: seq<real>)
    requires forall i :: 0 <= i < |rs| ==> ClampDistance(rs[i]) <= DETECTION_LIMIT_CM
    ensures UnlatchedCount(rs) == 0
    decreases |rs|
  {
    if rs != [] {
      NoneUnlatched(rs[1..]);
    }
  }

  lemma {:induction false} AllUnlatched(rs: seq<real>)
    requires forall i :: 0 <= i < |rs| ==> ClampDistance(rs[i]) > DETECTION_LIMIT_CM
    ensures UnlatchedCount(rs) == |rs|
    decreases |rs|
  {
    if rs != [] {
      AllUnlatched(rs[1..]);
    }
  }

  /** With nothing in detection range, the head sweeps the triangle wave from
      its initial position: after cycle i it is where i+1 sweep steps take it. */
  lemma UnobstructedScanIsTriangleWave(rs: seq<real>)
    requires forall i :: 0 <= i < |rs| ==> ClampDistance(rs[i]) > DETECTION_LIMIT_CM
    ensures forall i :: 0 <= i < |rs| ==> Run(INITIAL, rs)[i].state.sweep == After(START, i + 1)
  {
    forall i | 0 <= i < |rs|
      ensures Run(INITIAL, rs)[i].state.sweep == After(START, i + 1)
    {
      SweepCountsUnlatchedCycles(INITIAL, rs, i);
      AllUnlatched(rs[..i + 1]);
    }
  }

  /** The actuations the cycles performed, in order. */
  function Actuations(outs: seq<Outcome>): (acts: seq<Actuation>)
    ensures |acts| == |outs|
    decreases |outs|
  {
    if outs == [] then [] else [outs[0].act] + Actuations(outs[1..])
  }

  /** The level an output pin is left at by one actuation. */
  function Drive(level: bool, a: Actuation): bool
  {
    match a
    case NoEdge => level
    case AlertOn => true
    case AlertOff => false
  }

  /** The level the pins are left at by a series of actuations. */
  function DriveAll(level: bool, acts: seq<Actuation>): bool
    decreases |acts|
  {
    if acts == [] then level else DriveAll(Drive(level, acts[0]), acts[1..])
  }

  /** Every actuation changes the pin level: no write re-asserts a level the
      pins already have. */
  predicate OnlyEdges(level: bool, acts: seq<Actuation>)
    decreases |acts|
  {
    acts == [] ||
    (&& (acts[0] == AlertOn ==> !level)
     && (acts[0] == AlertOff ==> level)
     && OnlyEdges(Drive(level, acts[0]), acts[1..]))
  }

  /** Starting with the LED and buzzer at the level of the latch, the
      actuations are pure edges and leave both outputs at the level of the
      latch after every cycle. */
  lemma {:induction false} OutputsFollowLatch(s: RadarState, rs: seq<real>)
    ensures OnlyEdges(s.detecting, Actuations(Run(s, rs)))
    ensures forall i :: 0 <= i < |rs| ==>
              DriveAll(s.detecting, Actuations(Run(s, rs))[..i + 1]) == Run(s, rs)[i].state.detecting
    decreases |rs|
  {
    if rs != [] {
      var o := Step(s, rs[0]);
      var outs := Run(s, rs);
      var rest := Run(o.state, rs[1..]);
      OutputsFollowLatch(o.state, rs[1..]);
      assert outs == [o] + rest;
      assert Actuations(outs) == [o.act] + Actuations(rest);
      assert Drive(s.detecting, o.act) == o.state.detecting;
      forall i | 0 <= i < |rs|
        ensures DriveAll(s.detecting, Actuations(outs)[..i + 1]) == outs[i].state.detecting
      {
        var acts := Actuations(outs)[..i + 1];
        assert acts[0] == o.act;
        if i == 0 {
          assert acts[1..] == [];
        } else {
          assert acts[1..] == Actuations(rest)[..i];
          assert outs[i] == rest[i - 1];
        }
      }
    }
  }

  /** The outcomes of the readings 60, 60, 40, 40, 60 from the initial state. */
  lemma ExampleRun()
    ensures Run(INITIAL, [60.0, 60.0, 40.0, 40.0, 60.0]) ==
              [Outcome(RadarState(SweepState(5, true), false, 60.0), NoEdge),
               Outcome(RadarState(SweepState(10, true), false, 60.0), NoEdge),
               Outcome(RadarState(SweepState(10, true), true, 40.0), AlertOn),
               Outcome(RadarState(SweepState(10, true), true, 40.0), NoEdge),
               Outcome(RadarState(SweepState(15, true), false, 60.0), AlertOff)]
  {
    var o0 := Step(INITIAL, 60.0);
    assert o0 == Outcome(RadarState(SweepState(5, true), false, 60.0), NoEdge);
    var o1 := Step(o0.state, 60.0);
    assert o1 == Outcome(RadarState(SweepState(10, true), false, 60.0), NoEdge);
    var o2 := Step(o1.state, 40.0);
    assert o2 == Outcome(RadarState(SweepState(10, true), true, 40.0), AlertOn);
    var o3 := Step(o2.state, 40.0);
    assert o3 == Outcome(RadarState(SweepState(10, true), true, 40.0), NoEdge);
    var o4 := Step(o3.state, 60.0);
    assert o4 == Outcome(RadarState(SweepState(15, true), false, 60.0), AlertOff);
    assert Run(o4.state, []) == [];
    assert Run(o3.state, [60.0]) == [o4];
    assert [40.0, 60.0][1..] == [60.0];
    assert Run(o2.state, [40.0, 60.0]) == [o3, o4];
    assert [40.0, 40.0, 60.0][1..] == [40.0, 60.0];
    assert Run(o1.state, [40.0, 40.0, 60.0]) == [o2, o3, o4];
    assert [60.0, 40.0, 40.0, 60.0][1..] == [40.0, 40.0, 60.0];
    assert Run(o0.state, [60.0, 40.0, 40.0, 60.0]) == [o1, o2, o3, o4];
    assert [60.0, 60.0, 40.0, 40.0, 60.0][1..] == [60.0, 40.0, 40.0, 60.0];
  }

  /** The readings 60, 60, 40, 40, 60 from the initial state: the latch goes
      false, false, true, true, false; the outputs are asserted once, on the
      third reading, and released once, on the fifth; the head steps to 5 and
      10, holds at 10 while latched, and steps on to 15 on the clearing cycle. */
  lemma ExampleTrace()
    ensures var outs := Run(INITIAL, [60.0, 60.0, 40.0, 40.0, 60.0]);
            && [outs[0].state.detecting, outs[1].state.detecting, outs[2].state.detecting,
                outs[3].state.detecting, outs[4].state.detecting] == [false, false, true, true, false]
            && Actuations(outs) == [NoEdge, NoEdge, AlertOn, NoEdge, AlertOff]
            && [outs[0].state.sweep.angle, outs[1].state.sweep.angle, outs[2].state.sweep.angle,
                outs[3].state.sweep.angle, outs[4].state.sweep.angle] == [5, 10, 10, 10, 15]
  {
    ExampleRun();
    var outs := Run(INITIAL, [60.0, 60.0, 40.0, 40.0, 60.0]);
    assert Actuations(outs[4..]) == [AlertOff];
    assert Actuations(outs[3..]) == [NoEdge, AlertOff];
    assert Actuations(outs[2..]) == [AlertOn, NoEdge, AlertOff];
    assert Actuations(outs[1..]) == [NoEdge, AlertOn, NoEdge, AlertOff];
  }

  /** The controller's globals, updated in place by one call of Loop per cycle. */
  class Controller {
    var currentAngle: int
    var movingForward: bool
    var lastDistance: real
    var isDetecting: bool

    /** The globals as a value. */
    function State(): RadarState
      reads this
    {
      RadarState(SweepState(currentAngle, movingForward), isDetecting, lastDistance)
    }

    ghost predicate Valid()
      reads this
    {
      Inv(State())
    }

    constructor ()
      ensures State() == INITIAL
      ensures Valid()
    {
      currentAngle := MIN_ANGLE;
      movingForward := true;
      lastDistance := 0.0;
      isDetecting := false;
    }

    /** One cycle with distance reading raw: latch, actuate, and step the sweep
        unless latched. */
    method Loop(raw: real) returns (act: Actuation)
      modifies this
      ensures State() == Step(old(State()), raw).state
      ensures act == Step(old(State()), raw).act
      ensures old(Valid()) ==> Valid()
    {
      act := NoEdge;
      lastDistance := ClampDistance(raw);
      if lastDistance <= DETECTION_LIMIT_CM {
        if !isDetecting {
          act := AlertOn;
          isDetecting := true;
        }
        return;
      } else {
        if isDetecting {
          act := AlertOff;
          isDetecting := false;
        }
      }
      if movingForward {
        currentAngle := currentAngle + SCAN_STEP;
        if currentAngle >= MAX_ANGLE {
          currentAngle := MAX_ANGLE;
          movingForward := false;
        }
      } else {
        currentAngle := currentAngle - SCAN_STEP;
        if currentAngle <= MIN_ANGLE {
          currentAngle := MIN_ANGLE;
          movingForward := true;
        }
      }
    }
  }
}
