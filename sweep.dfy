/** The servo sweep: a triangle wave of the head angle between 0 and 180 degrees. */
module Sweep {

  /** Degrees the head advances in one unlatched cycle. */
  const SCAN_STEP: int := 5
  const MIN_ANGLE: int := 0
  const MAX_ANGLE: int := 180

  /** Cycles from one end of the arc to the other (180 / 5). */
  const HALF_PERIOD: nat := 36
  /** Cycles of one full back-and-forth sweep. */
  const PERIOD: nat := 72

  /** The sweep's part of the controller state: `currentAngle` and `movingForward`. */
  datatype SweepState = SweepState(angle: int, forward: bool)

  /** The state the globals are initialised to. */
  const START: SweepState := SweepState(MIN_ANGLE, true)

  /** The states the sweep can be in: on the arc, on the step grid, and at
      either end already turned towards the other end. */
  predicate SweepInv(s: SweepState)
  {
    && MIN_ANGLE <= s.angle <= MAX_ANGLE
    && s.angle % SCAN_STEP == 0
    && (s.angle == MIN_ANGLE ==> s.forward)
    && (s.angle == MAX_ANGLE ==> !s.forward)
  }

  /** One sweep step: advance by SCAN_STEP in the current direction; on
      reaching or passing an end, stop exactly at it and turn around. */
  function Next(s: SweepState): (r: SweepState)
    // the direction turns only at the two ends, and every end reached is turned at
    ensures r.forward != s.forward ==>
              (r.angle == MAX_ANGLE && !r.forward) || (r.angle == MIN_ANGLE && r.forward)
    ensures r.angle == MAX_ANGLE ==> !r.forward
    ensures r.angle == MIN_ANGLE ==> r.forward
    // never overshoots: a state on the arc stays on it
    ensures MIN_ANGLE <= s.angle <= MAX_ANGLE ==> MIN_ANGLE <= r.angle <= MAX_ANGLE
    // from any reachable state the head moves by exactly one step and stays reachable
    ensures SweepInv(s) ==> SweepInv(r)
    ensures SweepInv(s) ==> r.angle == s.angle + SCAN_STEP || r.angle == s.angle - SCAN_STEP
    ensures SweepInv(s) ==> (r.angle > s.angle <==> s.forward)
  {
    if s.forward then
      var a := s.angle + SCAN_STEP;
      if a >= MAX_ANGLE then SweepState(MAX_ANGLE, false) else SweepState(a, true)
    else
      var a := s.angle - SCAN_STEP;
      if a <= MIN_ANGLE then SweepState(MIN_ANGLE, true) else SweepState(a, false)
  }

  /** The sweep state after n steps from s. */
  function After(s: SweepState, n: nat): (r: SweepState)
    ensures SweepInv(s) ==> SweepInv(r)
    decreases n
  {
    if n == 0 then s else Next(After(s, n - 1))
  }

  /** Taking a + b steps is taking a steps and then b more. */
  lemma {:induction false} AfterAdd(s: SweepState, a: nat, b: nat)
    ensures After(s, a + b) == After(After(s, a), b)
    decreases b
  {
    if b > 0 {
      AfterAdd(s, a, b - 1);
    }
  }

  /** The first half-period from START visits 5, 10, ..., 175 moving forward
      and then stops at 180 turned backward. */
  lemma {:induction false} ForwardLeg(k: nat)
    requires k <= HALF_PERIOD
    ensures After(START, k) ==
              if k < HALF_PERIOD then SweepState(SCAN_STEP * k, true)
              else SweepState(MAX_ANGLE, false)
  {
    if k > 0 {
      ForwardLeg(k - 1);
      var prev := After(START, k - 1);
      assert SCAN_STEP * (k - 1) == SCAN_STEP * k - SCAN_STEP;
      assert prev == SweepState(SCAN_STEP * k - SCAN_STEP, true);
      assert After(START, k) == Next(prev);
      if k < HALF_PERIOD {
        assert SCAN_STEP * k < MAX_ANGLE;
      } else {
        assert SCAN_STEP * k == MAX_ANGLE;
      }
    }
  }

  /** The second half-period visits 175, 170, ..., 5 moving backward and then
      returns to START. */
  lemma {:induction false} BackwardLeg(k: nat)
    requires k <= HALF_PERIOD
    ensures After(START, HALF_PERIOD + k) ==
              if k < HALF_PERIOD then SweepState(MAX_ANGLE - SCAN_STEP * k, false)
              else START
  {
    if k == 0 {
      ForwardLeg(HALF_PERIOD);
    } else {
      BackwardLeg(k - 1);
      var prev := After(START, HALF_PERIOD + (k - 1));
      assert SCAN_STEP * (k - 1) == SCAN_STEP * k - SCAN_STEP;
      assert prev == SweepState(MAX_ANGLE + SCAN_STEP - SCAN_STEP * k, false);
      assert After(START, HALF_PERIOD + k) == Next(prev);
      if k < HALF_PERIOD {
        assert MAX_ANGLE - SCAN_STEP * k > MIN_ANGLE;
      } else {
        assert MAX_ANGLE - SCAN_STEP * k == MIN_ANGLE;
      }
    }
  }

  /** The sweep is periodic with period 72 steps. */
  lemma SweepIsPeriodic(n: nat)
    ensures After(START, n + PERIOD) == After(START, n)
  {
    AfterAdd(START, PERIOD, n);
    BackwardLeg(HALF_PERIOD);
  }

  /** The reachable states are exactly those satisfying SweepInv: each of them
      is reached from START within one period, and nothing else ever is. */
  lemma ReachableIffInvariant(s: SweepState)
    ensures SweepInv(s) <==> exists k: nat :: k < PERIOD && After(START, k) == s
  {
    if SweepInv(s) {
      if s.forward {
        var k: nat := s.angle / SCAN_STEP;
        assert s.angle == SCAN_STEP * k;
        ForwardLeg(k);
        assert After(START, k) == s;
      } else {
        var j: nat := (MAX_ANGLE - s.angle) / SCAN_STEP;
        assert s.angle == MAX_ANGLE - SCAN_STEP * j;
        BackwardLeg(j);
        assert After(START, HALF_PERIOD + j) == s;
      }
    }
    assert SweepInv(START);
  }
}
