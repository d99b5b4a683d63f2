/** The two pen-velocity quantisers, in exact arithmetic: the pipeline's and the driver's, where
    they agree, and what quantising twice does. */
module Velocity {
  import opened Protocol
  import opened Text
  import opened Numbers

  predicate InRange(v: real) { VELOCITY_MIN <= v <= VELOCITY_MAX }

  function Steps(v: real): int { RoundHalfEven(v / VELOCITY_STEP) }

  function Distance(a: real, b: real): real { if a < b then b - a else a - b }

  /** The pipeline clamps, snaps the top half step to the maximum, and rounds the rest. */
  function Pipeline(v: real): real {
    var clamped := if v < VELOCITY_MIN then VELOCITY_MIN else if v > VELOCITY_MAX then VELOCITY_MAX else v;
    if Distance(clamped, VELOCITY_MAX) <= VELOCITY_STEP / 2.0
      then VELOCITY_MAX else Steps(clamped) as real * VELOCITY_STEP
  }

  /** The driver refuses what is out of range and keeps the step count between 1 and 100. */
  function Driver(v: real): Option<real> {
    if !InRange(v) then None
    else
      var n := Steps(v);
      Some((if n < 1 then 1 else if n > 100 then 100 else n) as real * VELOCITY_STEP)
  }

  predicate OnStep(v: real, k: int) { v == k as real * VELOCITY_STEP }

  /** The step count is within half a step of the velocity. */
  lemma StepsNear(v: real)
    ensures -VELOCITY_STEP / 2.0 <= Steps(v) as real * VELOCITY_STEP - v <= VELOCITY_STEP / 2.0
  {
    var q := v / VELOCITY_STEP;
    assert q * VELOCITY_STEP == v;
    assert -0.5 <= RoundHalfEven(q) as real - q <= 0.5;
  }

  lemma RoundingIsMonotone(a: real, b: real)
    requires a <= b
    ensures RoundHalfEven(a) <= RoundHalfEven(b)
  {
  }

  lemma StepsMonotone(a: real, b: real)
    requires a <= b
    ensures Steps(a) <= Steps(b)
  {
    RoundingIsMonotone(a / VELOCITY_STEP, b / VELOCITY_STEP);
  }

  lemma StepsInRange(v: real)
    requires InRange(v)
    ensures 1 <= Steps(v) <= 100
  {
    StepsMonotone(VELOCITY_MIN, v);
    StepsMonotone(v, VELOCITY_MAX);
    assert VELOCITY_MIN / VELOCITY_STEP == 1.0 && RoundHalfEven(1.0) == 1;
    assert 100.0 < VELOCITY_MAX / VELOCITY_STEP < 100.5;
  }

  /** Every pipeline velocity is a multiple of the step from the first to the hundredth, or the
      maximum, and at most half a step from what was asked. */
  lemma PipelineOnGrid(v: real)
    requires InRange(v)
    ensures Distance(Pipeline(v), v) <= 0.19
    ensures Pipeline(v) == VELOCITY_MAX || exists k: int :: 1 <= k <= 100 && OnStep(Pipeline(v), k)
  {
    StepsNear(v);
    StepsInRange(v);
    if Distance(v, VELOCITY_MAX) > VELOCITY_STEP / 2.0 {
      assert OnStep(Pipeline(v), Steps(v));
    }
  }

  /** Out of range the pipeline takes the nearest end, and the driver refuses. */
  lemma OutOfRange(v: real)
    ensures v < 0.38 ==> Pipeline(v) == 0.38 && Driver(v).None?
    ensures v > 38.1 ==> Pipeline(v) == 38.1 && Driver(v).None?
    ensures 0.38 <= v <= 38.1 ==> Driver(v).Some?
  {
    assert 0.38 / VELOCITY_STEP == 1.0 && RoundHalfEven(1.0) == 1;
  }

  lemma PipelineMonotone(a: real, b: real)
    requires InRange(a) && InRange(b) && a <= b
    ensures Pipeline(a) <= Pipeline(b)
  {
    StepsMonotone(a, b);
    StepsInRange(a);
    StepsInRange(b);
  }

  lemma DriverMonotone(a: real, b: real)
    requires InRange(a) && InRange(b) && a <= b
    ensures Driver(a).value <= Driver(b).value
  {
    StepsMonotone(a, b);
  }

  /** The two agree exactly below the top half step; there the pipeline answers the maximum and
      the driver the hundredth step. */
  lemma AgreeExactly(v: real)
    requires InRange(v)
    ensures Driver(v) == Some(Pipeline(v)) <==> v < 37.91
    ensures v >= 37.91 ==> Pipeline(v) == 38.1 && Driver(v) == Some(38.0)
  {
    StepsInRange(v);
    if v >= 37.91 {
      StepsMonotone(37.91, v);
      assert 99.5 < 37.91 / VELOCITY_STEP < 100.0;
    }
  }

  /** Quantising twice is quantising once exactly when the first result is not the hundredth
      step: 38.0 is on the grid but within half a step of the maximum. */
  lemma TwiceExactly(v: real)
    requires InRange(v)
    ensures Pipeline(Pipeline(v)) == Pipeline(v) <==> Pipeline(v) != 38.0
  {
    StepsInRange(v);
    var p := Pipeline(v);
    if Distance(v, VELOCITY_MAX) > VELOCITY_STEP / 2.0 {
      var k := Steps(v);
      assert p == k as real * VELOCITY_STEP && p / VELOCITY_STEP == k as real && Steps(p) == k;
      assert k <= 99 ==> Distance(p, VELOCITY_MAX) > VELOCITY_STEP / 2.0;
    }
  }

  /** The velocities that a second pass changes: those the first one takes to 38.0. */
  lemma TwiceChangesExactly(v: real)
    requires InRange(v)
    ensures Pipeline(Pipeline(v)) != Pipeline(v) <==> 37.81 <= v < 37.91
  {
    TwiceExactly(v);
    StepsInRange(v);
    HundredthFrom(v);
  }

  /** Half way between the last two steps rounding goes to the even one, the hundredth. */
  lemma HundredthFrom(v: real)
    requires InRange(v)
    ensures Steps(v) == 100 <==> v >= 37.81
  {
    StepsInRange(v);
    var q := v / VELOCITY_STEP;
    assert q * VELOCITY_STEP == v && 99.5 * VELOCITY_STEP == 37.81;
    if v >= 37.81 {
      StepsMonotone(37.81, v);
      assert 37.81 / VELOCITY_STEP == 99.5;
    } else {
      assert q < 99.5;
    }
  }
}
