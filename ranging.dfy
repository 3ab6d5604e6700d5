/** The ultrasonic ranging step: one raw reading, in cm, is made trustworthy. */
module Ranging {

  /** Farthest distance trusted, in cm; it also stands for "nothing in range". */
  const MAX_RANGE_CM: real := 60.0

  /** The clamp `getDistance` applies to the converted echo time: a reading that
      is not positive, or lies beyond the sensor's range, is replaced by
      MAX_RANGE_CM; any other reading passes through unchanged. */
  function ClampDistance(raw: real): (d: real)
    ensures 0.0 < d <= MAX_RANGE_CM
    ensures 0.0 < raw <= MAX_RANGE_CM ==> d == raw
    ensures raw <= 0.0 || raw > MAX_RANGE_CM ==> d == MAX_RANGE_CM
  {
    if raw <= 0.0 || raw > MAX_RANGE_CM then MAX_RANGE_CM else raw
  }

  /** Clamping an already clamped reading changes nothing. */
  lemma ClampIsIdempotent(raw: real)
    ensures ClampDistance(ClampDistance(raw)) == ClampDistance(raw)
  {
  }
}
