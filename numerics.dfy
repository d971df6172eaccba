/**
 * The float-to-integer conversions the effects use, on real numbers.
 * Float arithmetic is modelled exactly; only the final conversion to a
 * sample is modelled, by the rule C applies to it.
 */
module Numerics {
  import opened FineConfig

  /** A C cast of a float to an integer type: truncation toward zero. */
  function Trunc(x: real): (r: int)
    ensures x >= 0.0 ==> 0 <= r && r as real <= x < r as real + 1.0
    ensures x < 0.0 ==> r <= 0 && r as real - 1.0 < x <= r as real
  {
    if x >= 0.0 then x.Floor else -((-x).Floor)
  }

  /** roundf: the nearest integer, halfway cases rounded away from zero. */
  function RoundHalfAway(x: real): (r: int)
    ensures x >= 0.0 ==> 0 <= r && r as real - 0.5 <= x < r as real + 0.5
    ensures x < 0.0 ==> r <= 0 && r as real - 0.5 < x <= r as real + 0.5
  {
    if x >= 0.0 then (x + 0.5).Floor else -((-x + 0.5).Floor)
  }

  /** Hard clipping of a float sample to the int16 range. */
  function Saturate(x: real): (y: real)
    ensures INT16_MIN as real <= y <= INT16_MAX as real
    ensures INT16_MIN as real <= x <= INT16_MAX as real ==> y == x
    ensures x >= INT16_MAX as real ==> y == INT16_MAX as real
    ensures x <= INT16_MIN as real ==> y == INT16_MIN as real
  {
    if x >= INT16_MAX as real then INT16_MAX as real
    else if x <= INT16_MIN as real then INT16_MIN as real
    else x
  }

  /** Truncation never leaves an integer interval around zero. */
  lemma TruncWithin(x: real, lo: int, hi: int)
    requires lo <= 0 <= hi
    requires lo as real <= x <= hi as real
    ensures lo <= Trunc(x) <= hi
  {
  }

  /** Truncating a float sample clipped by Saturate gives an int16 sample. */
  lemma TruncSaturated(x: real)
    ensures IsI16(Trunc(Saturate(x)))
  {
    TruncWithin(Saturate(x), INT16_MIN, INT16_MAX);
  }

  /** Converting a value no larger in magnitude than an integer d gives a value no larger than d. */
  lemma TruncShrinks(x: real, d: int)
    requires -(Abs(d) as real) <= x <= Abs(d) as real
    ensures Abs(Trunc(x)) <= Abs(d)
  {
  }

  lemma RoundShrinks(x: real, d: int)
    requires -(Abs(d) as real) <= x <= Abs(d) as real
    ensures Abs(RoundHalfAway(x)) <= Abs(d)
  {
  }

  /** A product of an integer with a gain in [0,1] is no larger in magnitude. */
  lemma ScaledWithin(x: int, g: real)
    requires 0.0 <= g <= 1.0
    ensures -(Abs(x) as real) <= x as real * g <= Abs(x) as real
  {
    if x >= 0 {
      assert x as real * g <= x as real * 1.0;
    } else {
      assert x as real * g >= x as real * 1.0;
    }
  }
}
