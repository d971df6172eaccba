/**
 * The two fast effects of src/fine_fx.c, both in place over the first sz
 * samples of a buffer of int16 samples: the clipping amplifier and the
 * linear fade-in / fade-out. Samples are ints; the float arithmetic is
 * exact on reals, and only the final conversion to a sample follows C
 * (truncation for the amplifier's float-to-int16 store, roundf for the
 * fader).
 */
module Fx {
  import opened FineConfig
  import opened Numerics

  /** Every sample of s is an int16 value. */
  predicate AllI16(s: seq<int>) {
    forall i :: 0 <= i < |s| ==> IsI16(s[i])
  }

  // ---------------------------------------------------------------------
  // fine_fx_amplify

  /** One amplified sample: x * gain, clipped to the int16 range, stored truncated. */
  function AmplifySample(x: int, gain: real): (y: int)
    ensures IsI16(y)
    ensures IsI16(x) && gain == 1.0 ==> y == x
    ensures x as real * gain >= INT16_MAX as real ==> y == INT16_MAX
    ensures x as real * gain <= INT16_MIN as real ==> y == INT16_MIN
  {
    TruncSaturated(x as real * gain);
    Trunc(Saturate(x as real * gain))
  }

  /** The buffer s after fine_fx_amplify on its first sz samples. */
  function Amplified(s: seq<int>, sz: nat, gain: real): (r: seq<int>)
    requires sz <= |s|
    ensures |r| == |s|
  {
    seq(|s|, i requires 0 <= i < |s| => if i < sz then AmplifySample(s[i], gain) else s[i])
  }

  /** Every amplified sample is an int16 sample, and samples from sz on are not touched. */
  lemma AmplifiedInRange(s: seq<int>, sz: nat, gain: real)
    requires sz <= |s|
    ensures forall i :: 0 <= i < sz ==> IsI16(Amplified(s, sz, gain)[i])
    ensures Amplified(s, sz, gain)[sz..] == s[sz..]
    ensures AllI16(s) ==> AllI16(Amplified(s, sz, gain))
  {
  }

  /** A gain of 1 leaves an int16 buffer as it is. */
  lemma AmplifyUnity(s: seq<int>, sz: nat)
    requires sz <= |s| && AllI16(s)
    ensures Amplified(s, sz, 1.0) == s
  {
  }

  /** Amplifying a buffer whose first part is the whole window leaves the second part alone. */
  lemma AmplifiedSplit(a: seq<int>, b: seq<int>, gain: real)
    ensures Amplified(a + b, |a|, gain) == Amplified(a, |a|, gain) + b
  {
  }

  /**
   * fine_fx_amplify on the sz samples that start at data + off: the
   * samples from off on are those of Amplified, the ones before off are
   * not touched.
   */
  method Amplify(data: array<int>, off: nat, sz: nat, gain: real)
    requires off + sz <= data.Length
    modifies data
    ensures data[..off] == old(data[..off])
    ensures data[off..] == Amplified(old(data[off..]), sz, gain)
  {
    var i := 0;
    while i < sz
      invariant 0 <= i <= sz
      invariant forall k :: 0 <= k < data.Length ==>
                  data[k] == if off <= k < off + i then AmplifySample(old(data[k]), gain) else old(data[k])
    {
      data[off + i] := AmplifySample(data[off + i], gain);
      i := i + 1;
    }
    assert forall k :: 0 <= k < data.Length - off ==>
             data[off..][k] == Amplified(old(data[off..]), sz, gain)[k];
  }

  // ---------------------------------------------------------------------
  // fine_fx_fade_linear

  /** A float quotient of two sizes: finite, +infinity (x/0 with x > 0) or NaN (0/0). */
  datatype Quot = Finite(v: real) | PosInf | NaN

  /** (float)num / den. */
  function Div(num: nat, den: nat): (q: Quot)
    ensures den > 0 ==> q == Finite(num as real / den as real)
    ensures den == 0 ==> (q == PosInf <==> num > 0) && (q == NaN <==> num == 0)
  {
    if den > 0 then Finite(num as real / den as real)
    else if num > 0 then PosInf
    else NaN
  }

  /** The float comparison a < b: false whenever a NaN is involved. */
  predicate Less(a: Quot, b: Quot) {
    match (a, b)
    case (Finite(x), Finite(y)) => x < y
    case (Finite(_), PosInf) => true
    case _ => false
  }

  /** P99_MINOF(a, b), the conditional a < b ? a : b. */
  function MinOf(a: Quot, b: Quot): (m: Quot)
    ensures m == a || m == b
    ensures Less(a, b) ==> m == a
  {
    if Less(a, b) then a else b
  }

  /** Sample i lies in the fade-in zone. */
  predicate InFadeIn(i: nat, fadeIn: nat) {
    i < fadeIn
  }

  /**
   * Sample i lies in the fade-out zone, i >= sz - out in size_t
   * arithmetic: when out exceeds sz the difference wraps to a value larger
   * than any index, so there is no fade-out zone.
   */
  predicate InFadeOut(i: nat, sz: nat, fadeOut: nat) {
    fadeOut <= sz && i >= sz - fadeOut
  }

  predicate InZone(i: nat, sz: nat, fadeIn: nat, fadeOut: nat) {
    InFadeIn(i, fadeIn) || InFadeOut(i, sz, fadeOut)
  }

  /** The gain of sample i as fine_fx_fade_linear computes it: min(i/in, (sz-1-i)/out) in floats. */
  function FadeGainAsWritten(i: nat, sz: nat, fadeIn: nat, fadeOut: nat): (g: Quot)
    requires i < sz
    ensures g == Div(i, fadeIn) || g == Div(sz - 1 - i, fadeOut)
  {
    MinOf(Div(i, fadeIn), Div(sz - 1 - i, fadeOut))
  }

  /**
   * With no fade-out (out = 0) and a fade-in covering the whole buffer,
   * the last sample's gain is 0/0: a NaN, whose conversion to int16 is
   * undefined.
   */
  lemma FadeGainNaN(sz: nat, fadeIn: nat)
    requires 0 < sz <= fadeIn
    ensures InZone(sz - 1, sz, fadeIn, 0)
    ensures FadeGainAsWritten(sz - 1, sz, fadeIn, 0) == NaN
  {
  }

  /**
   * The gain the fader evidently intends: the ramp of the fade-in zone,
   * the ramp of the fade-out zone, and the smaller of the two where both
   * zones are in play. A zone of length 0 takes no part.
   */
  function FadeGain(i: nat, sz: nat, fadeIn: nat, fadeOut: nat): (g: real)
    requires i < sz && InZone(i, sz, fadeIn, fadeOut)
    ensures 0.0 <= g < 1.0
    ensures InFadeIn(i, fadeIn) ==> g <= i as real / fadeIn as real
    ensures InFadeOut(i, sz, fadeOut) ==> g <= (sz - 1 - i) as real / fadeOut as real
  {
    RatioBelowOne(i, fadeIn);
    RatioBelowOne(sz - 1 - i, fadeOut);
    if fadeIn == 0 then (sz - 1 - i) as real / fadeOut as real
    else if fadeOut == 0 then i as real / fadeIn as real
    else Min2(i as real / fadeIn as real, (sz - 1 - i) as real / fadeOut as real)
  }

  function Min2(a: real, b: real): (m: real)
    ensures m <= a && m <= b && (m == a || m == b)
  {
    if a < b then a else b
  }

  /** A ramp position short of the ramp's length gives a gain in [0, 1). */
  lemma RatioBelowOne(num: nat, den: nat)
    ensures num < den ==> 0.0 <= num as real / den as real < 1.0
  {
  }

  /** roundf(x * g), stored as a sample. */
  function ScaleRound(x: int, g: real): (y: int)
    requires 0.0 <= g <= 1.0
    ensures Abs(y) <= Abs(x)
  {
    ScaledWithin(x, g);
    RoundShrinks(x as real * g, x);
    RoundHalfAway(x as real * g)
  }

  /** Wherever the program's gain is not a NaN, it agrees with FadeGain. */
  lemma {:induction false} FadeGainAgrees(i: nat, sz: nat, fadeIn: nat, fadeOut: nat)
    requires i < sz && InZone(i, sz, fadeIn, fadeOut)
    ensures FadeGainAsWritten(i, sz, fadeIn, fadeOut) == NaN <==>
              fadeOut == 0 && i == sz - 1 && InFadeIn(i, fadeIn)
    ensures FadeGainAsWritten(i, sz, fadeIn, fadeOut) != NaN ==>
              FadeGainAsWritten(i, sz, fadeIn, fadeOut) == Finite(FadeGain(i, sz, fadeIn, fadeOut))
  {
    var a, b := Div(i, fadeIn), Div(sz - 1 - i, fadeOut);
    if fadeIn == 0 {
      assert InFadeOut(i, sz, fadeOut) && fadeOut > 0;
      assert !Less(a, b);
    } else if fadeOut == 0 {
      assert InFadeIn(i, fadeIn);
      if i == sz - 1 {
        assert b == NaN && !Less(a, b);
      } else {
        assert b == PosInf && Less(a, b);
      }
    } else {
      assert a.Finite? && b.Finite?;
    }
  }

  /** One faded sample: roundf(x * gain) inside the zones, x outside. */
  function FadeSample(x: int, i: nat, sz: nat, fadeIn: nat, fadeOut: nat): (y: int)
    requires i < sz
    ensures !InZone(i, sz, fadeIn, fadeOut) ==> y == x
    ensures Abs(y) <= Abs(x)
    ensures IsI16(x) ==> IsI16(y)
  {
    if InZone(i, sz, fadeIn, fadeOut) then ScaleRound(x, FadeGain(i, sz, fadeIn, fadeOut)) else x
  }

  /** The buffer s after fine_fx_fade_linear on its first sz samples. */
  function Faded(s: seq<int>, sz: nat, fadeIn: nat, fadeOut: nat): (r: seq<int>)
    requires sz <= |s|
    ensures |r| == |s|
  {
    seq(|s|, i requires 0 <= i < |s| => if i < sz then FadeSample(s[i], i, sz, fadeIn, fadeOut) else s[i])
  }

  /** Between the zones, and from sz on, nothing changes. */
  lemma FadeKeepsMiddle(s: seq<int>, sz: nat, fadeIn: nat, fadeOut: nat, i: nat)
    requires sz <= |s| && i < |s|
    requires i >= sz || (fadeIn <= i && (fadeOut <= sz ==> i < sz - fadeOut))
    ensures Faded(s, sz, fadeIn, fadeOut)[i] == s[i]
  {
  }

  /** With neither a fade-in nor a fade-out the buffer is left as it is. */
  lemma FadeNoneIsIdentity(s: seq<int>, sz: nat)
    requires sz <= |s|
    ensures Faded(s, sz, 0, 0) == s
  {
    forall i | 0 <= i < |s|
      ensures Faded(s, sz, 0, 0)[i] == s[i]
    {
      FadeKeepsMiddle(s, sz, 0, 0, i);
    }
  }

  /** A fade-in silences the first sample. */
  lemma FadeInSilencesFirst(s: seq<int>, sz: nat, fadeIn: nat, fadeOut: nat)
    requires 0 < sz <= |s| && fadeIn > 0
    ensures Faded(s, sz, fadeIn, fadeOut)[0] == 0
  {
    assert FadeGain(0, sz, fadeIn, fadeOut) == 0.0;
  }

  /** A fade-out no longer than the buffer silences the last sample. */
  lemma FadeOutSilencesLast(s: seq<int>, sz: nat, fadeIn: nat, fadeOut: nat)
    requires 0 < fadeOut <= sz <= |s|
    ensures Faded(s, sz, fadeIn, fadeOut)[sz - 1] == 0
  {
    assert FadeGain(sz - 1, sz, fadeIn, fadeOut) == 0.0;
  }

  /** No faded sample grows in magnitude, so an int16 buffer stays an int16 buffer. */
  lemma FadeShrinks(s: seq<int>, sz: nat, fadeIn: nat, fadeOut: nat)
    requires sz <= |s|
    ensures forall i :: 0 <= i < |s| ==> Abs(Faded(s, sz, fadeIn, fadeOut)[i]) <= Abs(s[i])
    ensures AllI16(s) ==> AllI16(Faded(s, sz, fadeIn, fadeOut))
  {
  }

  /** Fading a buffer whose first part is the whole window leaves the second part alone. */
  lemma FadedSplit(a: seq<int>, b: seq<int>, fadeIn: nat, fadeOut: nat)
    ensures Faded(a + b, |a|, fadeIn, fadeOut) == Faded(a, |a|, fadeIn, fadeOut) + b
  {
  }

  /**
   * fine_fx_fade_linear on the sz samples that start at data + off, with
   * the gain of FadeGain: the samples from off on are those of Faded, the
   * ones before off are not touched.
   */
  method FadeLinear(data: array<int>, off: nat, sz: nat, fadeIn: nat, fadeOut: nat)
    requires off + sz <= data.Length
    modifies data
    ensures data[..off] == old(data[..off])
    ensures data[off..] == Faded(old(data[off..]), sz, fadeIn, fadeOut)
  {
    var i := 0;
    while i < sz
      invariant 0 <= i <= sz
      invariant forall k :: 0 <= k < data.Length ==>
                  data[k] == if off <= k < off + i then FadeSample(old(data[k]), k - off, sz, fadeIn, fadeOut)
                             else old(data[k])
    {
      var fadein := i < fadeIn;
      var fadeout := fadeOut <= sz && i >= sz - fadeOut;
      if fadein || fadeout {
        var gain := FadeGain(i, sz, fadeIn, fadeOut);
        data[off + i] := ScaleRound(data[off + i], gain);
      }
      i := i + 1;
    }
    assert forall k :: 0 <= k < data.Length - off ==>
             data[off..][k] == Faded(old(data[off..]), sz, fadeIn, fadeOut)[k];
  }

  // ---------------------------------------------------------------------
  // fine_fx_compress

  /**
   * What the model keeps of fine_fx_compress: it rewrites the sz samples
   * it is given in place, as a function of those samples and its fixed
   * settings, into sz samples. Its envelope follower and gain computer
   * (expf, powf, lrintf) stay abstract: a compressor is any map from a
   * block to a block of the same length.
   */
  ghost predicate IsCompressor(compress: seq<int> -> seq<int>) {
    forall s :: |compress(s)| == |s|
  }

  /**
   * fine_fx_compress on the sz samples that start at data + off: they
   * become the compressor's image of themselves, and the samples outside
   * them are not touched.
   */
  method Compress(data: array<int>, off: nat, sz: nat, compress: seq<int> -> seq<int>)
    requires off + sz <= data.Length && IsCompressor(compress)
    modifies data
    ensures data[..off] == old(data[..off])
    ensures data[off..] == compress(old(data[off..off + sz])) + old(data[off + sz..])
  {
    var block := compress(data[off..off + sz]);
    var i := 0;
    while i < sz
      invariant 0 <= i <= sz
      invariant forall k :: 0 <= k < data.Length ==>
                  data[k] == if off <= k < off + i then block[k - off] else old(data[k])
    {
      data[off + i] := block[i];
      i := i + 1;
    }
    assert forall k :: 0 <= k < data.Length - off ==>
             data[off..][k] == (block + old(data[off + sz..]))[k];
  }
}
