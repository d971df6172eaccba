/**
 * The Freeverb reverberator of src/fine_fx_reverb.c, left channel only:
 * eight comb filters summed in parallel, then four allpass filters in
 * series, each a circular delay line of float cells with a read/write
 * position bufidx that wraps at bufsize. Floats are reals, and the
 * undenormalise macro, which flushes denormal floats to zero, is the
 * identity. The pure functions state one step of each filter and of the
 * whole reverberator; the classes hold the delay lines and step them in
 * place.
 */
module Reverb {
  import opened FineConfig
  import opened Numerics
  import opened Ring

  const NUM_COMBS: nat := 8
  const NUM_ALLPASSES: nat := 4

  /** combtuningL1 .. combtuningL8 and allpasstuningL1 .. allpasstuningL4 of src/fine_fx_reverb.h. */
  const COMB_TUNING: seq<nat> := [1116, 1188, 1277, 1356, 1422, 1491, 1557, 1617]
  const ALLPASS_TUNING: seq<nat> := [556, 441, 341, 225]

  /** The tuning constants at the head of src/fine_fx_reverb.c, as exact decimals. */
  const FIXED_GAIN: real := 0.015
  const SCALE_WET: real := 3.0
  const SCALE_DRY: real := 2.0
  const SCALE_DAMP: real := 0.4
  const SCALE_ROOM: real := 0.28
  const OFFSET_ROOM: real := 0.7
  const INITIAL_ROOM: real := 0.5
  const INITIAL_DAMP: real := 0.5
  const INITIAL_WET: real := 1.0 / SCALE_WET
  const INITIAL_DRY: real := 0.0
  const ALLPASS_FEEDBACK: real := 0.5

  // ---------------------------------------------------------------------
  // One comb filter and one allpass filter, as values

  /** A comb_filter with the contents of its buffer; bufsize is |buffer|. */
  datatype Comb = Comb(buffer: seq<real>, bufidx: nat, filterstore: real, feedback: real, damp1: real, damp2: real) {
    predicate Valid() {
      bufidx < |buffer|
    }
  }

  /** An allpass_filter with the contents of its buffer; bufsize is |buffer|. */
  datatype Allpass = Allpass(buffer: seq<real>, bufidx: nat, feedback: real) {
    predicate Valid() {
      bufidx < |buffer|
    }
  }

  /**
   * comb_process: the cell at bufidx is the output; the low-pass store
   * takes output*damp2 + store*damp1; the cell is overwritten with the
   * input plus the store times the feedback; bufidx moves on by one
   * modulo bufsize. Only that one cell of the buffer changes.
   */
  function CombStep(c: Comb, input: real): (r: (Comb, real))
    requires c.Valid()
    ensures r.0.Valid() && |r.0.buffer| == |c.buffer|
    ensures r.1 == c.buffer[c.bufidx]
    ensures r.0.filterstore == r.1 * c.damp2 + c.filterstore * c.damp1
    ensures r.0.buffer[c.bufidx] == input + r.0.filterstore * c.feedback
    ensures r.0.bufidx == (c.bufidx + 1) % |c.buffer|
    ensures forall p :: 0 <= p < |c.buffer| && p != c.bufidx ==> r.0.buffer[p] == c.buffer[p]
    ensures r.0.feedback == c.feedback && r.0.damp1 == c.damp1 && r.0.damp2 == c.damp2
  {
    var output := c.buffer[c.bufidx];
    var store := output * c.damp2 + c.filterstore * c.damp1;
    NextSlotIsMod(c.bufidx, |c.buffer|);
    (c.(buffer := c.buffer[c.bufidx := input + store * c.feedback],
        bufidx := NextSlot(c.bufidx, |c.buffer|),
        filterstore := store),
     output)
  }

  /**
   * allpass_process: with bufout the cell at bufidx, the output is
   * bufout - input and the cell is overwritten with input + bufout *
   * feedback; bufidx moves on by one modulo bufsize. Only that one cell of
   * the buffer changes.
   */
  function AllpassStep(a: Allpass, input: real): (r: (Allpass, real))
    requires a.Valid()
    ensures r.0.Valid() && |r.0.buffer| == |a.buffer|
    ensures r.1 == a.buffer[a.bufidx] - input
    ensures r.0.buffer[a.bufidx] == input + a.buffer[a.bufidx] * a.feedback
    ensures r.0.bufidx == (a.bufidx + 1) % |a.buffer|
    ensures forall p :: 0 <= p < |a.buffer| && p != a.bufidx ==> r.0.buffer[p] == a.buffer[p]
    ensures r.0.feedback == a.feedback
  {
    var bufout := a.buffer[a.bufidx];
    NextSlotIsMod(a.bufidx, |a.buffer|);
    (a.(buffer := a.buffer[a.bufidx := input + bufout * a.feedback],
        bufidx := NextSlot(a.bufidx, |a.buffer|)),
     -input + bufout)
  }

  /** A delay line holding nothing but zeros. */
  predicate Zeros(s: seq<real>) {
    forall p :: 0 <= p < |s| ==> s[p] == 0.0
  }

  predicate SilentComb(c: Comb) {
    c.filterstore == 0.0 && Zeros(c.buffer)
  }

  /** A silent comb filter fed silence outputs silence and stays silent. */
  lemma CombSilence(c: Comb)
    requires c.Valid() && SilentComb(c)
    ensures CombStep(c, 0.0).1 == 0.0 && SilentComb(CombStep(c, 0.0).0)
  {
    var r := CombStep(c, 0.0).0;
    assert r.filterstore == 0.0 * c.damp2 + 0.0 * c.damp1 == 0.0;
    assert r.buffer[c.bufidx] == 0.0 + 0.0 * c.feedback == 0.0;
  }

  /** A silent allpass filter fed silence outputs silence and stays silent. */
  lemma AllpassSilence(a: Allpass)
    requires a.Valid() && Zeros(a.buffer)
    ensures AllpassStep(a, 0.0).1 == 0.0 && Zeros(AllpassStep(a, 0.0).0.buffer)
  {
    var r := AllpassStep(a, 0.0).0;
    assert r.buffer[a.bufidx] == 0.0 + 0.0 * a.feedback == 0.0;
  }

  /** A comb filter fed k inputs: the delay line positions of the run. */
  function CombRun(c: Comb, inputs: seq<real>): (r: Comb)
    requires c.Valid()
    ensures r.Valid() && |r.buffer| == |c.buffer|
    decreases |inputs|
  {
    if inputs == [] then c else CombRun(CombStep(c, inputs[0]).0, inputs[1..])
  }

  /** After any k inputs the comb filter's position has moved on by k modulo bufsize. */
  lemma {:induction false} CombRunPosition(c: Comb, inputs: seq<real>)
    requires c.Valid()
    ensures CombRun(c, inputs).bufidx == (c.bufidx + |inputs|) % |c.buffer|
    decreases |inputs|
  {
    if inputs != [] {
      var c' := CombStep(c, inputs[0]).0;
      CombRunPosition(c', inputs[1..]);
      ModSucc(c.bufidx, |c.buffer|);
      ModAddMul(c.bufidx + 1, 0, |c.buffer|);
      assert CombRun(c, inputs).bufidx == (c'.bufidx + |inputs| - 1) % |c.buffer|;
      ModOfReduced(c.bufidx + 1, |inputs| - 1, |c.buffer|);
    }
  }

  /** Reducing before adding a further offset does not change the remainder. */
  lemma ModOfReduced(x: nat, k: nat, n: nat)
    requires n > 0
    ensures (x % n + k) % n == (x + k) % n
  {
    var q := x / n;
    assert x == q * n + x % n;
    assert x + k == (x % n + k) + q * n;
    ModAddMul(x % n + k, q, n);
  }

  // ---------------------------------------------------------------------
  // The whole reverberator, as values

  /** The delay lines of a fine_reverb_model. */
  datatype Lines = Lines(combs: seq<Comb>, allpasses: seq<Allpass>) {
    predicate Valid() {
      && (forall j :: 0 <= j < |combs| ==> combs[j].Valid())
      && (forall j :: 0 <= j < |allpasses| ==> allpasses[j].Valid())
    }
  }

  /** The coefficients the per-sample mix uses: gain, wet_scaled, dry_scaled. */
  datatype Mix = Mix(gain: real, wetScaled: real, dryScaled: real)
  {
    /** What the comb filters are fed for the int16 sample x: the sample as a float times the input gain. */
    function Input(x: int): real {
      InSample(x) * gain
    }

    /** The sample written back: the allpass output times the wet level plus the dry sample times the dry level. */
    function Output(wetOut: real, x: int): (y: int)
      ensures IsI16(y)
    {
      OutputSample(wetOut * wetScaled + InSample(x) * dryScaled)
    }
  }

  /** The first k comb filters of cs fed the same input, and the sum of their outputs in order. */
  function CombBank(cs: seq<Comb>, input: real, k: nat): (r: (seq<Comb>, real))
    requires k <= |cs| && forall j :: 0 <= j < |cs| ==> cs[j].Valid()
    ensures |r.0| == |cs| && forall j :: 0 <= j < |cs| ==> r.0[j].Valid() && |r.0[j].buffer| == |cs[j].buffer|
    ensures forall j :: k <= j < |cs| ==> r.0[j] == cs[j]
  {
    if k == 0 then (cs, 0.0)
    else
      var prev := CombBank(cs, input, k - 1);
      var step := CombStep(prev.0[k - 1], input);
      (prev.0[k - 1 := step.0], prev.1 + step.1)
  }

  /** The bank of the first k + 1 combs: comb k stepped after the first k, its output added to their sum. */
  lemma CombBankNext(cs: seq<Comb>, input: real, k: nat)
    requires k < |cs| && forall j :: 0 <= j < |cs| ==> cs[j].Valid()
    ensures var prev := CombBank(cs, input, k);
            var step := CombStep(prev.0[k], input);
            CombBank(cs, input, k + 1) == (prev.0[k := step.0], prev.1 + step.1)
  {
    assert CombBank(cs, input, k).0[k] == cs[k];
  }

  /** The first k allpass filters of aps in series, fed x; the output of the last. */
  function AllpassChain(aps: seq<Allpass>, x: real, k: nat): (r: (seq<Allpass>, real))
    requires k <= |aps| && forall j :: 0 <= j < |aps| ==> aps[j].Valid()
    ensures |r.0| == |aps| && forall j :: 0 <= j < |aps| ==> r.0[j].Valid() && |r.0[j].buffer| == |aps[j].buffer|
    ensures forall j :: k <= j < |aps| ==> r.0[j] == aps[j]
  {
    if k == 0 then (aps, x)
    else
      var prev := AllpassChain(aps, x, k - 1);
      var step := AllpassStep(prev.0[k - 1], prev.1);
      (prev.0[k - 1 := step.0], step.1)
  }

  /** The int16 sample written back: v scaled by 32767, clipped to the int16 range, then truncated. */
  function OutputSample(v: real): (y: int)
    ensures IsI16(y)
    ensures -1.0 <= v <= 1.0 ==> -INT16_MAX <= y <= INT16_MAX
  {
    var out := v * 32767.0;
    var clipped := if out > 32767.0 then 32767.0 else if out < -32768.0 then -32768.0 else out;
    TruncWithin(clipped, INT16_MIN, INT16_MAX);
    if -1.0 <= v <= 1.0 then
      TruncWithin(clipped, -INT16_MAX, INT16_MAX);
      Trunc(clipped)
    else Trunc(clipped)
  }

  /** An int16 sample as a float in [-1, 1): data[i] * (1/32768). */
  function InSample(x: int): real {
    x as real * (1.0 / 32768.0)
  }

  /** One sample through the reverberator: the new delay lines and the sample written back. */
  function SampleStep(l: Lines, m: Mix, x: int): (r: (Lines, int))
    requires l.Valid()
    ensures r.0.Valid() && |r.0.combs| == |l.combs| && |r.0.allpasses| == |l.allpasses|
    ensures IsI16(r.1)
  {
    var bank := CombBank(l.combs, m.Input(x), |l.combs|);
    var chain := AllpassChain(l.allpasses, bank.1, |l.allpasses|);
    (Lines(bank.0, chain.0), m.Output(chain.1, x))
  }

  /** fine_fx_reverb over the first k samples of xs: the delay lines after them and the samples written. */
  function Run(l: Lines, m: Mix, xs: seq<int>, k: nat): (r: (Lines, seq<int>))
    requires l.Valid() && k <= |xs|
    ensures r.0.Valid() && |r.0.combs| == |l.combs| && |r.0.allpasses| == |l.allpasses|
    ensures |r.1| == k && forall i :: 0 <= i < k ==> IsI16(r.1[i])
  {
    if k == 0 then (l, [])
    else
      var prev := Run(l, m, xs, k - 1);
      var step := SampleStep(prev.0, m, xs[k - 1]);
      (step.0, prev.1 + [step.1])
  }

  /**
   * The buffer of fine_fx_reverb after sample i is written back: the
   * first i + 1 samples written, then the untouched rest.
   */
  lemma RunWritesBack(l: Lines, m: Mix, xs: seq<int>, i: nat, buf: seq<int>)
    requires l.Valid() && i < |xs| && buf == Run(l, m, xs, i).1 + xs[i..]
    ensures buf[i] == xs[i]
    ensures buf[i := SampleStep(Run(l, m, xs, i).0, m, xs[i]).1] == Run(l, m, xs, i + 1).1 + xs[i + 1..]
  {
    var prev := Run(l, m, xs, i);
    var step := SampleStep(prev.0, m, xs[i]);
    assert Run(l, m, xs, i + 1).1 == prev.1 + [step.1];
    WriteBack(prev.1, step.1, xs, i);
  }

  /** Overwriting the first unwritten sample of w + xs[i..] extends the written prefix w by one. */
  lemma WriteBack(w: seq<int>, y: int, xs: seq<int>, i: nat)
    requires |w| == i < |xs|
    ensures (w + xs[i..])[i] == xs[i]
    ensures (w + xs[i..])[i := y] == w + [y] + xs[i + 1..]
  {
    assert (w + xs[i..])[i := y] == w + ([y] + xs[i + 1..]);
  }

  /** Delay lines that hold nothing but zeros, with empty low-pass stores. */
  predicate Silent(l: Lines) {
    && (forall j :: 0 <= j < |l.combs| ==> SilentComb(l.combs[j]))
    && (forall j :: 0 <= j < |l.allpasses| ==> Zeros(l.allpasses[j].buffer))
  }

  lemma {:induction false} CombBankSilence(cs: seq<Comb>, k: nat)
    requires k <= |cs| && forall j :: 0 <= j < |cs| ==> cs[j].Valid() && SilentComb(cs[j])
    ensures CombBank(cs, 0.0, k).1 == 0.0
    ensures forall j :: 0 <= j < |cs| ==> SilentComb(CombBank(cs, 0.0, k).0[j])
  {
    if k > 0 {
      CombBankSilence(cs, k - 1);
      CombSilence(CombBank(cs, 0.0, k - 1).0[k - 1]);
    }
  }

  lemma {:induction false} AllpassChainSilence(aps: seq<Allpass>, k: nat)
    requires k <= |aps| && forall j :: 0 <= j < |aps| ==> aps[j].Valid() && Zeros(aps[j].buffer)
    ensures AllpassChain(aps, 0.0, k).1 == 0.0
    ensures forall j :: 0 <= j < |aps| ==> Zeros(AllpassChain(aps, 0.0, k).0[j].buffer)
  {
    if k > 0 {
      AllpassChainSilence(aps, k - 1);
      AllpassSilence(AllpassChain(aps, 0.0, k - 1).0[k - 1]);
    }
  }

  /** A silent reverberator fed a zero sample writes a zero sample and stays silent. */
  lemma SampleSilence(l: Lines, m: Mix)
    requires l.Valid() && Silent(l)
    ensures SampleStep(l, m, 0).1 == 0 && Silent(SampleStep(l, m, 0).0)
  {
    assert m.Input(0) == 0.0;
    var bank := CombBank(l.combs, 0.0, |l.combs|);
    CombBankSilence(l.combs, |l.combs|);
    var chain := AllpassChain(l.allpasses, bank.1, |l.allpasses|);
    AllpassChainSilence(l.allpasses, |l.allpasses|);
    assert chain.1 == 0.0;
    assert 0.0 * m.wetScaled + InSample(0) * m.dryScaled == 0.0;
    assert m.Output(chain.1, 0) == OutputSample(0.0);
    assert SampleStep(l, m, 0) == (Lines(bank.0, chain.0), m.Output(chain.1, 0));
  }

  /** From silent delay lines, a run of zero samples writes zeros and leaves the lines silent. */
  lemma {:induction false} SilenceIn(l: Lines, m: Mix, xs: seq<int>, k: nat)
    requires l.Valid() && Silent(l) && k <= |xs|
    requires forall i :: 0 <= i < |xs| ==> xs[i] == 0
    ensures Silent(Run(l, m, xs, k).0)
    ensures forall i :: 0 <= i < k ==> Run(l, m, xs, k).1[i] == 0
  {
    if k > 0 {
      SilenceIn(l, m, xs, k - 1);
      SampleSilence(Run(l, m, xs, k - 1).0, m);
    }
  }

  // ---------------------------------------------------------------------
  // Coefficients

  /** reverb_update's comb coefficients: (roomsize1, damp1, damp2). */
  function CombCoefficients(roomsize: real, damp: real): (k: (real, real, real))
    ensures k.0 == OFFSET_ROOM + SCALE_ROOM * roomsize
    ensures k.1 == SCALE_DAMP * damp && k.2 == 1.0 - k.1
  {
    var damp1 := damp * SCALE_DAMP;
    (roomsize * SCALE_ROOM + OFFSET_ROOM, damp1, 1.0 - damp1)
  }

  /**
   * For parameters in their normalised range [0, 1], the comb feedback
   * stays in [0.7, 0.98], below 1, so each comb filter decays, and the
   * low-pass weights are a convex pair with damp1 in [0, 0.4].
   */
  lemma CoefficientsInRange(roomsize: real, damp: real)
    requires 0.0 <= roomsize <= 1.0 && 0.0 <= damp <= 1.0
    ensures 0.7 <= CombCoefficients(roomsize, damp).0 <= 0.98 < 1.0
    ensures 0.0 <= CombCoefficients(roomsize, damp).1 <= 0.4
    ensures 0.6 <= CombCoefficients(roomsize, damp).2 <= 1.0
  {
  }

  /** A comb filter with the coefficients k = (feedback, damp1, damp2) and its delay line untouched. */
  function Retune(c: Comb, k: (real, real, real)): (r: Comb)
    ensures r.buffer == c.buffer && r.bufidx == c.bufidx && r.filterstore == c.filterstore
    ensures r.feedback == k.0 && r.damp1 == k.1 && r.damp2 == k.2
  {
    c.(feedback := k.0, damp1 := k.1, damp2 := k.2)
  }

  /** Every comb of l retuned to the coefficients k (the comb loop of reverb_update). */
  function Retuned(l: Lines, k: (real, real, real)): (r: Lines)
    ensures r.allpasses == l.allpasses && |r.combs| == |l.combs|
    ensures forall j :: 0 <= j < |l.combs| ==> r.combs[j] == Retune(l.combs[j], k)
    ensures l.Valid() ==> r.Valid()
  {
    Lines(seq(|l.combs|, j requires 0 <= j < |l.combs| => Retune(l.combs[j], k)), l.allpasses)
  }

  /** The mix coefficients reverb_update derives from wet and dry. */
  function MixOf(wet: real, dry: real): (m: Mix)
    ensures m.gain == FIXED_GAIN
    ensures m.wetScaled == SCALE_WET * wet && m.dryScaled == SCALE_DRY * dry
  {
    Mix(FIXED_GAIN, wet * SCALE_WET, dry * SCALE_DRY)
  }

  // ---------------------------------------------------------------------
  // The delay lines in place

  class CombFilter {
    const buffer: array<real>
    var bufidx: nat
    var filterstore: real
    var feedback: real
    var damp1: real
    var damp2: real

    ghost predicate Valid()
      reads this
    {
      bufidx < buffer.Length
    }

    ghost function State(): Comb
      reads this, buffer
    {
      Comb(buffer[..], bufidx, filterstore, feedback, damp1, damp2)
    }

    /** A zeroed filter (the memset of reverb_init) with a buffer of bufsize cells. */
    constructor (bufsize: nat)
      requires bufsize > 0
      ensures Valid() && fresh(buffer) && buffer.Length == bufsize
      ensures bufidx == 0 && SilentComb(State())
      ensures feedback == 0.0 && damp1 == 0.0 && damp2 == 0.0
    {
      buffer := new real[bufsize](_ => 0.0);
      bufidx := 0;
      filterstore, feedback, damp1, damp2 := 0.0, 0.0, 0.0, 0.0;
    }

    /** comb_process. */
    method Process(input: real) returns (output: real)
      requires Valid()
      modifies this`bufidx, this`filterstore, buffer
      ensures Valid() && (State(), output) == CombStep(old(State()), input)
    {
      ghost var before, at := buffer[..], bufidx;
      output := buffer[bufidx];
      filterstore := output * damp2 + filterstore * damp1;
      buffer[bufidx] := input + filterstore * feedback;
      bufidx := bufidx + 1;
      if bufidx >= buffer.Length {
        bufidx := 0;
      }
      // both sides hold the new cell at the old position and the old cells elsewhere
      ghost var after := before[at := input + filterstore * feedback];
      ghost var step := CombStep(old(State()), input).0;
      assert filterstore == step.filterstore;
      assert forall p :: 0 <= p < buffer.Length ==> buffer[p] == after[p] == step.buffer[p];
      assert buffer[..] == after == step.buffer;
    }
  }

  class AllpassFilter {
    const buffer: array<real>
    var bufidx: nat
    var feedback: real

    ghost predicate Valid()
      reads this
    {
      bufidx < buffer.Length
    }

    ghost function State(): Allpass
      reads this, buffer
    {
      Allpass(buffer[..], bufidx, feedback)
    }

    /** A zeroed filter (the memset of reverb_init) with a buffer of bufsize cells. */
    constructor (bufsize: nat)
      requires bufsize > 0
      ensures Valid() && fresh(buffer) && buffer.Length == bufsize
      ensures bufidx == 0 && Zeros(State().buffer) && feedback == 0.0
    {
      buffer := new real[bufsize](_ => 0.0);
      bufidx := 0;
      feedback := 0.0;
    }

    /** allpass_process. */
    method Process(input: real) returns (output: real)
      requires Valid()
      modifies this`bufidx, buffer
      ensures Valid() && (State(), output) == AllpassStep(old(State()), input)
    {
      ghost var before, at := buffer[..], bufidx;
      var bufout := buffer[bufidx];
      output := -input + bufout;
      buffer[bufidx] := input + bufout * feedback;
      bufidx := bufidx + 1;
      if bufidx >= buffer.Length {
        bufidx := 0;
      }
      // both sides hold the new cell at the old position and the old cells elsewhere
      ghost var after := before[at := input + bufout * feedback];
      ghost var step := AllpassStep(old(State()), input).0;
      assert forall p :: 0 <= p < buffer.Length ==> buffer[p] == after[p] == step.buffer[p];
      assert buffer[..] == after == step.buffer;
    }
  }

  // ---------------------------------------------------------------------
  // The reverberator in place

  /** The filter objects are pairwise distinct and so are their buffers. */
  ghost predicate Distinct(combs: seq<CombFilter>, allpasses: seq<AllpassFilter>) {
    && (forall j, k :: 0 <= j < |combs| && 0 <= k < |combs| && j != k ==>
          combs[j] != combs[k] && combs[j].buffer != combs[k].buffer)
    && (forall j, k :: 0 <= j < |allpasses| && 0 <= k < |allpasses| && j != k ==>
          allpasses[j] != allpasses[k] && allpasses[j].buffer != allpasses[k].buffer)
    && (forall j, k :: 0 <= j < |combs| && 0 <= k < |allpasses| ==> combs[j].buffer != allpasses[k].buffer)
  }

  /** Every buffer has the length of its tuning constant. */
  ghost predicate Tuned(combs: seq<CombFilter>, allpasses: seq<AllpassFilter>) {
    && |combs| == NUM_COMBS && |allpasses| == NUM_ALLPASSES
    && (forall j :: 0 <= j < NUM_COMBS ==> combs[j].buffer.Length == COMB_TUNING[j])
    && (forall j :: 0 <= j < NUM_ALLPASSES ==> allpasses[j].buffer.Length == ALLPASS_TUNING[j])
  }

  /** fine_reverb_model. */
  class ReverbModel {
    var roomsize: real
    var damp: real
    var wet: real
    var dry: real
    var gain: real
    var wetScaled: real
    var dryScaled: real
    const combs: seq<CombFilter>
    const allpasses: seq<AllpassFilter>

    ghost function CombBuffers(): set<array<real>> {
      set j | 0 <= j < |combs| :: combs[j].buffer
    }

    ghost function AllpassBuffers(): set<array<real>> {
      set j | 0 <= j < |allpasses| :: allpasses[j].buffer
    }

    ghost predicate Valid()
      reads this, combs, allpasses
    {
      && Tuned(combs, allpasses)
      && Distinct(combs, allpasses)
      && (forall j :: 0 <= j < |combs| ==> combs[j].Valid())
      && (forall j :: 0 <= j < |allpasses| ==> allpasses[j].Valid())
    }

    ghost function CombStates(): (cs: seq<Comb>)
      reads combs, CombBuffers()
      ensures |cs| == |combs|
    {
      seq(|combs|, j requires 0 <= j < |combs| reads combs, CombBuffers() => combs[j].State())
    }

    ghost function AllpassStates(): (aps: seq<Allpass>)
      reads allpasses, AllpassBuffers()
      ensures |aps| == |allpasses|
    {
      seq(|allpasses|, j requires 0 <= j < |allpasses| reads allpasses, AllpassBuffers() => allpasses[j].State())
    }

    ghost function State(): Lines
      reads combs, CombBuffers(), allpasses, AllpassBuffers()
    {
      Lines(CombStates(), AllpassStates())
    }

    function MixNow(): Mix
      reads this
    {
      Mix(gain, wetScaled, dryScaled)
    }

    /** One comb filter of the bank: comb_process on combs[j]. */
    method StepComb(j: nat, input: real) returns (output: real)
      requires Valid() && j < |combs|
      modifies combs[j], combs[j].buffer
      ensures Valid()
      ensures var step := CombStep(old(CombStates())[j], input);
              CombStates() == old(CombStates())[j := step.0] && output == step.1
      ensures AllpassStates() == old(AllpassStates())
    {
      output := combs[j].Process(input);
    }

    /** One allpass filter of the chain: allpass_process on allpasses[j]. */
    method StepAllpass(j: nat, input: real) returns (output: real)
      requires Valid() && j < |allpasses|
      modifies allpasses[j], allpasses[j].buffer
      ensures Valid()
      ensures var step := AllpassStep(old(AllpassStates())[j], input);
              AllpassStates() == old(AllpassStates())[j := step.0] && output == step.1
      ensures CombStates() == old(CombStates())
    {
      output := allpasses[j].Process(input);
    }

    /** The comb filters accumulated in parallel, all fed the same input. */
    method RunCombs(input: real) returns (sum: real)
      requires Valid()
      modifies combs, CombBuffers()
      ensures Valid()
      ensures (CombStates(), sum) == CombBank(old(CombStates()), input, NUM_COMBS)
      ensures AllpassStates() == old(AllpassStates())
    {
      ghost var c0 := CombStates();
      sum := 0.0;
      var j := 0;
      while j < NUM_COMBS
        invariant 0 <= j <= NUM_COMBS && Valid()
        invariant CombStates() == CombBank(c0, input, j).0 && sum == CombBank(c0, input, j).1
        invariant AllpassStates() == old(AllpassStates())
      {
        CombBankNext(c0, input, j);
        var o := StepComb(j, input);
        sum := sum + o;
        j := j + 1;
      }
    }

    /** The allpass filters in series, fed x. */
    method RunAllpasses(x: real) returns (out: real)
      requires Valid()
      modifies allpasses, AllpassBuffers()
      ensures Valid()
      ensures (AllpassStates(), out) == AllpassChain(old(AllpassStates()), x, NUM_ALLPASSES)
      ensures CombStates() == old(CombStates())
    {
      ghost var a0 := AllpassStates();
      out := x;
      var j := 0;
      while j < NUM_ALLPASSES
        invariant 0 <= j <= NUM_ALLPASSES && Valid()
        invariant (AllpassStates(), out) == AllpassChain(a0, x, j)
        invariant CombStates() == old(CombStates())
      {
        out := StepAllpass(j, out);
        j := j + 1;
      }
    }

    /**
     * The body of the loop of fine_fx_reverb for one sample x: the input
     * scaled by gain goes into every comb filter, the sum of their outputs
     * through the allpass filters in series, and the result mixed wet and
     * dry is the sample written back.
     */
    method ProcessSample(x: int) returns (y: int)
      requires Valid()
      modifies combs, CombBuffers(), allpasses, AllpassBuffers()
      ensures Valid()
      ensures (State(), y) == SampleStep(old(State()), MixNow(), x)
    {
      ghost var l0 := State();
      var m := MixNow();
      var outSample := RunCombs(m.Input(x));
      outSample := RunAllpasses(outSample);
      y := m.Output(outSample, x);
    }

    /**
     * fine_fx_reverb: the first sz samples of data, one after the other,
     * through the reverberator; each is replaced by the sample written back
     * and the rest of data is untouched.
     */
    method Process(data: array<int>, sz: nat)
      requires Valid() && sz <= data.Length
      modifies data, combs, CombBuffers(), allpasses, AllpassBuffers()
      ensures Valid()
      ensures var run := Run(old(State()), MixNow(), old(data[..]), sz);
              State() == run.0 && data[..sz] == run.1
      ensures data[sz..] == old(data[sz..])
    {
      ghost var l0, m, d0 := State(), MixNow(), data[..];
      assert l0.Valid() && |d0| == data.Length;
      var i := 0;
      while i < sz
        invariant 0 <= i <= sz && Valid() && MixNow() == m
        invariant State() == Run(l0, m, d0, i).0
        invariant data[..] == Run(l0, m, d0, i).1 + d0[i..]
      {
        ghost var before := data[..];
        ProcessAt(data, i);
        RunWritesBack(l0, m, d0, i, before);
        i := i + 1;
      }
      assert data[..] == Run(l0, m, d0, sz).1 + d0[sz..];
    }

    /**
     * reverb_set_params with the four parameters, then fine_fx_reverb over
     * the first sz samples of data: the lines retuned to the new room and
     * damp run under the new mix.
     */
    method Reverberate(data: array<int>, sz: nat, roomsize': real, damp': real, wet': real, dry': real,
                       ghost l: Lines, ghost xs: seq<int>)
      requires Valid() && sz <= data.Length && State() == l && data[..] == xs
      modifies this, combs, CombBuffers(), allpasses, AllpassBuffers(), data
      ensures Valid() && roomsize == roomsize' && damp == damp' && wet == wet' && dry == dry'
      ensures var run := Run(Retuned(l, CombCoefficients(roomsize', damp')), MixOf(wet', dry'), xs, sz);
              State() == run.0 && data[..sz] == run.1
      ensures data[sz..] == xs[sz..]
    {
      assert l.Valid();
      SetParams(roomsize', damp', wet', dry');
      Process(data, sz);
    }

    /** Sample i of data through the reverberator, written back in place. */
    method ProcessAt(data: array<int>, i: nat)
      requires Valid() && i < data.Length
      modifies data, combs, CombBuffers(), allpasses, AllpassBuffers()
      ensures Valid() && MixNow() == old(MixNow())
      ensures var step := SampleStep(old(State()), MixNow(), old(data[i]));
              State() == step.0 && data[..] == old(data[..])[i := step.1]
    {
      var y := ProcessSample(data[i]);
      data[i] := y;
    }

    /**
     * reverb_init: every delay line zeroed with its position at 0 and its
     * buffer as long as its tuning constant, the allpass feedback fixed at
     * 0.5, the initial parameters stored and the coefficients derived
     * from them by reverb_update.
     */
    constructor ()
      ensures Valid() && Silent(State())
      ensures fresh(combs) && fresh(allpasses) && fresh(CombBuffers()) && fresh(AllpassBuffers())
      ensures roomsize == INITIAL_ROOM && damp == INITIAL_DAMP && wet == INITIAL_WET && dry == INITIAL_DRY
      ensures MixNow() == MixOf(INITIAL_WET, INITIAL_DRY)
      ensures forall j :: 0 <= j < NUM_COMBS ==>
                var c := CombStates()[j];
                c.bufidx == 0 && (c.feedback, c.damp1, c.damp2) == CombCoefficients(INITIAL_ROOM, INITIAL_DAMP)
      ensures forall j :: 0 <= j < NUM_ALLPASSES ==>
                AllpassStates()[j].bufidx == 0 && AllpassStates()[j].feedback == ALLPASS_FEEDBACK
    {
      var cs, aps := NewLines();
      combs, allpasses := cs, aps;
      gain, wetScaled, dryScaled := 0.0, 0.0, 0.0;
      roomsize, damp, wet, dry := INITIAL_ROOM, INITIAL_DAMP, INITIAL_WET, INITIAL_DRY;
      new;
      Link();
    }

    /** Delay lines as reverb_init allocates them: tuned, distinct, zeroed, every position at 0. */
    static ghost predicate ZeroedLines(cs: seq<CombFilter>, aps: seq<AllpassFilter>)
      reads cs, aps, set j | 0 <= j < |cs| :: cs[j].buffer, set j | 0 <= j < |aps| :: aps[j].buffer
    {
      && Tuned(cs, aps) && Distinct(cs, aps)
      && (forall j :: 0 <= j < |cs| ==> cs[j].Valid() && cs[j].bufidx == 0 && SilentComb(cs[j].State()))
      && (forall j :: 0 <= j < |aps| ==> aps[j].Valid() && aps[j].bufidx == 0 && Zeros(aps[j].State().buffer))
    }

    /** The allocation part of reverb_init: eight combs and four allpasses on fresh zeroed buffers. */
    static method NewLines() returns (cs: seq<CombFilter>, aps: seq<AllpassFilter>)
      ensures fresh(cs) && fresh(aps)
      ensures fresh(set j | 0 <= j < |cs| :: cs[j].buffer) && fresh(set j | 0 <= j < |aps| :: aps[j].buffer)
      ensures ZeroedLines(cs, aps)
    {
      cs := NewCombs();
      aps := NewAllpasses();
    }

    /**
     * The part of reverb_init after the buffers are linked and the initial
     * parameters stored: the fixed allpass feedback, then reverb_update.
     */
    method Link()
      requires ZeroedLines(combs, allpasses)
      requires roomsize == INITIAL_ROOM && damp == INITIAL_DAMP && wet == INITIAL_WET && dry == INITIAL_DRY
      modifies this`gain, this`wetScaled, this`dryScaled, combs, allpasses
      ensures Valid() && Silent(State())
      ensures MixNow() == MixOf(INITIAL_WET, INITIAL_DRY)
      ensures forall j :: 0 <= j < NUM_COMBS ==>
                var c := CombStates()[j];
                c.bufidx == 0 && (c.feedback, c.damp1, c.damp2) == CombCoefficients(INITIAL_ROOM, INITIAL_DAMP)
      ensures forall j :: 0 <= j < NUM_ALLPASSES ==>
                AllpassStates()[j].bufidx == 0 && AllpassStates()[j].feedback == ALLPASS_FEEDBACK
    {
      assert Valid() && Silent(State());
      ghost var c0, a0 := CombStates(), AllpassStates();
      FixAllpassFeedback();
      Update();
      assert forall j :: 0 <= j < NUM_COMBS ==> CombStates()[j] == Retune(c0[j], CombCoefficients(roomsize, damp));
      assert forall j :: 0 <= j < NUM_ALLPASSES ==> AllpassStates()[j] == a0[j].(feedback := ALLPASS_FEEDBACK);
    }

    /** The eight comb filters of reverb_init, linked to fresh zeroed buffers of the comb tunings. */
    static method NewCombs() returns (cs: seq<CombFilter>)
      ensures |cs| == NUM_COMBS
      ensures forall j :: 0 <= j < NUM_COMBS ==>
                && fresh(cs[j]) && fresh(cs[j].buffer) && cs[j].buffer.Length == COMB_TUNING[j]
                && cs[j].Valid() && cs[j].bufidx == 0 && SilentComb(cs[j].State())
      ensures forall j, k :: 0 <= j < NUM_COMBS && 0 <= k < NUM_COMBS && j != k ==>
                cs[j] != cs[k] && cs[j].buffer != cs[k].buffer
    {
      cs := [];
      while |cs| < NUM_COMBS
        invariant |cs| <= NUM_COMBS
        invariant forall j :: 0 <= j < |cs| ==>
                    && fresh(cs[j]) && fresh(cs[j].buffer) && cs[j].buffer.Length == COMB_TUNING[j]
                    && cs[j].Valid() && cs[j].bufidx == 0 && SilentComb(cs[j].State())
        invariant forall j, k :: 0 <= j < |cs| && 0 <= k < |cs| && j != k ==>
                    cs[j] != cs[k] && cs[j].buffer != cs[k].buffer
      {
        var c := new CombFilter(COMB_TUNING[|cs|]);
        cs := cs + [c];
      }
    }

    /** The four allpass filters of reverb_init, linked to fresh zeroed buffers of the allpass tunings. */
    static method NewAllpasses() returns (aps: seq<AllpassFilter>)
      ensures |aps| == NUM_ALLPASSES
      ensures forall j :: 0 <= j < NUM_ALLPASSES ==>
                && fresh(aps[j]) && fresh(aps[j].buffer) && aps[j].buffer.Length == ALLPASS_TUNING[j]
                && aps[j].Valid() && aps[j].bufidx == 0 && Zeros(aps[j].State().buffer)
      ensures forall j, k :: 0 <= j < NUM_ALLPASSES && 0 <= k < NUM_ALLPASSES && j != k ==>
                aps[j] != aps[k] && aps[j].buffer != aps[k].buffer
    {
      aps := [];
      while |aps| < NUM_ALLPASSES
        invariant |aps| <= NUM_ALLPASSES
        invariant forall j :: 0 <= j < |aps| ==>
                    && fresh(aps[j]) && fresh(aps[j].buffer) && aps[j].buffer.Length == ALLPASS_TUNING[j]
                    && aps[j].Valid() && aps[j].bufidx == 0 && Zeros(aps[j].State().buffer)
        invariant forall j, k :: 0 <= j < |aps| && 0 <= k < |aps| && j != k ==>
                    aps[j] != aps[k] && aps[j].buffer != aps[k].buffer
      {
        var a := new AllpassFilter(ALLPASS_TUNING[|aps|]);
        aps := aps + [a];
      }
    }

    /** The first loop of reverb_init: every allpass filter's feedback set to 0.5, nothing else changed. */
    method FixAllpassFeedback()
      requires Valid()
      modifies allpasses
      ensures Valid() && CombStates() == old(CombStates())
      ensures forall j :: 0 <= j < NUM_ALLPASSES ==>
                AllpassStates()[j] == old(AllpassStates())[j].(feedback := ALLPASS_FEEDBACK)
    {
      ghost var a0 := AllpassStates();
      var i := 0;
      while i < NUM_ALLPASSES
        invariant 0 <= i <= NUM_ALLPASSES && Valid() && CombStates() == old(CombStates())
        invariant forall j :: 0 <= j < i ==> AllpassStates()[j] == a0[j].(feedback := ALLPASS_FEEDBACK)
        invariant forall j :: i <= j < NUM_ALLPASSES ==> AllpassStates()[j] == a0[j]
      {
        SetAllpassFeedback(i);
        i := i + 1;
      }
    }

    /** The fixed feedback written into allpass filter j (one pass of the first loop of reverb_init). */
    method SetAllpassFeedback(j: nat)
      requires Valid() && j < |allpasses|
      modifies allpasses[j]
      ensures Valid()
      ensures AllpassStates() == old(AllpassStates())[j := old(AllpassStates())[j].(feedback := ALLPASS_FEEDBACK)]
      ensures CombStates() == old(CombStates())
    {
      allpasses[j].feedback := ALLPASS_FEEDBACK;
    }

    /** The coefficients k written into comb filter j (one pass of the loop of reverb_update). */
    method TuneComb(j: nat, k: (real, real, real))
      requires Valid() && j < |combs|
      modifies combs[j]
      ensures Valid()
      ensures CombStates() == old(CombStates())[j := Retune(old(CombStates())[j], k)]
      ensures AllpassStates() == old(AllpassStates())
    {
      combs[j].feedback := k.0;
      combs[j].damp1 := k.1;
      combs[j].damp2 := k.2;
    }

    /**
     * reverb_update: the mix coefficients from wet and dry, and every comb
     * filter's coefficients from roomsize and damp; the delay lines and the
     * parameters themselves are untouched.
     */
    method Update()
      requires Valid()
      modifies this`gain, this`wetScaled, this`dryScaled, combs
      ensures Valid() && MixNow() == MixOf(wet, dry)
      ensures forall j :: 0 <= j < NUM_COMBS ==>
                CombStates()[j] == Retune(old(CombStates())[j], CombCoefficients(roomsize, damp))
      ensures AllpassStates() == old(AllpassStates())
    {
      wetScaled := wet * SCALE_WET;
      dryScaled := dry * SCALE_DRY;
      gain := FIXED_GAIN;
      var k := CombCoefficients(roomsize, damp);
      ghost var c0 := CombStates();
      var j := 0;
      while j < NUM_COMBS
        invariant 0 <= j <= NUM_COMBS && Valid() && MixNow() == MixOf(wet, dry)
        invariant forall i :: 0 <= i < j ==> CombStates()[i] == Retune(c0[i], k)
        invariant forall i :: j <= i < NUM_COMBS ==> CombStates()[i] == c0[i]
        invariant AllpassStates() == old(AllpassStates())
      {
        TuneComb(j, k);
        j := j + 1;
      }
    }

    /** reverb_set_params: the four parameters stored, then reverb_update. */
    method SetParams(roomsize': real, damp': real, wet': real, dry': real)
      requires Valid()
      modifies this, combs
      ensures Valid()
      ensures roomsize == roomsize' && damp == damp' && wet == wet' && dry == dry'
      ensures MixNow() == MixOf(wet', dry')
      ensures forall j :: 0 <= j < NUM_COMBS ==>
                CombStates()[j] == Retune(old(CombStates())[j], CombCoefficients(roomsize', damp'))
      ensures AllpassStates() == old(AllpassStates())
      ensures State() == Retuned(old(State()), CombCoefficients(roomsize', damp'))
    {
      roomsize, damp, wet, dry := roomsize', damp', wet', dry';
      Update();
      assert CombStates() == Retuned(old(State()), CombCoefficients(roomsize', damp')).combs;
    }
  }
}
