/**
 * The playback engine of src/fine_audio_io_output_system.c: the pick
 * arrays gen_indices and gen_samples fill, the slot each pick reads, the
 * layout render_recordings gives the segments it renders, and the fade-out
 * countdown of fine_output_read_until. The device writes, the random
 * gains and the fade_out flag of the other threads are inputs.
 */
module OutputSystem {
  import opened FineConfig
  import opened Numerics
  import opened Ring
  import opened Fx
  import opened InputSystem
  import opened Reverb

  // ---------------------------------------------------------------------
  // gen_indices and gen_samples

  /** The number of leading entries gen_indices writes: entry 0 always, then every entry below num. */
  function Written(num: nat): (w: nat)
    ensures w >= 1 && w >= num && (num >= 1 ==> w == num)
  {
    Max(num, 1)
  }

  /**
   * gen_indices: entry i becomes i for every i below num, and entry 0
   * also when num is 0; the other entries keep what they held. The
   * array has OPT_NUM_RECORDINGS entries, so num may not exceed that.
   */
  method GenIndices(arr: array<nat>, num: nat)
    requires arr.Length == OPT_NUM_RECORDINGS && num <= OPT_NUM_RECORDINGS
    modifies arr
    ensures forall i :: 0 <= i < arr.Length ==> arr[i] == if i < Written(num) then i else old(arr[i])
  {
    var idx := 0;
    arr[idx] := 0;
    idx := idx + 1;
    while idx < num
      invariant 1 <= idx <= Written(num)
      invariant forall i :: 0 <= i < arr.Length ==> arr[i] == if i < idx then i else old(arr[i])
    {
      arr[idx] := idx;
      idx := idx + 1;
    }
  }

  /** gen_samples: every one of the OPT_NUM_RECORDINGS entries becomes maxNum. */
  method GenSamples(arr: array<nat>, maxNum: nat)
    requires arr.Length == OPT_NUM_RECORDINGS
    modifies arr
    ensures forall i :: 0 <= i < arr.Length ==> arr[i] == maxNum
  {
    var i := 0;
    while i < OPT_NUM_RECORDINGS
      invariant 0 <= i <= OPT_NUM_RECORDINGS
      invariant forall k :: 0 <= k < i ==> arr[k] == maxNum
    {
      arr[i] := maxNum;
      i := i + 1;
    }
  }

  // ---------------------------------------------------------------------
  // The slot a pick reads

  /**
   * The slot render_recordings reads for the pick distance d:
   * (rec_idx - 1 - d) mod MAX_NUM_REC, the recording d places before the
   * newest one, in exact integer arithmetic.
   */
  function SlotOf(recIdx: nat, d: nat, max: nat): (s: nat)
    requires max > 0
    ensures s < max
  {
    (recIdx - 1 - d) % max
  }

  /** Stepping d + 1 places on from the slot read lands on rec_idx: the slot is d places before the newest. */
  lemma SlotIsDistance(recIdx: nat, d: nat, max: nat)
    requires 0 < max && recIdx < max
    ensures (SlotOf(recIdx, d, max) + d + 1) % max == recIdx
  {
    var s := SlotOf(recIdx, d, max);
    var q := (recIdx - 1 - d) / max;
    assert recIdx - 1 - d == q * max + s;
    assert s + d + 1 == recIdx + (-q) * max;
    ModAddMul(recIdx, -q, max);
    ModRange(recIdx, max);
  }

  /**
   * The rule of the comment in gen_indices: a pick reads rec_idx, the
   * slot the capture thread is writing, exactly when its distance is
   * MAX_NUM_REC - 1 modulo MAX_NUM_REC.
   */
  lemma SafetyRule(recIdx: nat, d: nat, max: nat)
    requires 0 < max && recIdx < max
    ensures SlotOf(recIdx, d, max) == recIdx <==> d % max == max - 1
  {
    var s := SlotOf(recIdx, d, max);
    var q := (recIdx - 1 - d) / max;
    assert recIdx - 1 - d == q * max + s;
    var r := d / max;
    assert d == r * max + d % max;
    if s == recIdx {
      // d + 1 is a multiple of max, so d leaves max - 1
      assert d + 1 == (-q) * max;
      assert d == (-q - 1) * max + (max - 1);
      ModUnique(d, -q - 1, max - 1, max);
    } else if d % max == max - 1 {
      assert recIdx - 1 - d == (-r - 1) * max + recIdx;
      ModUnique(recIdx - 1 - d, -r - 1, recIdx, max);
    }
  }

  /** 2^64: start_idx and the distance are size_t values. */
  const SIZE_T_MOD: nat := 0x1_0000_0000_0000_0000

  /** The slot as the code computes it: rec_idx - 1 and the subtraction wrap in size_t before % MAX_NUM_REC. */
  function SlotAsWritten(recIdx: nat, d: nat, max: nat): (s: nat)
    requires max > 0
    ensures s < max
  {
    var startIdx := (recIdx - 1) % SIZE_T_MOD;
    ((startIdx - d) % SIZE_T_MOD) % max
  }

  /** While rec_idx - 1 - d does not wrap the two agree. */
  lemma SlotAsWrittenAgrees(recIdx: nat, d: nat, max: nat)
    requires max > 0 && d < recIdx < SIZE_T_MOD
    ensures SlotAsWritten(recIdx, d, max) == SlotOf(recIdx, d, max)
  {
    ModUnique(recIdx - 1, 0, recIdx - 1, SIZE_T_MOD);
    ModUnique(recIdx - 1 - d, 0, recIdx - 1 - d, SIZE_T_MOD);
  }

  /**
   * When it does wrap and MAX_NUM_REC is not a power of two it reads the
   * wrong slot: with three slots and rec_idx 0 the newest recording is in
   * slot 2, but the code reads slot 0, the slot being written.
   */
  lemma SlotAsWrittenWraps()
    ensures SlotOf(0, 0, 3) == 2
    ensures SlotAsWritten(0, 0, 3) == 0
  {
    ModUnique(-1, -1, SIZE_T_MOD - 1, SIZE_T_MOD);
    ModUnique(SIZE_T_MOD - 1, 0, SIZE_T_MOD - 1, SIZE_T_MOD);
    ModUnique(SIZE_T_MOD - 1, (SIZE_T_MOD - 1) / 3, 0, 3);
  }

  // ---------------------------------------------------------------------
  // How many picks

  /**
   * fine_thread_output passes rec_csz to gen_indices. Once the archive
   * holds more than OPT_NUM_RECORDINGS recordings that writes past the
   * 10-entry array, and once a full archive has at most 10 slots it picks
   * the distance MAX_NUM_REC - 1, which reads the slot being written.
   */
  lemma FullArchivePicksAsWritten(p: Params, recIdx: nat)
    requires p.Valid() && recIdx < p.maxNumRec
    ensures p.maxNumRec > OPT_NUM_RECORDINGS ==> Written(p.maxNumRec) > OPT_NUM_RECORDINGS
    ensures p.maxNumRec <= OPT_NUM_RECORDINGS ==>
              p.maxNumRec - 1 < Written(p.maxNumRec) &&
              SlotOf(recIdx, p.maxNumRec - 1, p.maxNumRec) == recIdx
  {
    ModRange(p.maxNumRec - 1, p.maxNumRec);
    SafetyRule(recIdx, p.maxNumRec - 1, p.maxNumRec);
  }

  /** The count the engine evidently means to pass: rec_csz, kept below both the array size and MAX_NUM_REC - 1. */
  function PickCount(recCsz: nat, max: nat): (num: nat)
    ensures num <= OPT_NUM_RECORDINGS && num <= recCsz
    ensures max >= 2 ==> num <= max - 1
  {
    Min(recCsz, Min(OPT_NUM_RECORDINGS, Max(max, 1) - 1))
  }

  /** Every distance gen_indices writes for PickCount stays clear of the slot being written. */
  lemma PickCountIsSafe(recCsz: nat, recIdx: nat, max: nat, d: nat)
    requires max >= 2 && recIdx < max && d < Written(PickCount(recCsz, max))
    ensures d < max - 1 && SlotOf(recIdx, d, max) != recIdx
  {
    ModRange(d, max);
    SafetyRule(recIdx, d, max);
  }

  // ---------------------------------------------------------------------
  // render_recordings: the specification

  /** The fade-in and fade-out lengths render_recordings gives fine_fx_fade_linear. */
  const FADE_LEN: nat := 48000

  /**
   * One rendered segment: the copied samples amplified by gain, passed
   * through the compressor, then faded in and out over FADE_LEN samples.
   */
  function Segment(rec: seq<int>, gain: real, compress: seq<int> -> seq<int>): (seg: seq<int>)
    requires IsCompressor(compress)
    ensures |seg| == |rec|
  {
    Faded(compress(Amplified(rec, |rec|, gain)), |rec|, FADE_LEN, FADE_LEN)
  }

  /** The sum of the first k lengths: where segment k starts (ind_towrite before pass k). */
  function Off(ns: seq<nat>, k: nat): nat
    requires k <= |ns|
  {
    if k == 0 then 0 else Off(ns, k - 1) + ns[k - 1]
  }

  /** Offsets grow along the segments. */
  lemma {:induction false} OffMonotone(ns: seq<nat>, j: nat, k: nat)
    requires j <= k <= |ns|
    ensures Off(ns, j) <= Off(ns, k)
    decreases k
  {
    if j < k {
      OffMonotone(ns, j, k - 1);
    }
  }

  /** buf with seg copied in at position at (one memcpy). */
  function Place(buf: seq<int>, at: nat, seg: seq<int>): (r: seq<int>)
    requires at + |seg| <= |buf|
    ensures |r| == |buf|
    ensures forall p :: 0 <= p < |buf| ==> r[p] == if at <= p < at + |seg| then seg[p - at] else buf[p]
  {
    buf[..at] + seg + buf[at + |seg|..]
  }

  /** The buffer after the first k segments are laid end to end from position 0. */
  function Laid(buf: seq<int>, segs: seq<seq<int>>, ns: seq<nat>, k: nat): (r: seq<int>)
    requires |segs| == |ns| && k <= |ns| && Off(ns, |ns|) <= |buf|
    requires forall i :: 0 <= i < |ns| ==> |segs[i]| == ns[i]
    ensures |r| == |buf|
  {
    if k == 0 then buf
    else
      OffMonotone(ns, k, |ns|);
      Place(Laid(buf, segs, ns, k - 1), Off(ns, k - 1), segs[k - 1])
  }

  /**
   * Segment j sits at [Off(j), Off(j) + ns[j]) and no later segment
   * overwrites it; from the end of the last segment laid, the buffer is
   * as it was.
   */
  lemma LaidAt(buf: seq<int>, segs: seq<seq<int>>, ns: seq<nat>, k: nat)
    requires |segs| == |ns| && k <= |ns| && Off(ns, |ns|) <= |buf|
    requires forall i :: 0 <= i < |ns| ==> |segs[i]| == ns[i]
    ensures forall j :: 0 <= j < k ==> Off(ns, j) + ns[j] <= |buf|
    ensures forall j, p :: 0 <= j < k && Off(ns, j) <= p < Off(ns, j) + ns[j] ==>
              Laid(buf, segs, ns, k)[p] == segs[j][p - Off(ns, j)]
    ensures forall p :: Off(ns, k) <= p < |buf| ==> Laid(buf, segs, ns, k)[p] == buf[p]
  {
    forall j | 0 <= j < k
      ensures Off(ns, j) + ns[j] <= |buf|
    {
      OffMonotone(ns, j + 1, |ns|);
    }
    forall j, p | 0 <= j < k && Off(ns, j) <= p < Off(ns, j) + ns[j]
      ensures Laid(buf, segs, ns, k)[p] == segs[j][p - Off(ns, j)]
    {
      LaidSegment(buf, segs, ns, k, j, p);
    }
    forall p | Off(ns, k) <= p < |buf|
      ensures Laid(buf, segs, ns, k)[p] == buf[p]
    {
      LaidKeeps(buf, segs, ns, k, p);
    }
  }

  /** One sample of segment j in the buffer after k > j segments are laid. */
  lemma {:induction false} LaidSegment(buf: seq<int>, segs: seq<seq<int>>, ns: seq<nat>, k: nat, j: nat, p: nat)
    requires |segs| == |ns| && k <= |ns| && Off(ns, |ns|) <= |buf|
    requires forall i :: 0 <= i < |ns| ==> |segs[i]| == ns[i]
    requires j < k && Off(ns, j) <= p < Off(ns, j) + ns[j]
    ensures p < |buf| && Laid(buf, segs, ns, k)[p] == segs[j][p - Off(ns, j)]
    decreases k
  {
    assert Off(ns, j + 1) == Off(ns, j) + ns[j];
    OffMonotone(ns, j + 1, |ns|);
    OffMonotone(ns, k, |ns|);
    var prev := Laid(buf, segs, ns, k - 1);
    var at := Off(ns, k - 1);
    var seg := segs[k - 1];
    assert Laid(buf, segs, ns, k) == Place(prev, at, seg);
    if j < k - 1 {
      OffMonotone(ns, j + 1, k - 1);
      assert p < at;
      assert Place(prev, at, seg)[p] == prev[p];
      LaidSegment(buf, segs, ns, k - 1, j, p);
    } else {
      assert at == Off(ns, j) && |seg| == ns[j];
      assert Place(prev, at, seg)[p] == seg[p - at];
    }
  }

  /** A position past the first k segments still holds its old sample. */
  lemma {:induction false} LaidKeeps(buf: seq<int>, segs: seq<seq<int>>, ns: seq<nat>, k: nat, p: nat)
    requires |segs| == |ns| && k <= |ns| && Off(ns, |ns|) <= |buf|
    requires forall i :: 0 <= i < |ns| ==> |segs[i]| == ns[i]
    requires Off(ns, k) <= p < |buf|
    ensures Laid(buf, segs, ns, k)[p] == buf[p]
    decreases k
  {
    if k > 0 {
      OffMonotone(ns, k, |ns|);
      LaidKeeps(buf, segs, ns, k - 1, p);
    }
  }

  /** The rendered length: the segment lengths and the tail (the doc comment of render_recordings). */
  function RenderedLength(ns: seq<nat>, tail: nat): (n: nat) {
    Off(ns, |ns|) + tail
  }

  /**
   * With every segment RECORDING_SIZE long, the rendered length is
   * exactly the NUM_TAIL_SAMPLES + RECORDING_SIZE * OPT_NUM_RECORDINGS
   * samples fine_thread_output allocates.
   */
  lemma {:induction false} FullSegmentsFit(ns: seq<nat>, size: nat, tail: nat)
    requires forall i :: 0 <= i < |ns| ==> ns[i] == size
    ensures RenderedLength(ns, tail) == tail + size * |ns|
  {
    FullOffsets(ns, size, |ns|);
  }

  lemma {:induction false} FullOffsets(ns: seq<nat>, size: nat, k: nat)
    requires k <= |ns| && forall i :: 0 <= i < |ns| ==> ns[i] == size
    ensures Off(ns, k) == size * k
    decreases k
  {
    if k > 0 {
      FullOffsets(ns, size, k - 1);
    }
  }

  /** memcpy of n samples of src to data + off. */
  method CopySegment(data: array<int>, off: nat, src: array<int>, n: nat)
    requires off + n <= data.Length && n <= src.Length && data != src
    modifies data
    ensures data[..] == Place(old(data[..]), off, src[..n])
  {
    var i := 0;
    while i < n
      invariant 0 <= i <= n
      invariant forall p :: 0 <= p < data.Length ==>
                  data[p] == if off <= p < off + i then src[p - off] else old(data[p])
    {
      data[off + i] := src[i];
      i := i + 1;
    }
    assert forall p :: 0 <= p < data.Length ==> data[p] == Place(old(data[..]), off, src[..n])[p];
  }

  /** One pass of the loop of render_recordings: the copy, the amplifier, the compressor and the fader on data + off. */
  method LaySegment(data: array<int>, off: nat, src: array<int>, n: nat, gain: real, compress: seq<int> -> seq<int>)
    requires off + n <= data.Length && n <= src.Length && data != src && IsCompressor(compress)
    modifies data
    ensures data[..] == Place(old(data[..]), off, Segment(src[..n], gain, compress))
  {
    ghost var orig := data[..];
    ghost var rest := orig[off + n..];
    CopySegment(data, off, src, n);
    assert data[..off] == orig[..off] && data[off..] == src[..n] + rest;
    Amplify(data, off, n, gain);
    AmplifiedSplit(src[..n], rest, gain);
    ghost var amp := Amplified(src[..n], n, gain);
    assert data[..off] == orig[..off] && data[off..] == amp + rest;
    assert data[off..off + n] == amp && data[off + n..] == rest;
    Compress(data, off, n, compress);
    ghost var comp := compress(amp);
    assert data[..off] == orig[..off] && data[off..] == comp + rest;
    FadeLinear(data, off, n, FADE_LEN, FADE_LEN);
    FadedSplit(comp, rest, FADE_LEN, FADE_LEN);
    assert data[..off] == orig[..off] && data[off..] == Segment(src[..n], gain, compress) + rest;
    assert data[..] == data[..off] + data[off..];
  }

  // ---------------------------------------------------------------------
  // render_recordings: laying the segments in place

  /**
   * The segments render_recordings lays: pass i reads the first ns[i]
   * samples of the slot indices[i] places behind the newest recording,
   * scales them by gains[i], compresses them and fades them in and out
   * over FADE_LEN samples.
   */
  function Segments(contents: seq<seq<int>>, recIdx: nat, idx: seq<nat>, ns: seq<nat>, gains: seq<real>,
                    compress: seq<int> -> seq<int>): (segs: seq<seq<int>>)
    requires |contents| > 0 && |idx| == |ns| == |gains| && IsCompressor(compress)
    requires forall i :: 0 <= i < |ns| ==> ns[i] <= |contents[SlotOf(recIdx, idx[i], |contents|)]|
    ensures |segs| == |ns|
    ensures forall i :: 0 <= i < |ns| ==>
              segs[i] == Segment(contents[SlotOf(recIdx, idx[i], |contents|)][..ns[i]], gains[i], compress)
  {
    seq(|ns|, i requires 0 <= i < |ns| =>
      Segment(contents[SlotOf(recIdx, idx[i], |contents|)][..ns[i]], gains[i], compress))
  }

  /** Laying segment i over the first i segments lays the first i + 1. */
  lemma LaidNext(buf: seq<int>, segs: seq<seq<int>>, ns: seq<nat>, i: nat)
    requires |segs| == |ns| && i < |ns| && Off(ns, |ns|) <= |buf|
    requires forall j :: 0 <= j < |ns| ==> |segs[j]| == ns[j]
    ensures Off(ns, i) + |segs[i]| <= |buf|
    ensures Place(Laid(buf, segs, ns, i), Off(ns, i), segs[i]) == Laid(buf, segs, ns, i + 1)
  {
    OffMonotone(ns, i + 1, |ns|);
    assert Off(ns, i + 1) == Off(ns, i) + ns[i];
  }

  /** Past the laid segments the buffer keeps its samples. */
  lemma LaidTail(buf: seq<int>, segs: seq<seq<int>>, ns: seq<nat>, n: nat)
    requires |segs| == |ns| && Off(ns, |ns|) <= n <= |buf|
    requires forall j :: 0 <= j < |ns| ==> |segs[j]| == ns[j]
    ensures Laid(buf, segs, ns, |ns|)[n..] == buf[n..]
  {
    LaidAt(buf, segs, ns, |ns|);
  }

  /**
   * The loop of render_recordings: pass i copies num_samples[i] samples
   * of the slot indices[i] places behind the newest recording to
   * ind_towrite, amplifies, compresses and fades them there, and moves
   * ind_towrite on by num_samples[i].
   */
  method LayAll(data: array<int>, sys: ASys, indices: seq<nat>, numSamples: seq<nat>, gains: seq<real>,
                compress: seq<int> -> seq<int>)
    returns (off: nat)
    requires sys.Valid() && IsCompressor(compress)
    requires |indices| == OPT_NUM_RECORDINGS && |numSamples| == OPT_NUM_RECORDINGS
    requires |gains| == OPT_NUM_RECORDINGS
    requires forall i :: 0 <= i < OPT_NUM_RECORDINGS ==> numSamples[i] <= sys.params.recordingSize
    requires Off(numSamples, |numSamples|) <= data.Length
    requires data !in sys.Slots()
    modifies data
    ensures off == Off(numSamples, |numSamples|)
    ensures data[..] == Laid(old(data[..]), Segments(old(sys.Contents()), sys.recIdx, indices, numSamples, gains, compress),
                             numSamples, |numSamples|)
  {
    ghost var d0 := data[..];
    ghost var ns := numSamples;
    ghost var segs := Segments(sys.Contents(), sys.recIdx, indices, ns, gains, compress);
    var max := sys.params.maxNumRec;
    off := 0;
    var i := 0;
    while i < OPT_NUM_RECORDINGS
      invariant 0 <= i <= OPT_NUM_RECORDINGS
      invariant off == Off(ns, i)
      invariant data[..] == Laid(d0, segs, ns, i)
    {
      LaidNext(d0, segs, ns, i);
      var rec := sys.recArr[SlotOf(sys.recIdx, indices[i], max)];
      assert rec.data in sys.Slots();
      LaySegment(data, off, rec.data, numSamples[i], gains[i], compress);
      off := off + numSamples[i];
      i := i + 1;
    }
  }

  /**
   * render_recordings: the OPT_NUM_RECORDINGS segments laid end to end
   * from the start of data, then the reverb retuned with room r1, damp
   * r2, wet r1 and dry 1 - r1 and run over the segments and the
   * num_tail_samples that follow them. The random draws are the inputs
   * gains (4*ampfac/RAND_MAX per pass), r1 and r2; compress is
   * fine_fx_compress with the settings of the call.
   */
  method Render(data: array<int>, sys: ASys, indices: seq<nat>, numSamples: seq<nat>, tail: nat,
                gains: seq<real>, r1: real, r2: real, rvb: ReverbModel, compress: seq<int> -> seq<int>)
    returns (n: nat)
    requires sys.Valid() && rvb.Valid() && IsCompressor(compress)
    requires |indices| == OPT_NUM_RECORDINGS && |numSamples| == OPT_NUM_RECORDINGS
    requires |gains| == OPT_NUM_RECORDINGS
    requires forall i :: 0 <= i < OPT_NUM_RECORDINGS ==> numSamples[i] <= sys.params.recordingSize
    requires RenderedLength(numSamples, tail) <= data.Length
    requires data !in sys.Slots()
    modifies data, rvb, rvb.combs, rvb.CombBuffers(), rvb.allpasses, rvb.AllpassBuffers()
    ensures n == RenderedLength(numSamples, tail)
    ensures rvb.Valid() && rvb.roomsize == r1 && rvb.damp == r2 && rvb.wet == r1 && rvb.dry == 1.0 - r1
    ensures var segs := Segments(old(sys.Contents()), old(sys.recIdx), indices, numSamples, gains, compress);
            var laid := Laid(old(data[..]), segs, numSamples, |numSamples|);
            var run := Run(Retuned(old(rvb.State()), CombCoefficients(rvb.roomsize, rvb.damp)), MixOf(rvb.wet, rvb.dry), laid, n);
            data[..n] == run.1 && data[n..] == old(data[n..]) && rvb.State() == run.0
  {
    ghost var d0 := data[..];
    ghost var l0 := rvb.State();
    ghost var segs := Segments(sys.Contents(), sys.recIdx, indices, numSamples, gains, compress);
    var off := LayAll(data, sys, indices, numSamples, gains, compress);
    n := off + tail;
    ghost var laid := data[..];
    LaidTail(d0, segs, numSamples, n);
    assert rvb.State() == l0;
    var room, damp, wet, dry := r1, r2, r1, 1.0 - r1;
    rvb.Reverberate(data, n, room, damp, wet, dry, l0, laid);
  }

  // ---------------------------------------------------------------------
  // fine_output_read_until

  /** The fade step: gain drops by 0.125 on every pass once a fade is on. */
  const FADE_STEP: real := 0.125

  /** The loop of fine_output_read_until runs while the gain exceeds this. */
  const SILENT_GAIN: real := 0.01

  /**
   * What one pass of fine_output_read_until meets from the outside: the
   * fade_out flag as it reads it at the top of the pass, and the number
   * of frames snd_pcm_writei accepts (the first successful return after
   * any failed attempts, which are retried).
   */
  datatype Chunk = Chunk(fadeRequested: bool, accepted: nat)

  /**
   * The state of fine_output_read_until between passes: the frames left,
   * the gain, the do_fade latch, the number of passes made while fading,
   * the buffer, and the frames handed to the device so far.
   */
  datatype Playback = Playback(left: nat, gain: real, doFade: bool, faded: nat, data: seq<int>, played: seq<int>)

  /** The state before the first pass over the first sz frames of data. */
  function StartPlayback(data: seq<int>, sz: nat): (p: Playback)
    requires sz <= |data|
  {
    Playback(sz, 1.0, false, 0, data, [])
  }

  /** The loop condition: frames left and the gain above 0.01. */
  predicate Playing(p: Playback) {
    p.left > 0 && p.gain > SILENT_GAIN
  }

  /** s with the n samples from off multiplied by gain (data[i] *= gain, a cast back to i16). */
  function Scaled(s: seq<int>, off: nat, n: nat, gain: real): (r: seq<int>)
    requires off + n <= |s|
    ensures |r| == |s|
  {
    seq(|s|, k requires 0 <= k < |s| => if off <= k < off + n then FadeFrame(s[k], gain) else s[k])
  }

  /** One frame times the gain, cast back to an integer sample (toward zero). */
  function FadeFrame(x: int, gain: real): int {
    Trunc(x as real * gain)
  }

  /** With a gain in [0, 1] a scaled frame is no louder than before, so an i16 frame stays i16. */
  lemma FadeFrameShrinks(x: int, gain: real)
    requires 0.0 <= gain <= 1.0
    ensures Abs(FadeFrame(x, gain)) <= Abs(x)
    ensures Min(x, 0) <= FadeFrame(x, gain) <= Max(x, 0)
    ensures IsI16(x) ==> IsI16(FadeFrame(x, gain))
  {
    ScaledWithin(x, gain);
    TruncShrinks(x as real * gain, x);
    if x >= 0 {
      assert 0.0 <= x as real * gain <= x as real;
    } else {
      assert x as real <= x as real * gain <= 0.0;
    }
    TruncWithin(x as real * gain, Min(x, 0), Max(x, 0));
  }

  /** Scaling a buffer of i16 frames by a gain in [0, 1] keeps every frame i16. */
  lemma ScaledStaysI16(s: seq<int>, off: nat, n: nat, gain: real)
    requires off + n <= |s| && 0.0 <= gain <= 1.0
    requires forall k :: 0 <= k < |s| ==> IsI16(s[k])
    ensures forall k :: 0 <= k < |s| ==> IsI16(Scaled(s, off, n, gain)[k])
  {
    forall k | 0 <= k < |s|
      ensures IsI16(Scaled(s, off, n, gain)[k])
    {
      if off <= k < off + n {
        FadeFrameShrinks(s[k], gain);
      }
    }
  }

  /** Scaling one more frame extends the scaled range by one. */
  lemma ScaledStep(s: seq<int>, off: nat, n: nat, gain: real)
    requires off + n < |s|
    ensures Scaled(s, off, n + 1, gain) == Scaled(s, off, n, gain)[off + n := FadeFrame(s[off + n], gain)]
  {
  }

  /** The number of frames pass c writes: towrite = min(left, per_write), cut to what the device accepts. */
  function PassLength(p: Playback, c: Chunk, perWrite: nat): (w: nat)
    ensures w <= p.left && w <= perWrite && w <= c.accepted
    ensures p.left > 0 && perWrite > 0 && c.accepted > 0 ==> w > 0
  {
    Min(Min(p.left, perWrite), c.accepted)
  }

  /**
   * One pass of the loop as written: the fade_out flag latched into
   * do_fade, the next frames handed to the device, and then, when fading,
   * the gain lowered by 0.125 and those same frames scaled in the buffer.
   */
  function Pass(p: Playback, c: Chunk, perWrite: nat, sz: nat): (q: Playback)
    requires p.left <= sz <= |p.data|
    ensures q.left == p.left - PassLength(p, c, perWrite) && q.left <= sz == sz && |q.data| == |p.data|
  {
    var doFade := p.doFade || c.fadeRequested;
    var w := PassLength(p, c, perWrite);
    var start := sz - p.left;
    var gain := if doFade then p.gain - FADE_STEP else p.gain;
    Playback(p.left - w, gain, doFade, if doFade then p.faded + 1 else p.faded,
             if doFade then Scaled(p.data, start, w, gain) else p.data,
             p.played + p.data[start..start + w])
  }

  /** The passes fine_output_read_until makes, pass k meeting chunks[k], until the loop condition fails. */
  function Play(p: Playback, chunks: seq<Chunk>, perWrite: nat, sz: nat): (r: Playback)
    requires p.left <= sz <= |p.data|
    ensures r.left <= p.left && |r.data| == |p.data|
    decreases |chunks|
  {
    if Playing(p) && |chunks| > 0 then Play(Pass(p, chunks[0], perWrite, sz), chunks[1..], perWrite, sz) else p
  }

  /**
   * What every state of the loop satisfies, d0 being the buffer at the
   * call: the gain has dropped by 0.125 once per fading pass and at most
   * eight times, a fading pass needs the latch, the device has received
   * the unscaled samples before the first frame left, and the buffer from
   * there on is untouched.
   */
  ghost predicate Consistent(p: Playback, sz: nat, d0: seq<int>) {
    && p.left <= sz <= |p.data| == |d0|
    && p.faded <= 8 && p.gain == 1.0 - FADE_STEP * p.faded as real
    && (p.faded > 0 ==> p.doFade)
    && p.played == d0[..sz - p.left]
    && p.data[sz - p.left..] == d0[sz - p.left..]
  }

  lemma StartConsistent(d0: seq<int>, sz: nat)
    requires sz <= |d0|
    ensures Consistent(StartPlayback(d0, sz), sz, d0)
  {
  }

  /** A pass made while the loop condition holds keeps the state consistent. */
  lemma PassConsistent(p: Playback, c: Chunk, perWrite: nat, sz: nat, d0: seq<int>)
    requires Consistent(p, sz, d0) && Playing(p)
    ensures Consistent(Pass(p, c, perWrite, sz), sz, d0)
  {
    var q := Pass(p, c, perWrite, sz);
    var w := PassLength(p, c, perWrite);
    var start := sz - p.left;
    assert p.faded < 8;
    PlayedExtends(p.played, p.data, d0, start, w);
    TailKept(p.data, d0, start, w, q.gain);
  }

  /** The device's record grows by the next w samples of the untouched buffer. */
  lemma PlayedExtends(played: seq<int>, data: seq<int>, d0: seq<int>, start: nat, w: nat)
    requires start + w <= |d0| == |data| && played == d0[..start] && data[start..] == d0[start..]
    ensures played + data[start..start + w] == d0[..start + w]
  {
    assert data[start..start + w] == data[start..][..w];
    assert d0[start..start + w] == d0[start..][..w];
    assert d0[..start] + d0[start..start + w] == d0[..start + w];
  }

  /** Past the w frames a pass writes and scales, the buffer is still untouched. */
  lemma TailKept(data: seq<int>, d0: seq<int>, start: nat, w: nat, gain: real)
    requires start + w <= |d0| == |data| && data[start..] == d0[start..]
    ensures data[start + w..] == d0[start + w..]
    ensures Scaled(data, start, w, gain)[start + w..] == d0[start + w..]
  {
    forall k | start + w <= k < |d0|
      ensures data[k] == d0[k]
    {
      assert data[k] == data[start..][k - start];
      assert d0[k] == d0[start..][k - start];
    }
  }

  /** The whole loop keeps the state consistent. */
  lemma {:induction false} PlayConsistent(p: Playback, chunks: seq<Chunk>, perWrite: nat, sz: nat, d0: seq<int>)
    requires Consistent(p, sz, d0)
    ensures Consistent(Play(p, chunks, perWrite, sz), sz, d0)
    decreases |chunks|
  {
    if Playing(p) && |chunks| > 0 {
      PassConsistent(p, chunks[0], perWrite, sz, d0);
      PlayConsistent(Pass(p, chunks[0], perWrite, sz), chunks[1..], perWrite, sz, d0);
    }
  }

  /**
   * The gain countdown: the loop makes at most eight fading passes, the
   * gain it ends with is 1 - 0.125 per fading pass, and a fading pass
   * happens only once the latch is set.
   */
  lemma FadeCountdown(d0: seq<int>, sz: nat, perWrite: nat, chunks: seq<Chunk>)
    requires sz <= |d0|
    ensures var r := Play(StartPlayback(d0, sz), chunks, perWrite, sz);
            r.faded <= 8 && r.gain == 1.0 - FADE_STEP * r.faded as real && (r.faded > 0 ==> r.doFade)
  {
    PlayConsistent(StartPlayback(d0, sz), chunks, perWrite, sz, d0);
  }

  /**
   * The loop stops for one of its two reasons when every pass writes at
   * least one frame and the device answers each pass: all frames are
   * played, or the gain has reached 0 after the eighth fading pass.
   */
  lemma {:induction false} PlayStops(p: Playback, chunks: seq<Chunk>, perWrite: nat, sz: nat, d0: seq<int>)
    requires Consistent(p, sz, d0) && perWrite > 0 && |chunks| >= p.left
    requires forall k :: 0 <= k < |chunks| ==> chunks[k].accepted > 0
    ensures var r := Play(p, chunks, perWrite, sz);
            r.left == 0 || (r.faded == 8 && r.gain == 0.0)
    decreases |chunks|
  {
    if Playing(p) && |chunks| > 0 {
      PassConsistent(p, chunks[0], perWrite, sz, d0);
      PlayStops(Pass(p, chunks[0], perWrite, sz), chunks[1..], perWrite, sz, d0);
    } else if p.left > 0 {
      assert p.gain <= SILENT_GAIN;
    }
  }

  /**
   * The fade is inaudible: whatever the fade requests, the device
   * receives exactly the first sz - left samples of the buffer as it was
   * at the call, because each pass scales its frames only after writing
   * them.
   */
  lemma FadeIsInaudible(d0: seq<int>, sz: nat, perWrite: nat, chunks: seq<Chunk>)
    requires sz <= |d0|
    ensures var r := Play(StartPlayback(d0, sz), chunks, perWrite, sz);
            r.played == d0[..sz - r.left]
  {
    PlayConsistent(StartPlayback(d0, sz), chunks, perWrite, sz, d0);
  }

  /** Without a fade request every frame is played unchanged and the buffer is left as it was. */
  lemma {:induction false} PlayWithoutFade(p: Playback, chunks: seq<Chunk>, perWrite: nat, sz: nat)
    requires p.left <= sz <= |p.data| && p.gain == 1.0 && !p.doFade
    requires perWrite > 0 && |chunks| >= p.left
    requires forall k :: 0 <= k < |chunks| ==> chunks[k].accepted > 0 && !chunks[k].fadeRequested
    ensures var r := Play(p, chunks, perWrite, sz);
            r.left == 0 && r.data == p.data && !r.doFade && r.played == p.played + p.data[sz - p.left..sz]
    decreases |chunks|
  {
    if Playing(p) && |chunks| > 0 {
      var q := Pass(p, chunks[0], perWrite, sz);
      var start, w := sz - p.left, PassLength(p, chunks[0], perWrite);
      PlayWithoutFade(q, chunks[1..], perWrite, sz);
      assert p.data[start..start + w] + p.data[start + w..sz] == p.data[start..sz];
    }
  }

  /** The latch is set only by a request the loop read: no request, no fade. */
  lemma {:induction false} LatchNeedsRequest(p: Playback, chunks: seq<Chunk>, perWrite: nat, sz: nat)
    requires p.left <= sz <= |p.data| && !p.doFade
    ensures Play(p, chunks, perWrite, sz).doFade ==> exists k :: 0 <= k < |chunks| && chunks[k].fadeRequested
    decreases |chunks|
  {
    if Playing(p) && |chunks| > 0 && !chunks[0].fadeRequested {
      LatchNeedsRequest(Pass(p, chunks[0], perWrite, sz), chunks[1..], perWrite, sz);
      if Play(p, chunks, perWrite, sz).doFade {
        var k :| 0 <= k < |chunks[1..]| && chunks[1..][k].fadeRequested;
        assert chunks[k + 1].fadeRequested;
      }
    }
  }

  /** A request read at the first pass of a non-empty buffer latches the fade. */
  lemma {:induction false} RequestLatches(p: Playback, chunks: seq<Chunk>, perWrite: nat, sz: nat)
    requires p.left <= sz <= |p.data| && (p.doFade || (Playing(p) && |chunks| > 0 && chunks[0].fadeRequested))
    ensures Play(p, chunks, perWrite, sz).doFade
    decreases |chunks|
  {
    if Playing(p) && |chunks| > 0 {
      RequestLatches(Pass(p, chunks[0], perWrite, sz), chunks[1..], perWrite, sz);
    }
  }

  /** The scaling loop of one fading pass: data[i] *= gain for the n frames from off. */
  method Scale(data: array<int>, off: nat, n: nat, gain: real)
    requires off + n <= data.Length
    modifies data
    ensures data[..] == Scaled(old(data[..]), off, n, gain)
  {
    ghost var d0 := data[..];
    var i := 0;
    assert d0 == Scaled(d0, off, 0, gain);
    while i < n
      invariant i <= n && data[..] == Scaled(d0, off, i, gain)
    {
      ScaledStep(d0, off, i, gain);
      data[off + i] := FadeFrame(data[off + i], gain);
      i := i + 1;
    }
  }

  /** One pass of the loop of fine_output_read_until (see Pass). */
  method ReadPass(data: array<int>, sz: nat, perWrite: nat, c: Chunk,
                  left: nat, gain: real, doFade: bool, ghost faded: nat, played: seq<int>)
    returns (left': nat, gain': real, doFade': bool, ghost faded': nat, played': seq<int>)
    requires left <= sz <= data.Length
    modifies data
    ensures Playback(left', gain', doFade', faded', data[..], played')
         == Pass(Playback(left, gain, doFade, faded, old(data[..]), played), c, perWrite, sz)
  {
    ghost var p := Playback(left, gain, doFade, faded, data[..], played);
    doFade' := doFade;
    if !doFade && c.fadeRequested {
      doFade' := true;
    }
    var towrite := Min(left, perWrite);
    var written := Min(towrite, c.accepted);
    assert written == PassLength(p, c, perWrite);
    played' := played + data[sz - left..sz - left + written];
    gain', faded' := gain, faded;
    if doFade' {
      gain' := gain - FADE_STEP;
      faded' := faded + 1;
      Scale(data, sz - left, written, gain');
    }
    left' := left - written;
  }

  /**
   * fine_output_read_until over the first sz frames of data, the device
   * answering pass j with chunks[j]: returns the frames handed to the
   * device and whether the fade_out flag was cleared (latched), and leaves
   * the buffer as the passes leave it. The model stops when the answers
   * run out.
   */
  method ReadUntil(data: array<int>, sz: nat, perWrite: nat, chunks: seq<Chunk>) returns (played: seq<int>, cleared: bool)
    requires sz <= data.Length
    modifies data
    ensures var r := Play(StartPlayback(old(data[..]), sz), chunks, perWrite, sz);
            data[..] == r.data && played == r.played && cleared == r.doFade
  {
    ghost var d0 := data[..];
    var left: nat, gain: real, doFade: bool := sz, 1.0, false;
    ghost var faded: nat := 0;
    played := [];
    var j := 0;
    while left > 0 && gain > SILENT_GAIN && j < |chunks|
      invariant j <= |chunks| && left <= sz
      invariant Play(StartPlayback(d0, sz), chunks, perWrite, sz)
             == Play(Playback(left, gain, doFade, faded, data[..], played), chunks[j..], perWrite, sz)
      decreases |chunks| - j
    {
      assert chunks[j..][1..] == chunks[j + 1..];
      left, gain, doFade, faded, played := ReadPass(data, sz, perWrite, chunks[j], left, gain, doFade, faded, played);
      j := j + 1;
    }
    cleared := doFade;
  }

  /**
   * One pass with the order evidently intended: the frames are scaled
   * first and the scaled frames are handed to the device.
   */
  function PassFaded(p: Playback, c: Chunk, perWrite: nat, sz: nat): (q: Playback)
    requires p.left <= sz <= |p.data|
    ensures q.left <= p.left && |q.data| == |p.data|
  {
    var q := Pass(p, c, perWrite, sz);
    var start, w := sz - p.left, PassLength(p, c, perWrite);
    q.(played := p.played + q.data[start..start + w])
  }

  /** The loop of fine_output_read_until with the passes of PassFaded. */
  function PlayFaded(p: Playback, chunks: seq<Chunk>, perWrite: nat, sz: nat): (r: Playback)
    requires p.left <= sz <= |p.data|
    ensures r.left <= p.left && |r.data| == |p.data|
    decreases |chunks|
  {
    if Playing(p) && |chunks| > 0 then PlayFaded(PassFaded(p, chunks[0], perWrite, sz), chunks[1..], perWrite, sz) else p
  }

  /**
   * With the intended order the device hears the buffer as faded: what it
   * has received is always the buffer up to the first frame left, and the
   * buffer, gain, latch and frames left follow the as-written loop exactly.
   */
  lemma {:induction false} PlayFadedHearsFade(p: Playback, chunks: seq<Chunk>, perWrite: nat, sz: nat)
    requires p.left <= sz <= |p.data| && p.played == p.data[..sz - p.left]
    ensures var r, a := PlayFaded(p, chunks, perWrite, sz), Play(p, chunks, perWrite, sz);
            r.played == r.data[..sz - r.left]
            && r.data == a.data && r.left == a.left && r.gain == a.gain && r.doFade == a.doFade
    decreases |chunks|
  {
    if Playing(p) && |chunks| > 0 {
      var q, qa := PassFaded(p, chunks[0], perWrite, sz), Pass(p, chunks[0], perWrite, sz);
      var start, w := sz - p.left, PassLength(p, chunks[0], perWrite);
      assert q.data[..start] == p.data[..start] by {
        assert forall k :: 0 <= k < start ==> q.data[k] == p.data[k];
      }
      assert q.played == q.data[..start + w] by {
        assert q.data[..start + w] == q.data[..start] + q.data[start..start + w];
      }
      assert q == qa.(played := q.played);
      PlayFadedHearsFade(q, chunks[1..], perWrite, sz);
      PlayAgreesBesidesPlayed(q, qa, chunks[1..], perWrite, sz);
    }
  }

  /** Two states that differ only in what has been played evolve alike in everything else. */
  lemma {:induction false} PlayAgreesBesidesPlayed(p: Playback, p': Playback, chunks: seq<Chunk>, perWrite: nat, sz: nat)
    requires p.left <= sz <= |p.data| && p' == p.(played := p'.played)
    ensures var r, r' := PlayFaded(p, chunks, perWrite, sz), Play(p', chunks, perWrite, sz);
            r.data == r'.data && r.left == r'.left && r.gain == r'.gain && r.doFade == r'.doFade
    decreases |chunks|
  {
    if Playing(p) && |chunks| > 0 {
      var q, q' := PassFaded(p, chunks[0], perWrite, sz), Pass(p', chunks[0], perWrite, sz);
      assert q' == q.(played := q'.played);
      PlayAgreesBesidesPlayed(q, q', chunks[1..], perWrite, sz);
    }
  }

  /**
   * The fade is unheard as written: two frames of amplitude 8, one frame
   * per pass, a fade requested at the first pass. The device receives 8, 8
   * while the buffer ends as 7, 6; with the intended order it receives 7, 6.
   */
  lemma FadeUnheard()
    ensures var chunks := [Chunk(true, 1), Chunk(false, 1)];
            var a := Play(StartPlayback([8, 8], 2), chunks, 1, 2);
            var f := PlayFaded(StartPlayback([8, 8], 2), chunks, 1, 2);
            a.played == [8, 8] && a.data == [7, 6] && f.played == [7, 6]
  {
    var chunks := [Chunk(true, 1), Chunk(false, 1)];
    var p0 := StartPlayback([8, 8], 2);
    assert FadeFrame(8, 0.875) == 7;
    assert FadeFrame(8, 0.75) == 6;
    var p1 := Pass(p0, chunks[0], 1, 2);
    assert p1.data == [7, 8];
    assert chunks[1..] == [Chunk(false, 1)];
    var p2 := Pass(p1, chunks[1], 1, 2);
    assert p2.data == [7, 6];
  }
}
