/**
 * The capture engine and the recording archive (src/fine_audio_io_input_system.c).
 *
 * The archive is the shared ASys record: MAX_NUM_REC recordings of up to
 * RECORDING_SIZE samples each, the write index rec_idx, the saturating
 * count rec_csz, and the idle ring buffer of IDLE_BUFSZ samples with its
 * write position idle_buf_idx. The capture device, the two EMA detectors
 * and the clock are outside the model: a period of input is a given block
 * of samples, and each detector decision is a given boolean.
 */
module InputSystem {
  import opened FineConfig
  import opened Ring

  /**
   * One answer of the capture device to a read request inside
   * fine_input_write_until: the frames it returns, and whether the lower
   * EMA, updated with this block, falls below THRESH_LOWER.
   */
  datatype Block = Block(samples: seq<int>, emaBelow: bool)

  /** The frames a read of toread frames delivers: the device never returns more than requested. */
  function Delivered(b: Block, toread: nat): (d: seq<int>)
    ensures |d| <= toread && |d| <= |b.samples|
    ensures d == b.samples[..|d|]
    ensures |b.samples| >= toread ==> |d| == toread
  {
    if |b.samples| <= toread then b.samples else b.samples[..toread]
  }

  /**
   * What fine_input_write_until leaves behind: the samples it stored, in
   * order, and the count it returns.
   */
  datatype Outcome = Outcome(stored: seq<int>, kept: nat)

  /**
   * fine_input_write_until from the answer at index j on, when `left`
   * samples remain to be read in periods of perRead frames. An empty read
   * is retried; the block that brings the EMA below the threshold is still
   * stored but the count returned leaves that block out; no read happens
   * once nothing is left. The count never exceeds what was stored, which
   * never exceeds the space given.
   */
  function ReadUntil(answers: seq<Block>, j: nat, left: nat, perRead: nat): (r: Outcome)
    ensures r.kept <= |r.stored| <= left
    decreases |answers| - j
  {
    if left == 0 || j >= |answers| then Outcome([], 0)
    else
      var d := Delivered(answers[j], Min(left, perRead));
      if |d| == 0 then ReadUntil(answers, j + 1, left, perRead)
      else if answers[j].emaBelow then Outcome(d, 0)
      else
        var rest := ReadUntil(answers, j + 1, left - |d|, perRead);
        Outcome(d + rest.stored, |d| + rest.kept)
  }

  /** Without an early stop, every stored sample is counted. */
  lemma {:induction false} NoStopCountsAll(answers: seq<Block>, j: nat, left: nat, perRead: nat)
    requires forall i :: j <= i < |answers| ==> !answers[i].emaBelow
    ensures ReadUntil(answers, j, left, perRead).kept == |ReadUntil(answers, j, left, perRead).stored|
    decreases |answers| - j
  {
    if left > 0 && j < |answers| {
      var d := Delivered(answers[j], Min(left, perRead));
      if |d| == 0 {
        NoStopCountsAll(answers, j + 1, left, perRead);
      } else {
        NoStopCountsAll(answers, j + 1, left - |d|, perRead);
      }
    }
  }

  /** An early stop: the block that drops the EMA is stored but not counted. */
  lemma StopDiscardsBlock(answers: seq<Block>, j: nat, left: nat, perRead: nat)
    requires left > 0 && j < |answers| && answers[j].emaBelow
    requires |Delivered(answers[j], Min(left, perRead))| > 0
    ensures ReadUntil(answers, j, left, perRead) == Outcome(Delivered(answers[j], Min(left, perRead)), 0)
  {
  }

  /**
   * A loud capture: when every read returns a full period and none stops,
   * enough reads fill the whole space and all of it is counted.
   */
  lemma {:induction false} LoudCaptureFillsSlot(answers: seq<Block>, j: nat, left: nat, perRead: nat)
    requires perRead >= 1 && j <= |answers|
    requires forall i :: j <= i < |answers| ==> !answers[i].emaBelow && |answers[i].samples| >= perRead
    requires (|answers| - j) * perRead >= left
    ensures ReadUntil(answers, j, left, perRead).kept == |ReadUntil(answers, j, left, perRead).stored| == left
    decreases |answers| - j
  {
    if left > 0 {
      assert j < |answers|;
      var d := Delivered(answers[j], Min(left, perRead));
      assert |d| == Min(left, perRead);
      assert (|answers| - (j + 1)) * perRead == (|answers| - j) * perRead - perRead;
      LoudCaptureFillsSlot(answers, j + 1, left - |d|, perRead);
    }
  }

  /**
   * The outcome of the whole call when st has already been stored and
   * counted and the rest of the call starts at answer j with `left`
   * samples to go.
   */
  function After(st: seq<int>, answers: seq<Block>, j: nat, left: nat, perRead: nat): Outcome {
    var r := ReadUntil(answers, j, left, perRead);
    Outcome(st + r.stored, |st| + r.kept)
  }

  /**
   * One read of fine_input_write_until: the read that drops the EMA ends
   * the call; any other read, an empty one included, is stored and
   * counted and the call goes on with the next answer.
   */
  lemma ReadStep(st: seq<int>, answers: seq<Block>, j: nat, left: nat, perRead: nat, d: seq<int>)
    requires j < |answers| && left > 0 && d == Delivered(answers[j], Min(left, perRead))
    ensures |d| > 0 && answers[j].emaBelow ==> After(st, answers, j, left, perRead) == Outcome(st + d, |st|)
    ensures !(|d| > 0 && answers[j].emaBelow) ==>
              After(st, answers, j, left, perRead) == After(st + d, answers, j + 1, left - |d|, perRead)
  {
    if |d| == 0 {
      assert st + d == st;
    } else if !answers[j].emaBelow {
      var rest := ReadUntil(answers, j + 1, left - |d|, perRead).stored;
      assert st + (d + rest) == (st + d) + rest;
    }
  }

  /** buf holds the samples st from index base on. */
  ghost predicate Holds(buf: array<int>, base: nat, st: seq<int>)
    reads buf
  {
    base + |st| <= buf.Length && forall k :: 0 <= k < |st| ==> buf[base + k] == st[k]
  }

  /** Outside [lo, hi), buf still holds the samples orig. */
  ghost predicate KeptOutside(buf: array<int>, orig: seq<int>, lo: nat, hi: nat)
    reads buf
  {
    |orig| == buf.Length && forall i :: 0 <= i < buf.Length && !(lo <= i < hi) ==> buf[i] == orig[i]
  }

  /** buf holds what out stored from base on, and outside that still orig. */
  ghost predicate Wrote(buf: array<int>, base: nat, orig: seq<int>, out: Outcome)
    reads buf
  {
    Holds(buf, base, out.stored) && KeptOutside(buf, orig, base, base + |out.stored|)
  }

  /** Before the first read nothing is stored. */
  lemma Started(answers: seq<Block>, sz: nat, perRead: nat)
    ensures After([], answers, 0, sz, perRead) == ReadUntil(answers, 0, sz, perRead)
  {
    assert [] + ReadUntil(answers, 0, sz, perRead).stored == ReadUntil(answers, 0, sz, perRead).stored;
  }

  /** Once nothing is left to read, or the device has no more answers, the call is over. */
  lemma Finished(st: seq<int>, answers: seq<Block>, j: nat, left: nat, perRead: nat)
    requires left == 0 || j >= |answers|
    ensures After(st, answers, j, left, perRead) == Outcome(st, |st|)
  {
    assert st + [] == st;
  }

  /**
   * Where fine_input_write_until stands: st stored from base on, the rest
   * of buf as it was (orig), and the outcome of the whole call (total)
   * still ahead from answer j with `left` samples to go.
   */
  ghost predicate Progress(buf: array<int>, base: nat, orig: seq<int>, total: Outcome,
                           st: seq<int>, answers: seq<Block>, j: nat, left: nat, perRead: nat)
    reads buf
  {
    && total == After(st, answers, j, left, perRead)
    && Holds(buf, base, st)
    && KeptOutside(buf, orig, base, base + |st|)
  }

  /** snd_pcm_readi storing the frames d right after the samples st already stored. */
  method StoreFrames(buf: array<int>, base: nat, ghost st: seq<int>, ghost orig: seq<int>, at: nat, d: seq<int>)
    requires Holds(buf, base, st) && KeptOutside(buf, orig, base, base + |st|)
    requires at == base + |st| && at + |d| <= buf.Length
    modifies buf
    ensures Holds(buf, base, st + d) && KeptOutside(buf, orig, base, at + |d|)
  {
    var k := 0;
    while k < |d|
      invariant 0 <= k <= |d|
      invariant Holds(buf, base, st + d[..k]) && KeptOutside(buf, orig, base, at + k)
    {
      buf[at + k] := d[k];
      assert st + d[..k + 1] == (st + d[..k]) + [d[k]];
      k := k + 1;
    }
    assert d[..k] == d;
  }

  /**
   * One pass of the loop of fine_input_write_until: read at most
   * min(left, perRead) frames right after the st already stored, and
   * tell whether the EMA fell below the threshold with this block; when
   * it did not, the frames read are stored and counted.
   */
  method ReadPeriod(buf: array<int>, base: nat, ghost orig: seq<int>, ghost total: Outcome, ghost st: seq<int>,
                    at: nat, answers: seq<Block>, j: nat, left: nat, perRead: nat)
    returns (left': nat, ghost st': seq<int>, stop: bool)
    requires j < |answers| && left > 0 && at == base + |st| && at + left <= buf.Length
    requires Progress(buf, base, orig, total, st, answers, j, left, perRead)
    modifies buf
    ensures left' <= left && |st'| == |st| + (left - left')
    ensures stop ==> left' == left && total.kept == |st| && Wrote(buf, base, orig, total)
    ensures !stop ==> Progress(buf, base, orig, total, st', answers, j + 1, left', perRead)
  {
    var d := Delivered(answers[j], Min(left, perRead));
    ReadStep(st, answers, j, left, perRead, d);
    StoreFrames(buf, base, st, orig, at, d);
    // an empty read is retried with nothing stored
    stop := |d| > 0 && answers[j].emaBelow;
    if stop {
      left', st' := left, st;
    } else {
      left', st' := left - |d|, st + d;
    }
  }

  /**
   * fine_input_write_until: reads blocks of at most perRead frames into
   * buf from index base on, until sz frames are read or a block brings the
   * lower EMA below the threshold. Returns the count of samples kept; the
   * samples stored are in buf from base on, and nothing else of buf
   * changes.
   */
  method InputWriteUntil(buf: array<int>, base: nat, sz: nat, answers: seq<Block>, perRead: nat)
    returns (n: nat)
    requires base + sz <= buf.Length
    requires perRead >= 1
    modifies buf
    ensures n == ReadUntil(answers, 0, sz, perRead).kept && n <= sz
    ensures Wrote(buf, base, old(buf[..]), ReadUntil(answers, 0, sz, perRead))
  {
    ghost var total := ReadUntil(answers, 0, sz, perRead);
    ghost var orig := buf[..];
    Started(answers, sz, perRead);
    var left: nat := sz;
    var j := 0;
    var stop := false;
    ghost var st: seq<int> := [];
    while !stop && left > 0 && j < |answers|
      invariant j <= |answers| && left <= sz && |st| == sz - left
      invariant !stop ==> Progress(buf, base, orig, total, st, answers, j, left, perRead)
      invariant stop ==> total.kept == |st| && Wrote(buf, base, orig, total)
      decreases |answers| - j
    {
      left, st, stop := ReadPeriod(buf, base, orig, total, st, base + (sz - left), answers, j, left, perRead);
      j := j + 1;
    }
    if !stop {
      Finished(st, answers, j, left, perRead);
    }
    n := sz - left;
  }

  /**
   * The pre-roll copy: sample i of the recording is the ring sample at
   * (idle_buf_idx + i) mod IDLE_BUFSZ, so the ring lands in the recording
   * oldest sample first.
   */
  method CopyPreroll(dst: array<int>, ring: array<int>, idx: nat)
    requires dst != ring && 0 < ring.Length <= dst.Length && idx < ring.Length
    modifies dst
    ensures Holds(dst, 0, Rotation(ring[..], idx))
    ensures KeptOutside(dst, old(dst[..]), 0, ring.Length)
  {
    ghost var pre := Rotation(ring[..], idx);
    ghost var orig := dst[..];
    var i := 0;
    while i < ring.Length
      invariant 0 <= i <= ring.Length
      invariant Holds(dst, 0, pre[..i]) && KeptOutside(dst, orig, 0, i)
    {
      dst[i] := ring[(idx + i) % ring.Length];
      assert pre[..i + 1] == pre[..i] + [pre[i]];
      i := i + 1;
    }
    assert pre[..i] == pre;
  }

  /** fread into a slot: the samples land from index 0 on, the rest of the slot is untouched. */
  method LoadInto(dst: array<int>, samples: seq<int>)
    requires |samples| <= dst.Length
    modifies dst
    ensures Holds(dst, 0, samples) && KeptOutside(dst, old(dst[..]), 0, |samples|)
  {
    ghost var orig := dst[..];
    var i := 0;
    while i < |samples|
      invariant 0 <= i <= |samples|
      invariant Holds(dst, 0, samples[..i]) && KeptOutside(dst, orig, 0, i)
    {
      dst[i] := samples[i];
      assert samples[..i + 1] == samples[..i] + [samples[i]];
      i := i + 1;
    }
    assert samples[..i] == samples;
  }

  /** One iteration of the capture thread's loop, as the oracles decide it. */
  datatype InputStep = InputStep(
    block: seq<int>,          // the period fine_input_write_buf reads into tmp_buf
    cooldownElapsed: bool,    // seconds since the last capture > IDLE_BUFSZ / SAMPLE_RATE
    triggered: bool,          // ema_upper >= THRESH_UPPER after this period
    answers: seq<Block>)      // the device's answers during a capture

  predicate Captures(s: InputStep) {
    s.cooldownElapsed && s.triggered
  }

  /** The number of steps among the first k that start a capture. */
  function CaptureCount(steps: seq<InputStep>, k: nat): (c: nat)
    requires k <= |steps|
    ensures c <= k
  {
    if k == 0 then 0
    else CaptureCount(steps, k - 1) + (if Captures(steps[k - 1]) then 1 else 0)
  }

  /** One slot of the archive: its length sz and its samples. */
  class Recording {
    var sz: nat
    const data: array<int>

    /** A zeroed slot of the given capacity. */
    constructor (capacity: nat)
      ensures sz == 0 && data.Length == capacity && fresh(data)
      ensures forall i :: 0 <= i < data.Length ==> data[i] == 0
    {
      sz := 0;
      data := new int[capacity](_ => 0);
    }

    /** The slot holds exactly the samples loaded, and beyond them still orig. */
    ghost predicate Loaded(samples: seq<int>, orig: seq<int>)
      reads this, data
    {
      sz == |samples| && Holds(data, 0, samples) && KeptOutside(data, orig, 0, |samples|)
    }

    /** fread of a whole file into this slot. */
    method Load(samples: seq<int>)
      requires |samples| <= data.Length
      modifies this, data
      ensures Loaded(samples, old(data[..]))
    {
      LoadInto(data, samples);
      sz := |samples|;
    }

    /**
     * The samples of one capture into this slot: the pre-roll read from
     * the ring oldest sample first, then what fine_input_write_until
     * stores after it; sz counts the pre-roll and the samples kept.
     */
    method Fill(ring: array<int>, idx: nat, room: nat, answers: seq<Block>, perRead: nat) returns (written: nat)
      requires data != ring && 0 < ring.Length && ring.Length + room == data.Length && idx < ring.Length
      requires perRead >= 1
      modifies this, data
      ensures var out := ReadUntil(answers, 0, room, perRead);
        && written == out.kept
        && Holds(data, 0, Rotation(ring[..], idx))
        && Holds(data, ring.Length, out.stored)
        && KeptOutside(data, old(data[..]), 0, ring.Length + |out.stored|)
        && sz == ring.Length + written <= data.Length
    {
      CopyPreroll(data, ring, idx);
      written := InputWriteUntil(data, ring.Length, room, answers, perRead);
      sz := ring.Length + written;
    }
  }

  /** Every slot has room for size samples and holds no more than that. */
  ghost predicate SlotsFit(recs: seq<Recording>, size: nat)
    reads recs
  {
    forall s :: 0 <= s < |recs| ==> recs[s].data.Length == size && recs[s].sz <= size
  }

  /** The slots and their sample arrays are pairwise distinct, and none is the ring. */
  ghost predicate Separate(recs: seq<Recording>, ring: array<int>) {
    && (forall s :: 0 <= s < |recs| ==> recs[s].data != ring)
    && (forall s, t :: 0 <= s < |recs| && 0 <= t < |recs| && s != t ==>
          recs[s] != recs[t] && recs[s].data != recs[t].data)
  }

  /**
   * Slots 0 .. k-1 of recs hold the first k files, each truncated to
   * limit samples, over the samples origs; every other slot still has the
   * length sizes and the samples origs.
   */
  ghost predicate LoadedUpTo(recs: seq<Recording>, files: seq<seq<int>>, k: nat, limit: nat,
                             origs: seq<seq<int>>, sizes: seq<nat>)
    reads recs, set s | 0 <= s < |recs| :: recs[s].data
  {
    && k <= |files| && k <= |recs| && |origs| == |recs| && |sizes| == |recs|
    && (forall s :: 0 <= s < k ==> recs[s].Loaded(files[s][..Min(|files[s]|, limit)], origs[s]))
    && (forall s :: k <= s < |recs| ==> recs[s].sz == sizes[s] && KeptOutside(recs[s].data, origs[s], 0, 0))
  }

  /** Every slot of recs except slot k keeps its length and its samples. */
  twostate predicate OthersKept(recs: seq<Recording>, k: int)
    reads recs, set s | 0 <= s < |recs| :: recs[s].data
  {
    forall s :: 0 <= s < |recs| && s != k ==> unchanged(recs[s]) && unchanged(recs[s].data)
  }

  /** The shared system record of the two engine threads, as far as the capture engine uses it. */
  class ASys {
    const params: Params
    const idleBuf: array<int>
    var idleBufIdx: nat
    const recArr: seq<Recording>
    var recIdx: nat
    var recCsz: nat
    var play: bool
    var fadeOut: bool

    /** The sample arrays of all slots. */
    ghost function Slots(): set<array<int>>
    {
      set s | 0 <= s < |recArr| :: recArr[s].data
    }

    /** The samples of every slot. */
    ghost function Contents(): (c: seq<seq<int>>)
      reads Slots()
      ensures |c| == |recArr|
    {
      seq(|recArr|, s requires 0 <= s < |recArr| reads Slots() => recArr[s].data[..])
    }

    /** The length of every slot. */
    ghost function Sizes(): (z: seq<nat>)
      reads recArr
      ensures |z| == |recArr|
    {
      seq(|recArr|, s requires 0 <= s < |recArr| reads recArr => recArr[s].sz)
    }

    /** The shape of the record: its dimensions, separate slots, the ring position and rec_csz in range. */
    ghost predicate Shaped()
      reads this, recArr
    {
      && params.Valid()
      && idleBuf.Length == params.idleBufSz
      && |recArr| == params.maxNumRec
      && SlotsFit(recArr, params.recordingSize)
      && Separate(recArr, idleBuf)
      && idleBufIdx < params.idleBufSz
      && recCsz <= params.maxNumRec
    }

    ghost predicate Valid()
      reads this, recArr
    {
      && Shaped()
      && recIdx < params.maxNumRec
      // until the archive is full, the write slot is the next unused one
      && (recCsz < params.maxNumRec ==> recIdx == recCsz)
    }

    /** The zero-initialised record of fine_thread_init_everything (calloc'd buffers). */
    constructor (p: Params)
      requires p.Valid()
      ensures Valid() && params == p
      ensures fresh(idleBuf) && forall s :: 0 <= s < |recArr| ==> fresh(recArr[s]) && fresh(recArr[s].data)
      ensures idleBufIdx == 0 && recIdx == 0 && recCsz == 0 && !play && !fadeOut
      ensures forall i :: 0 <= i < idleBuf.Length ==> idleBuf[i] == 0
      ensures forall s :: 0 <= s < |recArr| ==> recArr[s].sz == 0
      ensures forall s, i :: 0 <= s < |recArr| && 0 <= i < recArr[s].data.Length ==> recArr[s].data[i] == 0
    {
      params := p;
      var ring := new int[p.idleBufSz](_ => 0);
      idleBuf := ring;
      var recs: seq<Recording> := [];
      while |recs| < p.maxNumRec
        invariant |recs| <= p.maxNumRec
        invariant forall i :: 0 <= i < ring.Length ==> ring[i] == 0
        invariant forall s :: 0 <= s < |recs| ==>
                    fresh(recs[s]) && fresh(recs[s].data) && recs[s].data != ring
                    && recs[s].sz == 0 && recs[s].data.Length == p.recordingSize
                    && forall i :: 0 <= i < recs[s].data.Length ==> recs[s].data[i] == 0
        invariant forall s, t :: 0 <= s < |recs| && 0 <= t < |recs| && s != t ==>
                    recs[s] != recs[t] && recs[s].data != recs[t].data
      {
        var r := new Recording(p.recordingSize);
        recs := recs + [r];
      }
      recArr := recs;
      idleBufIdx, recIdx, recCsz := 0, 0, 0;
      play, fadeOut := false, false;
    }

    /** The fread of the preload loop: file k goes into slot k, truncated to RECORDING_SIZE. */
    method LoadSlot(files: seq<seq<int>>, k: nat, ghost origs: seq<seq<int>>, ghost sizes: seq<nat>)
      requires Shaped() && k < |files| && k < |recArr|
      requires LoadedUpTo(recArr, files, k, params.recordingSize, origs, sizes)
      modifies recArr[k], recArr[k].data
      ensures Shaped() && LoadedUpTo(recArr, files, k + 1, params.recordingSize, origs, sizes)
    {
      var rec := recArr[k];
      // fread of min(num_samples, RECORDING_SIZE) samples
      rec.Load(files[k][..Min(|files[k]|, params.recordingSize)]);
    }

    /** One pass of the corrected preload loop: file k goes into slot k, and rec_idx wraps at the last slot. */
    method PreloadFile(files: seq<seq<int>>, k: nat, ghost origs: seq<seq<int>>, ghost sizes: seq<nat>)
      requires Valid() && k < |files| && k < |recArr|
      requires LoadedUpTo(recArr, files, k, params.recordingSize, origs, sizes)
      requires recCsz == k && recIdx == k
      modifies this`recIdx, this`recCsz, recArr[k], recArr[k].data
      ensures Valid() && LoadedUpTo(recArr, files, k + 1, params.recordingSize, origs, sizes)
      ensures recCsz == k + 1 && recIdx == NextSlot(k, params.maxNumRec)
    {
      LoadSlot(files, recIdx, origs, sizes);
      recIdx := if k + 1 == params.maxNumRec then 0 else k + 1;
      recCsz := k + 1;
    }

    /** One pass of the preload loop as written: file k goes into slot k, then rec_idx = rec_csz = k + 1. */
    method PreloadFileAsWritten(files: seq<seq<int>>, k: nat, ghost origs: seq<seq<int>>, ghost sizes: seq<nat>)
      requires Shaped() && k < |files| && k < |recArr|
      requires LoadedUpTo(recArr, files, k, params.recordingSize, origs, sizes)
      requires recCsz == k && recIdx == k
      modifies this`recIdx, this`recCsz, recArr[k], recArr[k].data
      ensures Shaped() && LoadedUpTo(recArr, files, k + 1, params.recordingSize, origs, sizes)
      ensures recCsz == k + 1 && recIdx == k + 1
    {
      LoadSlot(files, recIdx, origs, sizes);
      var fileNum := k + 1;
      recIdx := fileNum;
      recCsz := fileNum;
    }

    /**
     * The preload loop of fine_thread_init_everything as written: files[k]
     * holds the samples of data/k.raw, and there is no file numbered
     * |files|. Each pass loads the next file into slot rec_idx and then sets
     * rec_idx = rec_csz = file_num, with no reduction modulo MAX_NUM_REC.
     * With fewer files than slots the record is sound; with a file for every
     * slot rec_idx ends at MAX_NUM_REC, one past the last slot, and the next
     * capture's pre-roll copy indexes rec_arr[rec_idx] out of range.
     */
    method PreloadAsWritten(files: seq<seq<int>>) returns (loaded: nat)
      requires Shaped() && recIdx == 0 && recCsz == 0
      modifies this`recIdx, this`recCsz, recArr, Slots()
      ensures Shaped()
      ensures loaded == Min(|files|, params.maxNumRec)
      ensures recCsz == loaded && recIdx == loaded
      ensures LoadedUpTo(recArr, files, loaded, params.recordingSize, old(Contents()), old(Sizes()))
      ensures |files| < params.maxNumRec ==> Valid()
      ensures |files| >= params.maxNumRec ==> recIdx == |recArr| && !Valid()
    {
      ghost var origs, sizes := Contents(), Sizes();
      var fileNum := 0;
      while fileNum < params.maxNumRec && fileNum < |files|
        invariant fileNum <= params.maxNumRec && fileNum <= |files|
        invariant Shaped() && recCsz == fileNum && recIdx == fileNum
        invariant LoadedUpTo(recArr, files, fileNum, params.recordingSize, origs, sizes)
      {
        PreloadFileAsWritten(files, fileNum, origs, sizes);
        fileNum := fileNum + 1;
      }
      loaded := fileNum;
    }

    /**
     * The preload of fine_thread_init_everything, corrected: slots 0, 1,
     * ... are filled in order, each truncated to RECORDING_SIZE, until a
     * file is missing or the archive is full, as in PreloadAsWritten; the
     * write index is the count of loaded files modulo MAX_NUM_REC, where
     * the code leaves the count itself.
     */
    method Preload(files: seq<seq<int>>) returns (loaded: nat)
      requires Valid() && recIdx == 0 && recCsz == 0
      modifies this`recIdx, this`recCsz, recArr, Slots()
      ensures Valid()
      ensures loaded == Min(|files|, params.maxNumRec)
      ensures recCsz == loaded && recIdx == loaded % params.maxNumRec
      ensures LoadedUpTo(recArr, files, loaded, params.recordingSize, old(Contents()), old(Sizes()))
    {
      ghost var origs, sizes := Contents(), Sizes();
      var fileNum := 0;
      while fileNum < params.maxNumRec && fileNum < |files|
        invariant fileNum <= params.maxNumRec && fileNum <= |files|
        invariant Valid()
        invariant recCsz == fileNum && (fileNum < params.maxNumRec ==> recIdx == fileNum)
        invariant fileNum == params.maxNumRec ==> recIdx == 0
        invariant LoadedUpTo(recArr, files, fileNum, params.recordingSize, origs, sizes)
      {
        PreloadFile(files, fileNum, origs, sizes);
        fileNum := fileNum + 1;
      }
      loaded := fileNum;
      ModRange(fileNum, params.maxNumRec);
    }

    /**
     * The circular write of one period into the idle buffer: idle_buf_idx
     * advances by the period, and the block lands from the old position on.
     */
    method WriteIdle(block: seq<int>)
      requires Valid() && |block| <= params.idleBufSz
      modifies this`idleBufIdx, idleBuf
      ensures Valid()
      ensures idleBufIdx == (old(idleBufIdx) + |block|) % params.idleBufSz
      ensures idleBuf[..] == RingWrite(old(idleBuf[..]), old(idleBufIdx), block)
      ensures Rotation(idleBuf[..], idleBufIdx) == Rotation(old(idleBuf[..]), old(idleBufIdx))[|block|..] + block
    {
      var n := params.idleBufSz;
      var bufidx := idleBufIdx;
      idleBufIdx := (idleBufIdx + |block|) % n;
      var i := 0;
      while i < |block|
        invariant 0 <= i <= |block|
        invariant forall p :: 0 <= p < n ==>
                    idleBuf[p] == (var d := Offset(p, bufidx, n); if d < i then block[d] else old(idleBuf[p]))
        modifies idleBuf
      {
        var q := (bufidx + i) % n;
        OffsetOfStep(bufidx, i, n);
        OffsetUnique(bufidx, i, n);
        idleBuf[q] := block[i];
        i := i + 1;
      }
      assert idleBuf[..] == RingWrite(old(idleBuf[..]), bufidx, block);
      PrerollAfterWrite(old(idleBuf[..]), bufidx, block);
    }

    /**
     * One capture: the pre-roll, oldest sample first, fills the first
     * IDLE_BUFSZ samples of slot rec_idx; fine_input_write_until fills the
     * rest of that slot; then the slot is committed by advancing rec_idx
     * modulo MAX_NUM_REC and raising rec_csz up to MAX_NUM_REC. Nothing
     * outside slot rec_idx changes.
     */
    method Capture(answers: seq<Block>, perRead: nat) returns (written: nat)
      requires Valid() && perRead >= 1
      modifies this`recIdx, this`recCsz, this`play, this`fadeOut, recArr[recIdx], recArr[recIdx].data
      ensures Valid()
      ensures var out := ReadUntil(answers, 0, params.recordingSize - params.idleBufSz, perRead);
        && written == out.kept
        && Holds(recArr[old(recIdx)].data, 0, Rotation(idleBuf[..], idleBufIdx))
        && Holds(recArr[old(recIdx)].data, idleBuf.Length, out.stored)
        && KeptOutside(recArr[old(recIdx)].data, old(recArr[recIdx].data[..]), 0,
                       idleBuf.Length + |out.stored|)
        && recArr[old(recIdx)].sz == idleBuf.Length + written
      ensures OthersKept(recArr, old(recIdx))
      ensures recIdx == NextSlot(old(recIdx), params.maxNumRec)
      ensures recCsz == Min(old(recCsz) + 1, params.maxNumRec)
      ensures play && !fadeOut
    {
      written := recArr[recIdx].Fill(idleBuf, idleBufIdx, params.recordingSize - params.idleBufSz, answers, perRead);
      Commit();
    }

    /**
     * The commit of a capture: rec_idx moves to the next slot modulo
     * MAX_NUM_REC, rec_csz grows by one up to MAX_NUM_REC, and playback
     * resumes without the fade-out.
     */
    method Commit()
      requires Valid()
      modifies this`recIdx, this`recCsz, this`play, this`fadeOut
      ensures Valid()
      ensures recIdx == NextSlot(old(recIdx), params.maxNumRec)
      ensures recCsz == Min(old(recCsz) + 1, params.maxNumRec)
      ensures play && !fadeOut
    {
      NextSlotIsMod(recIdx, params.maxNumRec);
      recIdx := (recIdx + 1) % params.maxNumRec;
      recCsz := Min(recCsz + 1, params.maxNumRec);
      play := true;
      fadeOut := false;
    }

    /**
     * One pass of the capture thread's loop: the period goes into the idle
     * ring; once the cool-down has elapsed playback is stopped; and when
     * the upper EMA also triggers, a capture starts whose pre-roll is the
     * previous pre-roll without its oldest |block| samples, followed by
     * the new period.
     */
    method InputIteration(step: InputStep, perRead: nat) returns (captured: bool)
      requires Valid() && perRead >= 1 && |step.block| <= params.idleBufSz
      modifies this`idleBufIdx, this`recIdx, this`recCsz, this`play, this`fadeOut, idleBuf,
               recArr[recIdx], recArr[recIdx].data
      ensures Valid()
      ensures captured == Captures(step)
      ensures idleBufIdx == (old(idleBufIdx) + |step.block|) % params.idleBufSz
      ensures idleBuf[..] == RingWrite(old(idleBuf[..]), old(idleBufIdx), step.block)
      ensures captured ==>
                var out := ReadUntil(step.answers, 0, params.recordingSize - params.idleBufSz, perRead);
                && Holds(recArr[old(recIdx)].data, 0,
                         Rotation(old(idleBuf[..]), old(idleBufIdx))[|step.block|..] + step.block)
                && Holds(recArr[old(recIdx)].data, params.idleBufSz, out.stored)
                && KeptOutside(recArr[old(recIdx)].data, old(recArr[recIdx].data[..]), 0,
                               params.idleBufSz + |out.stored|)
                && recArr[old(recIdx)].sz == params.idleBufSz + out.kept
                && recIdx == NextSlot(old(recIdx), params.maxNumRec)
                && recCsz == Min(old(recCsz) + 1, params.maxNumRec)
                && play && !fadeOut
      ensures !captured ==>
                && recIdx == old(recIdx) && recCsz == old(recCsz)
                && (step.cooldownElapsed ==> !play)
                && (!step.cooldownElapsed ==> play == old(play))
                && fadeOut == old(fadeOut)
      ensures OthersKept(recArr, if captured then old(recIdx) else -1)
    {
      WriteIdle(step.block);
      if step.cooldownElapsed {
        play := false;
      }
      captured := Captures(step);
      if captured {
        // playback stops and the render thread is told to fade out
        play := false;
        fadeOut := true;
        var _ := Capture(step.answers, perRead);
      }
    }

    /** rec_idx and rec_csz after count captures, starting from slot idx0 with csz0 slots in use. */
    ghost predicate MetaAfter(idx0: nat, csz0: nat, count: nat)
      reads this
    {
      params.maxNumRec > 0
      && recIdx == Advance(idx0, count, params.maxNumRec)
      && recCsz == Min(csz0 + count, params.maxNumRec)
    }

    /** One pass of the loop of RunInputThread. */
    method Pass(step: InputStep, perRead: nat, ghost idx0: nat, ghost csz0: nat, ghost count: nat)
      requires Valid() && perRead >= 1 && |step.block| <= params.idleBufSz
      requires MetaAfter(idx0, csz0, count)
      modifies this`idleBufIdx, this`recIdx, this`recCsz, this`play, this`fadeOut, idleBuf, recArr, Slots()
      ensures Valid()
      ensures MetaAfter(idx0, csz0, count + (if Captures(step) then 1 else 0))
    {
      var captured := InputIteration(step, perRead);
    }

    /**
     * The capture thread's loop over a run of passes, with every period of
     * at most IDLE_BUFSZ samples: each capture advances rec_idx by one
     * slot modulo MAX_NUM_REC and rec_csz by one up to MAX_NUM_REC.
     */
    method RunInputThread(steps: seq<InputStep>, perRead: nat)
      requires Valid() && perRead >= 1
      requires forall k :: 0 <= k < |steps| ==> |steps[k].block| <= params.idleBufSz
      modifies this`idleBufIdx, this`recIdx, this`recCsz, this`play, this`fadeOut, idleBuf, recArr, Slots()
      ensures Valid()
      ensures recIdx == (old(recIdx) + CaptureCount(steps, |steps|)) % params.maxNumRec
      ensures recCsz == Min(old(recCsz) + CaptureCount(steps, |steps|), params.maxNumRec)
    {
      ghost var idx0, csz0 := recIdx, recCsz;
      var k := 0;
      while k < |steps|
        invariant 0 <= k <= |steps|
        invariant Valid() && MetaAfter(idx0, csz0, CaptureCount(steps, k))
      {
        Pass(steps[k], perRead, idx0, csz0, CaptureCount(steps, k));
        k := k + 1;
      }
      AdvanceIsMod(idx0, CaptureCount(steps, k), params.maxNumRec);
    }
  }
}
