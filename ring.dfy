/**
 * Index arithmetic of the idle (pre-roll) ring buffer: where a period of
 * input lands, and the order in which the pre-roll copy reads the ring.
 */
module Ring {

  /** A positive multiple of a positive n is at least n. */
  lemma {:induction false} MulAtLeast(k: int, n: int)
    requires k >= 1 && n > 0
    ensures k * n >= n
    decreases k
  {
    if k > 1 {
      MulAtLeast(k - 1, n);
      assert k * n == (k - 1) * n + n;
    }
  }

  /** The only multiple of n strictly between -n and n is 0. */
  lemma MulSmall(k: int, n: int)
    requires 0 < n && -n < k * n < n
    ensures k == 0
  {
    if k >= 1 {
      MulAtLeast(k, n);
    } else if k <= -1 {
      MulAtLeast(-k, n);
    }
  }

  /** Quotient and remainder are unique. */
  lemma ModUnique(x: int, q: int, r: int, n: int)
    requires 0 < n && 0 <= r < n && x == q * n + r
    ensures x % n == r && x / n == q
  {
    var a, b := x / n, x % n;
    assert x == a * n + b;
    assert (a - q) * n == r - b;
    MulSmall(a - q, n);
  }

  /** Adding a multiple of n does not change the remainder. */
  lemma ModAddMul(x: int, c: int, n: int)
    requires 0 < n
    ensures (x + c * n) % n == x % n
  {
    var q := x / n;
    assert x == q * n + x % n;
    assert x + c * n == (q + c) * n + x % n;
    ModUnique(x + c * n, q + c, x % n, n);
  }

  /** An index in [0, 2n) reduced modulo n wraps at most once. */
  lemma ModRange(x: int, n: int)
    requires 0 < n && 0 <= x < 2 * n
    ensures x % n == if x < n then x else x - n
  {
    if x < n {
      ModUnique(x, 0, x, n);
    } else {
      ModUnique(x, 1, x - n, n);
    }
  }

  /** A negative offset in [-n, 0) reduced modulo n. */
  lemma ModNeg(x: int, n: int)
    requires 0 < n && -n <= x < 0
    ensures x % n == x + n
  {
    ModUnique(x, -1, x + n, n);
  }

  /** Stepping i places forward from start and measuring the distance back to start gives i. */
  lemma OffsetOfStep(start: int, i: int, n: int)
    requires 0 <= start < n && 0 <= i < n
    ensures ((start + i) % n - start) % n == i
  {
    ModRange(start + i, n);
    if start + i < n {
      ModRange(i, n);
    } else {
      ModNeg(i - n, n);
    }
  }

  /** Stepping from start by the distance from start to p lands on p. */
  lemma StepOfOffset(start: int, p: int, n: int)
    requires 0 <= start < n && 0 <= p < n
    ensures (start + (p - start) % n) % n == p
  {
    if p >= start {
      ModRange(p - start, n);
      ModRange(p, n);
    } else {
      ModNeg(p - start, n);
      ModRange(p + n, n);
    }
  }

  /** Advancing an index already reduced modulo n by one more place. */
  lemma ModSucc(x: int, n: int)
    requires 0 < n && 0 <= x
    ensures (x % n + 1) % n == (x + 1) % n
  {
    var q, r := x / n, x % n;
    assert x == q * n + r;
    if r + 1 < n {
      ModUnique(x + 1, q, r + 1, n);
      ModUnique(r + 1, 0, r + 1, n);
    } else {
      ModUnique(x + 1, q + 1, 0, n);
      ModUnique(r + 1, 1, 0, n);
    }
  }

  /** The position after i in a ring of n positions: one on, wrapping to 0 at the end. */
  function NextSlot(i: nat, n: nat): nat {
    if i + 1 < n then i + 1 else 0
  }

  /** Within the ring, the next position is the successor modulo n. */
  lemma NextSlotIsMod(i: nat, n: nat)
    requires i < n
    ensures NextSlot(i, n) == (i + 1) % n
  {
    ModRange(i + 1, n);
  }

  /** The position reached from i0 after k steps of NextSlot. */
  function Advance(i0: nat, k: nat, n: nat): nat
    decreases k
  {
    if k == 0 then i0 else NextSlot(Advance(i0, k - 1, n), n)
  }

  /** k steps round the ring land k places on, modulo n. */
  lemma {:induction false} AdvanceIsMod(i0: nat, k: nat, n: nat)
    requires i0 < n
    ensures Advance(i0, k, n) == (i0 + k) % n
    decreases k
  {
    if k == 0 {
      ModRange(i0, n);
    } else {
      AdvanceIsMod(i0, k - 1, n);
      ModRange((i0 + k - 1) % n, n);
      NextSlotIsMod((i0 + k - 1) % n, n);
      ModSucc(i0 + k - 1, n);
    }
  }

  /** The position i places on from start in a ring of n positions. */
  function Step(start: int, i: int, n: int): int
    requires 0 < n
  {
    (start + i) % n
  }

  /** The distance from start forward to p in a ring of n positions. */
  function Offset(p: int, start: int, n: int): int
    requires 0 < n
  {
    (p - start) % n
  }

  /** Only one position lies at a given distance from start. */
  lemma OffsetUnique(start: int, i: int, n: int)
    requires 0 <= start < n && 0 <= i < n
    ensures forall p :: 0 <= p < n && Offset(p, start, n) == i ==> p == (start + i) % n
  {
    forall p | 0 <= p < n && Offset(p, start, n) == i
      ensures p == (start + i) % n
    {
      StepOfOffset(start, p, n);
    }
  }

  /**
   * The ring buf after a block is written into it from position start:
   * the position at distance d < |block| ahead of start holds block[d],
   * every other position keeps its old sample.
   */
  function RingWrite(buf: seq<int>, start: nat, block: seq<int>): (r: seq<int>)
    requires start < |buf|
    ensures |r| == |buf|
  {
    seq(|buf|, p requires 0 <= p < |buf| =>
      var d := Offset(p, start, |buf|);
      if d < |block| then block[d] else buf[p])
  }

  /** The ring read as a sequence starting at position start (the pre-roll copy). */
  function Rotation(buf: seq<int>, start: nat): (r: seq<int>)
    requires start < |buf|
    ensures |r| == |buf|
  {
    seq(|buf|, i requires 0 <= i < |buf| => buf[(start + i) % |buf|])
  }

  /** Sample i of the block lands at (start + i) mod the ring size. */
  lemma RingWriteAt(buf: seq<int>, start: nat, block: seq<int>, i: nat)
    requires start < |buf| && |block| <= |buf| && i < |block|
    ensures RingWrite(buf, start, block)[(start + i) % |buf|] == block[i]
  {
    OffsetOfStep(start, i, |buf|);
  }

  /** The positions the block does not reach keep their samples. */
  lemma RingWriteKeeps(buf: seq<int>, start: nat, block: seq<int>, p: nat)
    requires start < |buf| && |block| <= |buf| && p < |buf|
    requires forall i :: 0 <= i < |block| ==> Step(start, i, |buf|) != p
    ensures RingWrite(buf, start, block)[p] == buf[p]
  {
    var n := |buf|;
    var d := (p - start) % n;
    if p >= start {
      ModRange(p - start, n);
      ModRange(start + d, n);
    } else {
      ModNeg(p - start, n);
      ModRange(start + d, n);
    }
    assert Step(start, d, n) == p;
  }

  /**
   * Oldest sample first: reading the ring from just past the newest block
   * yields the previous pre-roll without its |block| oldest samples,
   * followed by the block.
   */
  lemma PrerollAfterWrite(buf: seq<int>, start: nat, block: seq<int>)
    requires start < |buf| && |block| <= |buf|
    ensures Rotation(RingWrite(buf, start, block), (start + |block|) % |buf|)
         == Rotation(buf, start)[|block|..] + block
  {
    var n, b := |buf|, |block|;
    var s' := (start + b) % n;
    ModRange(start + b, n);
    var lhs := Rotation(RingWrite(buf, start, block), s');
    var rhs := Rotation(buf, start)[b..] + block;
    forall k | 0 <= k < n
      ensures lhs[k] == rhs[k]
    {
      PrerollAt(buf, start, block, k);
    }
  }

  /** One position of PrerollAfterWrite. */
  lemma PrerollAt(buf: seq<int>, start: nat, block: seq<int>, k: nat)
    requires start < |buf| && |block| <= |buf| && k < |buf|
    ensures (start + |block|) % |buf| < |buf|
    ensures Rotation(RingWrite(buf, start, block), (start + |block|) % |buf|)[k]
         == (Rotation(buf, start)[|block|..] + block)[k]
  {
    var n, b := |buf|, |block|;
    ModRange(start + b, n);
    var s' := (start + b) % n;
    var p := (s' + k) % n;
    var rw := RingWrite(buf, start, block);
    var rhs := Rotation(buf, start)[b..] + block;
    assert Rotation(rw, s')[k] == rw[p];
    // s' + k differs from start + b + k by a multiple of n
    var c := if start + b < n then 0 else 1;
    assert s' + k == (start + b + k) + (-c) * n;
    ModAddMul(start + b + k, -c, n);
    assert p == (start + b + k) % n;
    if k < n - b {
      OffsetOfStep(start, b + k, n);
      assert Offset(p, start, n) == b + k;
      assert rw[p] == buf[p];
      assert rhs[k] == Rotation(buf, start)[b + k] == buf[p];
    } else {
      var i := k - (n - b);
      assert start + b + k == (start + i) + 1 * n;
      ModAddMul(start + i, 1, n);
      assert p == (start + i) % n;
      OffsetOfStep(start, i, n);
      assert Offset(p, start, n) == i;
      assert rw[p] == block[i];
      assert rhs[k] == block[i];
    }
  }
}
