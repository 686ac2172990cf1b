/** The overlap-add of processBlock on values: the output of one block from the current convolution
    result and the history slots, and the two orders in which the history can be copied along. */
module Overlap {
  import opened Spectral
  import opened Planning

  /** Slot q >= 1 of a history is read at offsets n * q .. n * q + n - 1; slot 0 is not read. */
  predicate TailFits(slots: seq<seq<real>>, n: nat)
  {
    forall q :: 1 <= q < |slots| ==> n * (q + 1) <= |slots[q]|
  }

  /** The tail contribution at output index j: the sum over 1 <= i < c of slots[i][j + n * i]. */
  function Tail(slots: seq<seq<real>>, j: nat, n: nat, c: nat): real
    requires TailFits(slots, n) && j < n && c <= |slots|
  {
    if c <= 1 then 0.0 else Tail(slots, j, n, c - 1) + slots[c - 1][j + n * (c - 1)]
  }

  /** One block of overlap-add output: out[j] = conv[j] + sum over 1 <= i < |slots| of slots[i][j + n * i]. */
  function OverlapAdd(conv: seq<real>, slots: seq<seq<real>>, n: nat): (out: seq<real>)
    requires n <= |conv| && TailFits(slots, n)
    ensures |out| == n
    ensures |slots| <= 1 ==> out == conv[..n]
  {
    seq(n, j requires 0 <= j < n => conv[j] + Tail(slots, j, n, |slots|))
  }

  /** A history of equally long slots fits the reads exactly when n * |slots| does not exceed the
      slot length (for two or more slots). */
  lemma UniformTailFits(slots: seq<seq<real>>, n: nat, len: nat)
    requires forall q :: 0 <= q < |slots| ==> |slots[q]| == len
    requires |slots| >= 2
    ensures TailFits(slots, n) <==> n * |slots| <= len
  {
    if n * |slots| <= len {
      forall q | 1 <= q < |slots| ensures n * (q + 1) <= |slots[q]| {
        MulMonotone(n, q + 1, |slots|);
      }
    } else {
      assert n * (|slots| - 1 + 1) > |slots[|slots| - 1]|;
    }
  }

  /** The overlap-add reads only the first n samples of the block's own contribution. */
  lemma OverlapAddReadsPrefix(a: seq<real>, b: seq<real>, slots: seq<seq<real>>, n: nat)
    requires n <= |a| && n <= |b| && TailFits(slots, n)
    requires forall j :: 0 <= j < n ==> a[j] == b[j]
    ensures OverlapAdd(a, slots, n) == OverlapAdd(b, slots, n)
  {
  }

  /** Lines 217-219 on values: for i = 1 .. c - 1 in ascending order, slot i := slot i - 1. */
  function CopiedAscending(ring: seq<seq<real>>, c: nat): (r: seq<seq<real>>)
    requires c <= |ring|
    ensures |r| == |ring|
  {
    if c <= 1 then ring
    else
      var before := CopiedAscending(ring, c - 1);
      before[c - 1 := before[c - 2]]
  }

  /** The ascending copy makes slots 0 .. c - 1 all equal to slot 0 and loses every older block. */
  lemma {:induction false} AscendingCopyCollapses(ring: seq<seq<real>>, c: nat, q: nat)
    requires 1 <= c <= |ring| && q < |ring|
    ensures CopiedAscending(ring, c)[q] == if q < c then ring[0] else ring[q]
    decreases c
  {
    if c > 1 {
      AscendingCopyCollapses(ring, c - 1, q);
      if q != c - 1 {
      } else {
        AscendingCopyCollapses(ring, c - 1, c - 2);
      }
    }
  }

  /** The ageing that an overlap-add whose slot i holds the block i periods old needs: for i = c down
      to 1, slot i := slot i - 1, so that every block moves one slot further back. */
  function CopiedDescending(ring: seq<seq<real>>, c: nat): (r: seq<seq<real>>)
    requires c == 0 || c < |ring|
    ensures |r| == |ring|
    decreases c
  {
    if c == 0 then ring else CopiedDescending(ring[c := ring[c - 1]], c - 1)
  }

  /** The descending copy shifts slots 0 .. c - 1 up by one and keeps the rest. */
  lemma {:induction false} DescendingCopyShifts(ring: seq<seq<real>>, c: nat, q: nat)
    requires c < |ring| && q < |ring|
    ensures CopiedDescending(ring, c)[q] == if 1 <= q <= c then ring[q - 1] else ring[q]
    decreases c
  {
    if c > 0 {
      DescendingCopyShifts(ring[c := ring[c - 1]], c - 1, q);
    }
  }

  /** With three slots [1], [2], [3] the source's copy gives [1], [1], [1]; the intended shift
      gives [1], [1], [2]: the block two periods old is lost. */
  lemma CopyOrderCounterexample(ring: seq<seq<real>>)
    requires ring == [[1.0], [2.0], [3.0]]
    ensures CopiedAscending(ring, 3) == [[1.0], [1.0], [1.0]]
    ensures CopiedDescending(ring, 2) == [[1.0], [1.0], [2.0]]
  {
    AscendingCopyCollapses(ring, 3, 2);
    AscendingCopyCollapses(ring, 3, 1);
    DescendingCopyShifts(ring, 2, 2);
    DescendingCopyShifts(ring, 2, 1);
    DescendingCopyShifts(ring, 2, 0);
  }

  /** A buffer whose first |s| samples are overwritten by s (memcpy of |s| samples, or an FFTW
      output of that many samples); the rest is kept. */
  function Overwritten(buf: seq<real>, s: seq<real>): (r: seq<real>)
    requires |s| <= |buf|
    ensures |r| == |buf| && r[..|s|] == s && r[|s|..] == buf[|s|..]
  {
    s + buf[|s|..]
  }

  /** A buffer is s overwriting buf exactly when it is as long, starts with s and keeps the rest:
      the slot-by-slot facts of the in-place kernels are these values. */
  lemma OverwrittenIff(buf: seq<real>, after: seq<real>, s: seq<real>)
    requires |s| <= |buf|
    ensures after == Overwritten(buf, s) <==> |after| == |buf| && after[..|s|] == s && after[|s|..] == buf[|s|..]
  {
    if |after| == |buf| && after[..|s|] == s && after[|s|..] == buf[|s|..] {
      assert after == after[..|s|] + after[|s|..];
    }
  }

  /** Slot 0 after lines 192-205: the block is copied in, the samples from n to k are zeroed, and the
      first k samples are then overwritten by the convolution. A block longer than k keeps its
      samples k .. n - 1 in the slot; from max(n, k) on the slot keeps what it held. */
  function FilledSlot(slot: seq<real>, input: seq<real>, k: nat, conv: seq<real>): (r: seq<real>)
    requires |input| <= |slot| && k <= |slot| && |conv| == k
    ensures |r| == |slot|
    ensures forall j :: 0 <= j < |slot| ==>
      r[j] == if j < k then conv[j] else if j < |input| then input[j] else slot[j]
  {
    var staged := Overwritten(slot, Fit(input, if |input| <= k then k else |input|, 0.0));
    var r := Overwritten(staged, conv);
    assert forall j :: 0 <= j < |slot| ==> r[j] == if j < k then conv[j] else staged[j];
    r
  }

  /** For a block of at most k samples, the filled slot is the convolution overwriting the slot. */
  lemma FilledSlotOfShortBlock(slot: seq<real>, input: seq<real>, k: nat, conv: seq<real>)
    requires |input| <= k <= |slot| && |conv| == k
    ensures FilledSlot(slot, input, k, conv) == Overwritten(slot, conv)
  {
    var r, o := FilledSlot(slot, input, k, conv), Overwritten(slot, conv);
    forall j | 0 <= j < |slot| ensures r[j] == o[j] {
      if j >= k {
        assert o[j] == o[k..][j - k] == slot[k..][j - k];
      }
    }
  }

  /** The slots other than 0 after one block of the bank path as written: each holds the block's
      convolution in its first k samples and keeps the rest. */
  function Refilled(ring: seq<seq<real>>, conv: seq<real>): (r: seq<seq<real>>)
    requires forall q :: 0 <= q < |ring| ==> |conv| <= |ring[q]|
    ensures |r| == |ring|
    ensures forall q :: 0 <= q < |ring| ==> r[q] == Overwritten(ring[q], conv)
  {
    seq(|ring|, q requires 0 <= q < |ring| => Overwritten(ring[q], conv))
  }

  /** For slots of exactly k samples, Refilled is the source's loop: slot 0 := the convolution, then
      the ascending copy of every slot from the one before it. */
  lemma RefilledIsAscendingCopy(ring: seq<seq<real>>, conv: seq<real>)
    requires 1 <= |ring| && forall q :: 0 <= q < |ring| ==> |ring[q]| == |conv|
    ensures Refilled(ring, conv) == CopiedAscending(ring[0 := conv], |ring|)
  {
    var filled := ring[0 := conv];
    forall q | 0 <= q < |ring| ensures Refilled(ring, conv)[q] == CopiedAscending(filled, |ring|)[q] {
      AscendingCopyCollapses(filled, |ring|, q);
      assert Overwritten(ring[q], conv) == conv;
    }
  }

  /** The single-impulse-response path's output: out[j] = current[j] + previous[j + n] for j < n. */
  function OneTailAdd(current: seq<real>, previous: seq<real>, n: nat): (out: seq<real>)
    requires n <= |current| && 2 * n <= |previous|
    ensures |out| == n
  {
    seq(n, j requires 0 <= j < n => current[j] + previous[j + n])
  }

  /** It is the overlap-add over the two-slot history [current, previous]. */
  lemma OneTailIsOverlapAdd(current: seq<real>, previous: seq<real>, n: nat)
    requires n <= |current| && 2 * n <= |previous|
    ensures TailFits([current, previous], n)
    ensures OneTailAdd(current, previous, n) == OverlapAdd(current, [current, previous], n)
  {
    assert TailFits([current, previous], n);
    forall j | 0 <= j < n ensures OneTailAdd(current, previous, n)[j] == OverlapAdd(current, [current, previous], n)[j] {
      assert Tail([current, previous], j, n, 1) == 0.0;
    }
  }
}
