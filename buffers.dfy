/** The buffers of the overlap-add engine: malloc, memcpy, the allocation of the rings, and the
    overlap-add and shift loop over one ear's ring of arrays. */
module Buffers {
  import opened Spectral
  import opened Overlap

  /** The contents of a sequence of buffers, slot by slot. */
  ghost function Contents(ring: seq<array<real>>): (r: seq<seq<real>>)
    reads ring
    ensures |r| == |ring| && forall i :: 0 <= i < |ring| ==> r[i] == ring[i][..]
  {
    if ring == [] then [] else Contents(ring[..|ring| - 1]) + [ring[|ring| - 1][..]]
  }

  /** The history as the overlap-add reads it: equally long slots of which n * |ring| samples are read. */
  ghost function History(ring: seq<array<real>>, n: nat, len: nat): (h: seq<seq<real>>)
    requires forall i :: 0 <= i < |ring| ==> ring[i].Length == len
    requires n * |ring| <= len
    reads ring
    ensures h == Contents(ring) && TailFits(h, n)
  {
    if |ring| >= 2 then UniformTailFits(Contents(ring), n, len); Contents(ring) else Contents(ring)
  }

  /** No two buffers of the sequence are the same array. */
  ghost predicate Distinct(bufs: seq<array<real>>)
  {
    forall i, j :: 0 <= i < j < |bufs| ==> bufs[i] != bufs[j]
  }

  /** memcpy(dst, src, len * sizeof(float)). */
  method Copy(dst: array<real>, src: array<real>, len: nat)
    requires len <= dst.Length && len <= src.Length && dst != src
    modifies dst
    ensures dst[..len] == src[..len] && dst[len..] == old(dst[len..])
  {
    forall i | 0 <= i < len {
      dst[i] := src[i];
    }
  }

  /** malloc(len * sizeof(float)): a fresh buffer of len samples whose contents are whatever the
      allocator leaves there. */
  method Malloc(len: nat) returns (s: seq<real>)
    ensures |s| == len
  {
    var a := new real[len];
    s := a[..];
  }

  /** A ring of depth slots of len samples each. */
  ghost predicate RingOf(ring: seq<seq<real>>, depth: nat, len: nat)
  {
    |ring| == depth && forall i :: 0 <= i < depth ==> |ring[i]| == len
  }

  /** The allocation loop of lines 172-178 for one ear: depth freshly malloc'd slots of len samples. */
  method NewRing(depth: nat, len: nat) returns (ring: seq<seq<real>>)
    ensures RingOf(ring, depth, len)
  {
    ring := [];
    var i := 0;
    while i < depth
      invariant 0 <= i <= depth && |ring| == i
      invariant forall p :: 0 <= p < i ==> |ring[p]| == len
    {
      var slot := Malloc(len);
      ring := ring + [slot];
      i := i + 1;
    }
  }

  /** Writes one block into each channel of the host buffer. */
  method WriteBlocks(left: array<real>, right: array<real>, l: seq<real>, r: seq<real>)
    requires |l| == left.Length && |r| == right.Length && left != right
    modifies left, right
    ensures left[..] == l && right[..] == r
  {
    forall i | 0 <= i < left.Length {
      left[i] := l[i];
    }
    forall i | 0 <= i < right.Length {
      right[i] := r[i];
    }
  }

  /** The inner loops of lines 213-216 and 308-311: out[j] += src[j + offset] for j < len. */
  method AddInto(out: array<real>, src: array<real>, offset: nat, len: nat)
    requires out != src && len <= out.Length && offset + len <= src.Length
    modifies out
    ensures forall j :: 0 <= j < len ==> out[j] == old(out[j]) + src[j + offset]
    ensures out[len..] == old(out[len..])
  {
    var j := 0;
    while j < len
      invariant 0 <= j <= len
      invariant forall p :: 0 <= p < j ==> out[p] == old(out[p]) + src[p + offset]
      invariant forall p :: j <= p < out.Length ==> out[p] == old(out[p])
    {
      out[j] := out[j] + src[j + offset];
      j := j + 1;
    }
  }

  /** One iteration of lines 212-220: add dst at the given offset into the block, then copy the
      first k samples of src over dst. */
  method ShiftSlot(out: array<real>, dst: array<real>, src: array<real>, offset: nat, k: nat)
    requires out != dst && out != src && dst != src
    requires offset + out.Length <= dst.Length && k <= dst.Length && k <= src.Length
    modifies out, dst
    ensures forall j :: 0 <= j < out.Length ==> out[j] == old(out[j]) + old(dst[j + offset])
    ensures dst[..k] == src[..k] && dst[k..] == old(dst[k..])
  {
    AddInto(out, dst, offset, out.Length);
    Copy(dst, src, k);
  }

  /** Lines 212-220 for one ear: for i = 1 .. |ring| - 1, add slot i at offset n * i into the block,
      then copy the first k samples of slot i - 1 over slot i. The copy runs in ascending order, so
      every slot ends up holding slot 0; slot 0 itself is not written. */
  method OverlapAndShift(out: array<real>, ring: seq<array<real>>, n: nat, k: nat)
    requires out.Length == n && 1 <= |ring| && Distinct(ring) && out !in ring
    requires forall i :: 0 <= i < |ring| ==> k <= ring[i].Length
    requires TailFits(Contents(ring), n)
    modifies out, ring
    ensures out[..] == OverlapAdd(old(out[..]), old(Contents(ring)), n)
    ensures ring[0][..] == old(ring[0][..])
    ensures forall i :: 1 <= i < |ring| ==> ring[i][..k] == old(ring[0][..k]) && ring[i][k..] == old(ring[i][k..])
  {
    ghost var before := Contents(ring);
    ghost var out0 := out[..];
    var i := 1;
    while i < |ring|
      invariant 1 <= i <= |ring|
      invariant forall j :: 0 <= j < n ==> out[j] == out0[j] + Tail(before, j, n, i)
      invariant ring[0][..] == before[0]
      invariant forall p :: 1 <= p < i ==> ring[p][..k] == before[0][..k] && ring[p][k..] == before[p][k..]
      invariant forall p :: i <= p < |ring| ==> ring[p][..] == before[p]
    {
      ShiftSlot(out, ring[i], ring[i - 1], n * i, k);
      i := i + 1;
    }
    assert out[..] == OverlapAdd(out0, before, n);
  }

  /** The fix of lines 212-220: copy slot i - 1 over slot i for i = |ring| - 1 down to 1, so that
      every block moves one slot further back and slot i holds the block i periods old, as the
      overlap-add's read of slot i at offset n * i needs. */
  method AgeRing(ring: seq<array<real>>, k: nat)
    requires 1 <= |ring| && Distinct(ring)
    requires forall i :: 0 <= i < |ring| ==> k <= ring[i].Length
    modifies ring
    ensures ring[0][..] == old(ring[0][..])
    ensures forall i :: 1 <= i < |ring| ==> ring[i][..k] == old(ring[i - 1][..k]) && ring[i][k..] == old(ring[i][k..])
  {
    ghost var before := Contents(ring);
    var i := |ring| - 1;
    while i >= 1
      invariant 0 <= i < |ring|
      invariant forall p :: 0 <= p <= i ==> ring[p][..] == before[p]
      invariant forall p :: i < p < |ring| ==> ring[p][..k] == before[p - 1][..k] && ring[p][k..] == before[p][k..]
    {
      Copy(ring[i], ring[i - 1], k);
      i := i - 1;
    }
  }

  /** The overlap-add never reads slot 0. */
  lemma OverlapAddIgnoresSlotZero(conv: seq<real>, h1: seq<seq<real>>, h2: seq<seq<real>>, n: nat)
    requires n <= |conv| && |h1| == |h2| && TailFits(h1, n) && TailFits(h2, n)
    requires forall q :: 1 <= q < |h1| ==> h1[q] == h2[q]
    ensures OverlapAdd(conv, h1, n) == OverlapAdd(conv, h2, n)
  {
    forall j | 0 <= j < n ensures Tail(h1, j, n, |h1|) == Tail(h2, j, n, |h2|) {
      TailAgrees(h1, h2, j, n, |h1|);
    }
  }

  lemma {:induction false} TailAgrees(h1: seq<seq<real>>, h2: seq<seq<real>>, j: nat, n: nat, c: nat)
    requires |h1| == |h2| && TailFits(h1, n) && TailFits(h2, n) && j < n && c <= |h1|
    requires forall q :: 1 <= q < |h1| ==> h1[q] == h2[q]
    ensures Tail(h1, j, n, c) == Tail(h2, j, n, c)
    decreases c
  {
    if c > 1 {
      TailAgrees(h1, h2, j, n, c - 1);
    }
  }
}
