/** Integer planning of the overlap-add engine: the transform size K for a block size n and an
    impulse-response length m (get_padding_size), the history depth MEM computed in processBlock's
    update branch, and the even transform size of the single-impulse-response path. */
module Planning {

  /** The impulse-response length the single-impulse-response path assumes (m = 128). */
  const SingleIrLength: nat := 128

  /** Euclidean division is unique: a helper for the arithmetic below. */
  lemma DivModUnique(x: int, n: int, q: int, r: int)
    requires n > 0 && 0 <= r < n && x == n * q + r
    ensures x / n == q && x % n == r
  {
    var d := q - x / n;
    assert n * d == x % n - r;
    if d > 0 {
      assert false;
    } else if d < 0 {
      assert false;
    }
  }

  /** Multiplication by a positive factor is monotone. */
  lemma MulMonotone(n: nat, a: nat, b: nat)
    requires a <= b
    ensures n * a <= n * b
  {
    assert n * b - n * a == n * (b - a);
  }

  /** get_padding_size(n, m): n + m - 1 rounded up to the next multiple of n. */
  function PaddingSize(n: int, m: int): (k: nat)
    requires n > 0 && m >= 0
    ensures k % n == 0
    ensures n + m - 1 <= k < n + m - 1 + n
    ensures (n + m - 1) % n == 0 ==> k == n + m - 1
  {
    var k0 := n + m - 1;
    if k0 % n != 0 then
      DivModUnique(k0 + (n - k0 % n), n, k0 / n + 1, 0);
      k0 + (n - k0 % n)
    else
      k0
  }

  /** PaddingSize is the least multiple of n that is at least n + m - 1. */
  lemma PaddingSizeIsLeast(n: int, m: int, j: int)
    requires n > 0 && m >= 0
    requires j >= n + m - 1 && j % n == 0
    ensures PaddingSize(n, m) <= j
  {
    var k := PaddingSize(n, m);
    DivModUnique(k, n, k / n, 0);
    DivModUnique(j, n, j / n, 0);
    if j < k {
      assert n * (k / n) - n * (j / n) == n * (k / n - j / n);
      assert k / n - j / n >= 1 by {
        if k / n - j / n <= 0 {
          MulMonotone(n, k / n, j / n);
        }
      }
      MulMonotone(n, 1, k / n - j / n);
      assert false;
    }
  }

  /** With a non-empty impulse response every block fits in one transform (n <= k); with at least two
      samples the transform spans at least two blocks. */
  lemma PaddingSizeCoversBlocks(n: int, m: int)
    requires n > 0 && m >= 1
    ensures n <= PaddingSize(n, m)
    ensures m >= 2 ==> 2 * n <= PaddingSize(n, m)
  {
    if m >= 2 {
      PaddingSizeIsLeast(n, m, PaddingSize(n, m));
      var k := PaddingSize(n, m);
      DivModUnique(k, n, k / n, 0);
      if k / n <= 1 {
        MulMonotone(n, k / n, 1);
        assert false;
      }
      MulMonotone(n, 2, k / n);
    }
  }

  /** MEM = max(k / n, 2), line 169 of processBlock. The overlap-add reads slot i at offsets up to
      n * i + n - 1, so all reads stay inside a slot of k samples exactly when 2n <= k. */
  function MemDepth(k: nat, n: nat): (mem: nat)
    requires n > 0
    ensures mem >= 2 && mem >= k / n
    ensures n * mem <= k <==> 2 * n <= k
  {
    MemDepthReads(k, n);
    if k / n > 2 then k / n else 2
  }

  /** The arithmetic behind MemDepth's bound: n * max(k / n, 2) <= k exactly when 2n <= k. */
  lemma MemDepthReads(k: nat, n: nat)
    requires n > 0
    ensures n * (if k / n > 2 then k / n else 2) <= k <==> 2 * n <= k
  {
    DivModUnique(k, n, k / n, k % n);
    if k / n > 2 {
      MulMonotone(n, 2, k / n);
    }
  }

  /** The history depth of a plan is enough for every read exactly when the impulse response has at
      least two samples; a one-sample response (k = n) forces MEM = 2 and reads past the slot. */
  lemma OverlapReadsFitPlan(n: int, m: int)
    requires n > 0 && m >= 1
    ensures var k := PaddingSize(n, m);
      n * MemDepth(k, n) <= k <==> m >= 2
  {
    PaddingSizeCoversBlocks(n, m);
    var k := PaddingSize(n, m);
    if m == 1 {
      assert k == n;
    }
  }

  /** Line 259 with m = 128: whichever of n + m - 1 and n + m is even. */
  function EvenSize(n: nat): (k: nat)
    ensures k % 2 == 0
    ensures n + SingleIrLength - 1 <= k <= n + SingleIrLength
  {
    var m := SingleIrLength;
    if (n + m - 1) % 2 != 0 then n + m else n + m - 1
  }

  /** The single-impulse-response path reads previous[i + n] for i < n in a buffer of k samples;
      that fits exactly for blocks of at most 128 samples. */
  lemma SingleTailFits(n: nat)
    ensures 2 * n <= EvenSize(n) <==> n <= SingleIrLength
  {
  }

  /** The history depth the commented-out line 168 computes (k / n). For a plan k = PaddingSize(n, m)
      it covers the whole linear-convolution length n + m - 1 and its reads never leave a slot. */
  function OverlapDepth(k: nat, n: nat): (mem: nat)
    requires n > 0
    ensures n * mem <= k
  {
    DivModUnique(k, n, k / n, k % n);
    k / n
  }

  /** OverlapDepth on a plan: at least one slot, exactly k / n block periods, all of the tail. */
  lemma OverlapDepthFitsPlan(n: int, m: int)
    requires n > 0 && m >= 1
    ensures var k := PaddingSize(n, m);
      OverlapDepth(k, n) >= 1 && n * OverlapDepth(k, n) == k && n * OverlapDepth(k, n) >= n + m - 1
  {
    var k := PaddingSize(n, m);
    PaddingSizeCoversBlocks(n, m);
    DivModUnique(k, n, k / n, 0);
    if k / n < 1 {
      assert false;
    }
  }

  /** The transform size the next block starts with, as written: the bank path keeps k, while the
      single-impulse-response path leaves its own size EvenSize(n) (line 259) in the k the bank path
      shares. */
  function SizeAfterBlock(k: nat, n: nat, bankPath: bool): nat
  {
    if bankPath then k else EvenSize(n)
  }

  /** After one block of the single-impulse-response path, a bank planned for responses of more
      than 129 samples is convolved at a size below the linear-convolution length n + m - 1 it was
      planned for, and not at the planned size. */
  lemma SinglePathSizeBelowPlan(n: int, m: int)
    requires n > 0 && m > SingleIrLength + 1
    ensures SizeAfterBlock(PaddingSize(n, m), n, false) < n + m - 1 <= PaddingSize(n, m)
  {
  }

  /** Responses of 2000 samples and blocks of 512: the plan is k = 2560 with MEM = 5. One block of
      the single-impulse-response path leaves k = 640, and a later block of 64 samples leaves
      k = 192, less than the next bank block of 512 samples. */
  lemma SinglePathSizeCounterexample()
    ensures PaddingSize(512, 2000) == 2560 && MemDepth(2560, 512) == 5
    ensures SizeAfterBlock(2560, 512, false) == 640
    ensures SizeAfterBlock(640, 64, false) == 192 < 512
  {
    DivModUnique(2560, 512, 5, 0);
  }

  /** The corrected sizing: the single-impulse-response path keeps EvenSize(n) in a size variable
      of its own instead of writing k, so k changes only where the editor plans it. Whichever path
      a block of any size takes, the k the bank path convolves at is the one it had before. */
  function IntendedSizeAfterBlock(k: nat, n: nat, bankPath: bool): nat
  {
    k
  }

  /** With the intended sizes a plan survives every block: the bank path keeps convolving at least
      n + m - 1 samples, at a multiple of n, and for m >= 2 its reads fit the history. */
  lemma IntendedSizeKeepsPlan(n: int, m: int, blockSize: nat, bankPath: bool)
    requires n > 0 && m >= 2
    ensures var k := IntendedSizeAfterBlock(PaddingSize(n, m), blockSize, bankPath);
      n + m - 1 <= k && k % n == 0 && n * MemDepth(k, n) <= k
  {
    OverlapReadsFitPlan(n, m);
  }
}
