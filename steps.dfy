/** One block of processBlock on values: the buffers of one output channel, the loaded bank, and
    what one block of each path does to them. */
module Steps {
  import opened Spectral
  import opened Planning
  import opened Overlap
  import opened Buffers

  /** The single-impulse-response buffers of one output channel: that channel of ir_buffer, ir_<ear>,
      current_<ear> and previous_<ear>. */
  datatype Ear = Ear(irBuffer: seq<real>, ir: Spectrum, current: seq<real>, previous: seq<real>)

  /** hrtf_buffer.left and hrtf_buffer.right: one spectrum per loaded file and output channel. */
  datatype Bank = Bank(left: seq<Spectrum>, right: seq<Spectrum>)

  /** Lines 225-255 for one ear: the channel of ir_buffer is cut or zero-padded to k samples and
      transformed, current is a freshly malloc'd buffer and previous is k zeros. */
  function LoadedEar(t: Transform, e: Ear, k: nat, current: seq<real>): (r: Ear)
    ensures |r.irBuffer| == k && |r.ir| == Bins(k) && r.current == current && r.previous == Zeros(k)
  {
    var buffer := Padded(e.irBuffer, k);
    Ear(buffer, Forward(t, k, buffer), current, Zeros(k))
  }

  /** The loaded response is the padded channel and its spectrum: the first min(m, k) samples of the
      file, then silence. */
  lemma LoadedEarHoldsResponse(t: Transform, e: Ear, k: nat, current: seq<real>, i: nat)
    requires i < k
    ensures LoadedEar(t, e, k, current).irBuffer[i] == if i < |e.irBuffer| then e.irBuffer[i] else 0.0
    ensures LoadedEar(t, e, k, current).ir == Forward(t, k, LoadedEar(t, e, k, current).irBuffer)
  {
    var r := LoadedEar(t, e, k, current);
    assert r.irBuffer == Fit(e.irBuffer, k, 0.0);
  }

  /** Both rings hold depth slots of len samples each, a loaded bank whose update is done has at
      least two slots, convolution is on only with a loaded bank (the convolution button does nothing
      without one), and there is one spectrum per loaded file and ear. */
  ghost predicate Consistent(leftRing: seq<seq<real>>, rightRing: seq<seq<real>>, depth: nat, len: nat,
                             ready: bool, update: bool, conv: bool, bank: Bank, files: nat)
  {
    RingOf(leftRing, depth, len) && RingOf(rightRing, depth, len)
    && (ready && !update ==> depth >= 2)
    && (conv ==> ready)
    && |bank.left| == files && |bank.right| == files
  }

  /** The single-impulse-response buffers and flags: ir_flag, k, the test tone buffer, whether it
      was made, and the buffers of each output channel. */
  datatype SingleState = SingleState(irFlag: bool, k: nat, sine: seq<real>, sineInit: bool, left: Ear, right: Ear)

  /** One block of the single-impulse-response path from state s to state s', for a block of n samples
      whose channel 0 held input: a pending response is loaded with the old k into the ears the block
      starts from (startLeft, startRight), each with a freshly malloc'd current buffer of the old k
      samples; k becomes EvenSize(n), the tone is made once, and each ear takes one SingleStep on the
      tone or on input. */
  ghost predicate SingleSpec(t: Transform, tone: nat -> real, n: nat, sineFlag: bool, conv: bool, input: seq<real>,
                             s: SingleState, s': SingleState, startLeft: Ear, startRight: Ear, outLeft: seq<real>, outRight: seq<real>)
  {
    !s'.irFlag && s'.k == EvenSize(n) && s'.sineInit == (s.sineInit || sineFlag)
    && (sineFlag && !s.sineInit ==> |s'.sine| == s'.k && forall i :: 0 <= i < n ==> s'.sine[i] == tone(i))
    && (!(sineFlag && !s.sineInit) ==> s'.sine == s.sine)
    && (s.irFlag ==>
          startLeft == LoadedEar(t, s.left, s.k, startLeft.current) && |startLeft.current| == s.k
          && startRight == LoadedEar(t, s.right, s.k, startRight.current) && |startRight.current| == s.k)
    && (!s.irFlag ==> startLeft == s.left && startRight == s.right)
    && (sineFlag ==> n <= |s'.sine|)
    && var x := if sineFlag then s'.sine[..n] else input;
       SingleStep(t, s'.k, n, x, conv, startLeft, s'.left, outLeft)
       && SingleStep(t, s'.k, n, x, conv, startRight, s'.right, outRight)
  }

  /** With convolution on, one ear's buffers fit a transform of k samples and a block of n. */
  ghost predicate EarFits(e: Ear, k: nat, n: nat)
  {
    Bins(k) <= |e.ir| && k <= |e.current| && k <= |e.previous| && 2 * n <= |e.previous|
  }

  /** One ear of one block of the bank path (lines 190-220): the block `input` of n samples is written
      into slot 0 and zero-padded to k there, and the first k samples of slot 0 are convolved in
      place with the selected spectrum. The output is the first n samples of slot 0 plus the
      overlap-add of the older slots as they were; every other slot's first k samples become the
      convolution. The slots must hold the block, the transform and every read. */
  ghost predicate BankStep(t: Transform, k: nat, n: nat, input: seq<real>, spectrum: Spectrum,
                           before: seq<seq<real>>, after: seq<seq<real>>, out: seq<real>)
  {
    |input| == n && Bins(k) <= |spectrum| && |before| >= 1 && n <= |before[0]|
    && TailFits(before, n) && (forall q :: 0 <= q < |before| ==> k <= |before[q]|)
    && var conv := FftwConvolved(t, k, Padded(input, k), spectrum);
       var first := FilledSlot(before[0], input, k, conv);
       out == OverlapAdd(first, before, n) && after == Refilled(before, conv)[0 := first]
  }

  /** Sample j of a bank block's output: the convolution's sample j when j < k, and otherwise the
      raw input sample left in slot 0, plus the older slots' tail. */
  lemma BankStepOutput(t: Transform, k: nat, n: nat, input: seq<real>, spectrum: Spectrum,
                       before: seq<seq<real>>, after: seq<seq<real>>, out: seq<real>, j: nat)
    requires BankStep(t, k, n, input, spectrum, before, after, out) && j < n
    ensures var conv := FftwConvolved(t, k, Padded(input, k), spectrum);
      out[j] == (if j < k then conv[j] else input[j]) + Tail(before, j, n, |before|)
  {
  }

  /** For a block of at most k samples, a bank block is the overlap-add of the convolution itself,
      and every slot, slot 0 included, starts with the convolution. */
  lemma BankStepOfShortBlock(t: Transform, k: nat, n: nat, input: seq<real>, spectrum: Spectrum,
                             before: seq<seq<real>>, after: seq<seq<real>>, out: seq<real>)
    requires BankStep(t, k, n, input, spectrum, before, after, out) && n <= k
    ensures var conv := FftwConvolved(t, k, Padded(input, k), spectrum);
      out == OverlapAdd(conv, before, n) && after == Refilled(before, conv)
  {
    var conv := FftwConvolved(t, k, Padded(input, k), spectrum);
    FilledSlotOfShortBlock(before[0], input, k, conv);
    OverlapAddReadsPrefix(FilledSlot(before[0], input, k, conv), conv, before, n);
  }

  /** One block of the bank path for both ears, with the spectra of the selected file. */
  ghost predicate BankSpec(t: Transform, k: nat, n: nat, input: seq<real>, bank: Bank, sel: nat,
                           startLeft: seq<seq<real>>, startRight: seq<seq<real>>,
                           leftRing: seq<seq<real>>, rightRing: seq<seq<real>>, outLeft: seq<real>, outRight: seq<real>)
  {
    sel < |bank.left| && sel < |bank.right|
    && BankStep(t, k, n, input, bank.left[sel], startLeft, leftRing, outLeft)
    && BankStep(t, k, n, input, bank.right[sel], startRight, rightRing, outRight)
  }

  /** One ear of one block of the single-impulse-response path, for a block x of n samples padded to
      k. With convolution on, the result of the as-written product with the response's spectrum
      overwrites current and previous, and the output is that result plus samples n .. 2n - 1 of the
      previous one; with convolution off, the output is the normalised round trip and the ear is kept. */
  ghost predicate SingleStep(t: Transform, k: nat, n: nat, x: seq<real>, conv: bool, before: Ear, after: Ear, out: seq<real>)
  {
    |x| == n <= k
    && if conv then
         EarFits(before, k, n)
         && var c := FftwConvolved(t, k, Padded(x, k), before.ir);
            out == OneTailAdd(c, before.previous, n)
            && after == before.(current := Overwritten(before.current, c), previous := Overwritten(before.previous, c))
       else
         out == RoundTrip(t, k, Padded(x, k))[..n] && after == before
  }

  /** The tail sums of two histories agree when their slots agree at every position the sum reads. */
  lemma {:induction false} TailAgreesAtReads(h1: seq<seq<real>>, h2: seq<seq<real>>, j: nat, n: nat, c: nat)
    requires |h1| == |h2| && TailFits(h1, n) && TailFits(h2, n) && j < n && c <= |h1|
    requires forall q :: 1 <= q < c ==> h1[q][j + n * q] == h2[q][j + n * q]
    ensures Tail(h1, j, n, c) == Tail(h2, j, n, c)
    decreases c
  {
    if c > 1 {
      TailAgreesAtReads(h1, h2, j, n, c - 1);
    }
  }

  /** A history whose slots other than 0 were each overwritten by conv, read only inside conv, has
      the tail of the history that holds conv in every slot. */
  lemma EchoTail(ring0: seq<seq<real>>, ring1: seq<seq<real>>, conv: seq<real>, n: nat)
    requires 1 <= |ring0| == |ring1| && n * |ring0| <= |conv| && TailFits(ring1, n)
    requires forall q :: 1 <= q < |ring0| ==> |conv| <= |ring0[q]| && ring1[q] == Overwritten(ring0[q], conv)
    ensures TailFits(seq(|ring0|, _ => conv), n)
    ensures forall j :: 0 <= j < n ==> Tail(ring1, j, n, |ring1|) == Tail(seq(|ring0|, _ => conv), j, n, |ring0|)
  {
    var echo := seq(|ring0|, _ => conv);
    forall q | 1 <= q < |echo| ensures n * (q + 1) <= |echo[q]| {
      MulMonotone(n, q + 1, |ring0|);
    }
    forall j | 0 <= j < n ensures Tail(ring1, j, n, |ring1|) == Tail(echo, j, n, |echo|) {
      forall q | 1 <= q < |ring1| ensures ring1[q][j + n * q] == echo[q][j + n * q] {
        MulMonotone(n, q + 1, |ring0|);
      }
      TailAgreesAtReads(ring1, echo, j, n, |ring1|);
    }
  }

  /** Two consecutive blocks of the bank path on one ear: because every slot was refilled with the
      first block's convolution, the second block's output is the overlap-add over a history that
      holds nothing but that one convolution, repeated in every slot; older blocks are gone. */
  lemma BankStepsEchoLastBlock(t: Transform, k: nat, n: nat, input1: seq<real>, spectrum1: Spectrum,
                               input2: seq<real>, spectrum2: Spectrum,
                               ring0: seq<seq<real>>, ring1: seq<seq<real>>, ring2: seq<seq<real>>,
                               out1: seq<real>, out2: seq<real>)
    requires BankStep(t, k, n, input1, spectrum1, ring0, ring1, out1)
    requires BankStep(t, k, n, input2, spectrum2, ring1, ring2, out2)
    requires n * |ring0| <= k
    ensures var conv1 := FftwConvolved(t, k, Padded(input1, k), spectrum1);
            var conv2 := FftwConvolved(t, k, Padded(input2, k), spectrum2);
            TailFits(seq(|ring0|, _ => conv1), n)
            && out2 == OverlapAdd(conv2, seq(|ring0|, _ => conv1), n)
  {
    var conv1 := FftwConvolved(t, k, Padded(input1, k), spectrum1);
    var conv2 := FftwConvolved(t, k, Padded(input2, k), spectrum2);
    assert ring1 == Refilled(ring0, conv1)[0 := FilledSlot(ring0[0], input1, k, conv1)];
    EchoTail(ring0, ring1, conv1, n);
    MulMonotone(n, 1, |ring0|);
    forall j | 0 <= j < n ensures out2[j] == OverlapAdd(conv2, seq(|ring0|, _ => conv1), n)[j] {
      BankStepOutput(t, k, n, input2, spectrum2, ring1, ring2, out2, j);
    }
  }

  /** The first convolved block after a response is loaded: previous is silence, so the output is
      the block's convolution alone. */
  lemma LoadedEarStartsSilent(t: Transform, k: nat, n: nat, x: seq<real>, e: Ear, current: seq<real>,
                              after: Ear, out: seq<real>)
    requires SingleStep(t, k, n, x, true, LoadedEar(t, e, k, current), after, out)
    ensures out == FftwConvolved(t, k, Padded(x, k), LoadedEar(t, e, k, current).ir)[..n]
  {
    var c := FftwConvolved(t, k, Padded(x, k), LoadedEar(t, e, k, current).ir);
    assert forall j :: 0 <= j < n ==> out[j] == c[j] + 0.0;
  }

  /** Two consecutive convolved blocks of the single-impulse-response path on one ear: previous now
      holds the first block's result, so the second output is its result plus samples n .. 2n - 1
      of the first one (lines 306-315). */
  lemma SingleStepsOverlap(t: Transform, k: nat, n: nat, x1: seq<real>, x2: seq<real>,
                           e0: Ear, e1: Ear, e2: Ear, out1: seq<real>, out2: seq<real>)
    requires SingleStep(t, k, n, x1, true, e0, e1, out1)
    requires SingleStep(t, k, n, x2, true, e1, e2, out2)
    requires 2 * n <= k
    ensures var c1 := FftwConvolved(t, k, Padded(x1, k), e0.ir);
            var c2 := FftwConvolved(t, k, Padded(x2, k), e0.ir);
            e2.ir == e0.ir && out2 == OneTailAdd(c2, c1, n)
            && e2.current[..k] == c2 && e2.previous[..k] == c2
  {
    var c1 := FftwConvolved(t, k, Padded(x1, k), e0.ir);
    var c2 := FftwConvolved(t, k, Padded(x2, k), e0.ir);
    assert e1.previous == Overwritten(e0.previous, c1);
    forall j | 0 <= j < n ensures out2[j] == OneTailAdd(c2, c1, n)[j] {
      assert e1.previous[..k][j + n] == c1[j + n];
    }
  }
}
