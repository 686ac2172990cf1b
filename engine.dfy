/** BinauralizationAudioProcessor: the fields processBlock and the editor share, and processBlock
    with its update branch, its bank path and its single-impulse-response path. The source keeps a
    left and a right copy of every buffer; here the buffers of one output channel form an `Ear`
    value, which the processor's methods reassign. The host buffer's two channels are arrays written
    in place. What a malloc leaves in a buffer is arbitrary. */
module Engine {
  import opened Spectral
  import opened Planning
  import opened Overlap
  import opened Buffers
  import opened Kernels
  import opened Steps

  class Processor {
    /** FFTW's transforms, and the cosine test tone (sample i) of the sine branch. */
    const backend: Transform
    const testTone: nat -> real

    // Flags shared with the editor.
    var irUpdate: bool
    var irReady: bool
    var performConv: bool
    var sineFlag: bool
    var irFlag: bool
    var sineInit: bool

    /** Block size, transform size and history depth. */
    var n: nat
    var k: nat
    var mem: nat

    /** overlap_buffer_left and overlap_buffer_right: mem history slots per output channel. */
    var leftRing: seq<seq<real>>
    var rightRing: seq<seq<real>>

    /** Every slot of both rings was allocated with slotLength samples. */
    ghost var slotLength: nat

    /** The loaded bank: the length of its files, their number, their spectra and the slider's
        selection. */
    var numSamples: nat
    var numHrtfs: nat
    var bank: Bank
    var sel: nat

    /** The test tone buffer, and the single-impulse-response buffers of each output channel. */
    var sine: seq<real>
    var leftEar: Ear
    var rightEar: Ear

    /** The state the single-impulse-response path reads and writes. */
    ghost function Snapshot(): SingleState
      reads this`irFlag, this`k, this`sine, this`sineInit, this`leftEar, this`rightEar
    {
      SingleState(irFlag, k, sine, sineInit, leftEar, rightEar)
    }

    /** A block of the bank path on a block whose channel 0 held input has taken each ear's ring
        from its start to its current contents with the selected spectrum and wrote outLeft and
        outRight. */
    ghost predicate BankDone(input: seq<real>, startLeft: seq<seq<real>>, startRight: seq<seq<real>>,
                             outLeft: seq<real>, outRight: seq<real>)
      reads this`k, this`n, this`bank, this`sel, this`leftRing, this`rightRing
    {
      BankSpec(backend, k, n, input, bank, sel, startLeft, startRight, leftRing, rightRing, outLeft, outRight)
    }

    /** From the state before, a block of the single-impulse-response path on a block whose channel 0
        held input has led to the current state and wrote outLeft and outRight. */
    ghost predicate SingleDone(input: seq<real>, before: SingleState, startLeft: Ear, startRight: Ear,
                               outLeft: seq<real>, outRight: seq<real>)
      reads this`n, this`sineFlag, this`performConv, this`irFlag, this`k, this`sine, this`sineInit, this`leftEar, this`rightEar
    {
      SingleSpec(backend, testTone, n, sineFlag, performConv, input, before, Snapshot(), startLeft, startRight, outLeft, outRight)
    }

    /** The rings hold mem slots of slotLength samples each, a loaded bank has at least two slots,
        performConv is set only with a loaded bank, and there is one spectrum per loaded file and
        ear. */
    ghost predicate Valid()
      reads this`leftRing, this`rightRing, this`mem, this`slotLength, this`irReady, this`irUpdate
      reads this`performConv, this`bank, this`numHrtfs
    {
      Consistent(leftRing, rightRing, mem, slotLength, irReady, irUpdate, performConv, bank, numHrtfs)
    }

    /** The bank path reads and writes in bounds: the block (line 192) and the transform (line 204)
        fit in a slot, the overlap-add's reads n * mem do too (line 214), and the selection is a
        loaded spectrum of at least k / 2 + 1 bins. The slots are those the update branch allocates
        when an update is pending. */
    ghost predicate BankFits(n: nat)
      requires irUpdate ==> n > 0
      reads this`irUpdate, this`k, this`mem, this`slotLength, this`sel, this`bank
    {
      var depth := if irUpdate then MemDepth(k, n) else mem;
      var len := if irUpdate then k else slotLength;
      n <= len && k <= len && n * depth <= len
      && sel < |bank.left| && sel < |bank.right|
      && Bins(k) <= |bank.left[sel]| && Bins(k) <= |bank.right[sel]|
    }

    /** The single-impulse-response path reads and writes in bounds with k = EvenSize(n): a test tone
        made earlier has n samples, and with convolution on the response's spectra and the current and
        previous buffers (those of the old k when the response is loaded in this block) are long
        enough. */
    ghost predicate SingleFits(n: nat)
      reads this`sineFlag, this`sineInit, this`sine, this`performConv, this`irFlag, this`k, this`leftEar, this`rightEar
    {
      var K := EvenSize(n);
      (sineFlag && sineInit ==> n <= |sine|)
      && (performConv && irFlag ==> K <= k && 2 * n <= k)
      && (performConv && !irFlag ==> EarFits(leftEar, K, n) && EarFits(rightEar, K, n))
    }

    /** What processBlock demands of a block of n samples. */
    ghost predicate CanProcess(n: nat)
      reads this
    {
      (irUpdate ==> n > 0)
      && (irReady && performConv ==> BankFits(n))
      && (!(irReady && performConv) ==> SingleFits(n))
    }

    /** The processor as constructed: every flag false (PluginProcessor.h:70-72), nothing loaded. */
    constructor (backend: Transform, testTone: nat -> real)
      ensures Valid()
      ensures this.backend == backend && this.testTone == testTone
      ensures !irUpdate && !irReady && !performConv && !sineFlag && !irFlag && !sineInit
      ensures n == 0 && k == 0 && mem == 0 && numHrtfs == 0 && numSamples == 0 && sel == 0
    {
      this.backend := backend;
      this.testTone := testTone;
      irUpdate, irReady, performConv, sineFlag, irFlag, sineInit := false, false, false, false, false, false;
      n, k, mem, slotLength := 0, 0, 0, 0;
      leftRing, rightRing := [], [];
      numSamples, numHrtfs, bank, sel := 0, 0, Bank([], []), 0;
      sine := [];
      leftEar, rightEar := Ear([], [], [], []), Ear([], [], [], []);
    }

    /** Lines 142-182: n becomes the block size; after a bank was loaded, MEM := max(k / n, 2) and
        each ear gets MEM freshly malloc'd slots of k samples, and ir_update is cleared. */
    method UpdateBranch(blockSize: nat)
      requires Valid() && (irUpdate ==> blockSize > 0)
      modifies this`n, this`leftRing, this`rightRing, this`mem, this`slotLength, this`irUpdate
      ensures Valid() && !irUpdate && n == blockSize
      ensures old(irUpdate) ==> mem == MemDepth(k, n) && slotLength == k
      ensures !old(irUpdate) ==>
        (leftRing == old(leftRing) && rightRing == old(rightRing) && mem == old(mem) && slotLength == old(slotLength))
      ensures unchanged(this`irFlag, this`k, this`sine, this`sineInit, this`leftEar, this`rightEar)
    {
      if irUpdate {
        var depth := MemDepth(k, blockSize);
        var left := NewRing(depth, k);
        var right := NewRing(depth, k);
        n, mem, slotLength, irUpdate := blockSize, depth, k, false;
        leftRing, rightRing := left, right;
      } else {
        n := blockSize;
      }
    }

    /** The bank path (lines 185-222): both ears take channel 0 as input; each ear's slot 0 gets the
        block and its convolution with the selected spectrum, the output is slot 0's first n samples
        plus the overlap-add of the older slots, and the ascending copy leaves the convolution in
        the first k samples of every other slot. */
    method ConvolveBlock(left: array<real>, right: array<real>)
      requires Valid() && left != right && left.Length == n && right.Length == n
      requires mem >= 1 && n <= slotLength && k <= slotLength && TailFits(leftRing, n) && TailFits(rightRing, n)
      requires sel < |bank.left| && sel < |bank.right|
      requires Bins(k) <= |bank.left[sel]| && Bins(k) <= |bank.right[sel]|
      modifies left, right, this`leftRing, this`rightRing
      ensures Valid()
      ensures BankStep(backend, k, n, old(left[..]), bank.left[sel], old(leftRing), leftRing, left[..])
      ensures BankStep(backend, k, n, old(left[..]), bank.right[sel], old(rightRing), rightRing, right[..])
      ensures unchanged(this`irFlag, this`k, this`sine, this`sineInit, this`leftEar, this`rightEar)
    {
      var input := left[..];
      var convLeft := FftwConvolved(backend, k, Padded(input, k), bank.left[sel]);
      var convRight := FftwConvolved(backend, k, Padded(input, k), bank.right[sel]);
      var firstLeft := FilledSlot(leftRing[0], input, k, convLeft);
      var firstRight := FilledSlot(rightRing[0], input, k, convRight);
      WriteBlocks(left, right, OverlapAdd(firstLeft, leftRing, n), OverlapAdd(firstRight, rightRing, n));
      leftRing, rightRing := Refilled(leftRing, convLeft)[0 := firstLeft], Refilled(rightRing, convRight)[0 := firstRight];
    }

    /** Lines 224-272: a pending response is loaded into both ears with the transform size k of the
        last block (ir_flag is cleared), k := the even transform size of a block of n samples and, on
        the first block with the test tone on, a buffer of k samples whose first n hold the tone. */
    method StartSingleBlock()
      requires SingleFits(n)
      modifies this`leftEar, this`rightEar, this`irFlag, this`k, this`sine, this`sineInit
      ensures !irFlag && k == EvenSize(n) && sineInit == (old(sineInit) || sineFlag)
      ensures sineFlag && !old(sineInit) ==> |sine| == k && forall i :: 0 <= i < n ==> sine[i] == testTone(i)
      ensures !(sineFlag && !old(sineInit)) ==> sine == old(sine)
      ensures old(irFlag) ==>
        leftEar == LoadedEar(backend, old(leftEar), old(k), leftEar.current) && |leftEar.current| == old(k)
        && rightEar == LoadedEar(backend, old(rightEar), old(k), rightEar.current) && |rightEar.current| == old(k)
      ensures !old(irFlag) ==> leftEar == old(leftEar) && rightEar == old(rightEar)
      ensures n <= k && (sineFlag ==> n <= |sine|)
      ensures performConv ==> EarFits(leftEar, k, n) && EarFits(rightEar, k, n)
      ensures unchanged(this`irUpdate, this`irReady, this`n, this`mem, this`slotLength)
      ensures unchanged(this`leftRing, this`rightRing, this`bank, this`numHrtfs)
    {
      if irFlag {
        var currentLeft := Malloc(k);
        var currentRight := Malloc(k);
        leftEar, rightEar, irFlag :=
          LoadedEar(backend, leftEar, k, currentLeft), LoadedEar(backend, rightEar, k, currentRight), false;
      }
      var size := EvenSize(n);
      if sineFlag && !sineInit {
        var tone := NewTestTone(size, n, testTone);
        sine, sineInit := tone[..], true;
      }
      k := size;
    }

    /** Lines 274-325: the block x (the test tone or channel 0) is zero-padded to k samples and
        transformed. With convolution on, each ear multiplies by its response's spectrum as written;
        its result overwrites current and previous and the output is that result plus samples
        n .. 2n - 1 of the previous one. With convolution off, each channel gets the normalised round trip of x. */
    method SingleIrBlock(left: array<real>, right: array<real>)
      requires left != right && left.Length == n && right.Length == n && n <= k
      requires sineFlag ==> n <= |sine|
      requires performConv ==> EarFits(leftEar, k, n) && EarFits(rightEar, k, n)
      modifies left, right, this`leftEar, this`rightEar
      ensures var x := if sineFlag then sine[..n] else old(left[..]);
        SingleStep(backend, k, n, x, performConv, old(leftEar), leftEar, left[..])
        && SingleStep(backend, k, n, x, performConv, old(rightEar), rightEar, right[..])
      ensures unchanged(this`irUpdate, this`irReady, this`n, this`mem, this`slotLength)
      ensures unchanged(this`leftRing, this`rightRing, this`bank, this`numHrtfs)
    {
      var x := Padded(if sineFlag then sine[..n] else left[..], k);
      if performConv {
        var convLeft := FftwConvolved(backend, k, x, leftEar.ir);
        var convRight := FftwConvolved(backend, k, x, rightEar.ir);
        WriteBlocks(left, right, OneTailAdd(convLeft, leftEar.previous, n), OneTailAdd(convRight, rightEar.previous, n));
        leftEar, rightEar :=
          leftEar.(current := Overwritten(leftEar.current, convLeft), previous := Overwritten(leftEar.previous, convLeft)),
          rightEar.(current := Overwritten(rightEar.current, convRight), previous := Overwritten(rightEar.previous, convRight));
      } else {
        var out := RoundTrip(backend, k, x)[..n];
        WriteBlocks(left, right, out, out);
      }
    }

    /** processBlock's bank path (lines 142-222): the update branch, then the block is convolved with
        the selected spectrum; startLeft and startRight are the rings after the update branch. */
    method BankPath(left: array<real>, right: array<real>) returns (ghost startLeft: seq<seq<real>>, ghost startRight: seq<seq<real>>)
      requires Valid() && irReady && (irUpdate ==> left.Length > 0) && BankFits(left.Length)
      requires left != right && left.Length == right.Length
      modifies left, right, this`n, this`leftRing, this`rightRing, this`mem, this`slotLength, this`irUpdate
      ensures Valid() && !irUpdate && n == left.Length
      ensures old(irUpdate) ==> mem == MemDepth(old(k), n) && slotLength == old(k)
      ensures !old(irUpdate) ==> startLeft == old(leftRing) && startRight == old(rightRing)
      ensures BankDone(old(left[..]), startLeft, startRight, left[..], right[..])
      ensures Snapshot() == old(Snapshot())
    {
      UpdateBranch(left.Length);
      UniformTailFits(leftRing, n, slotLength);
      UniformTailFits(rightRing, n, slotLength);
      startLeft, startRight := leftRing, rightRing;
      ConvolveBlock(left, right);
    }

    /** Lines 223-325: a pending response is loaded, k and the test tone are prepared, and the block
        is processed; startLeft and startRight are the ears the block starts from. */
    method SinglePath(left: array<real>, right: array<real>) returns (ghost startLeft: Ear, ghost startRight: Ear)
      requires SingleFits(n) && left != right && left.Length == n && right.Length == n
      modifies left, right, this`leftEar, this`rightEar, this`irFlag, this`k, this`sine, this`sineInit
      ensures SingleDone(old(left[..]), old(Snapshot()), startLeft, startRight, left[..], right[..])
      ensures k == EvenSize(n)
      ensures unchanged(this`irUpdate, this`irReady, this`n, this`mem, this`slotLength)
      ensures unchanged(this`leftRing, this`rightRing, this`bank, this`numHrtfs)
    {
      StartSingleBlock();
      startLeft, startRight := leftEar, rightEar;
      SingleIrBlock(left, right);
    }

    /** processBlock's other path (lines 142-182 and 223-325): the update branch, then SinglePath. */
    method SingleBranch(left: array<real>, right: array<real>)
      returns (ghost input: seq<real>, ghost before: SingleState, ghost startLeft: Ear, ghost startRight: Ear)
      requires Valid() && (irUpdate ==> left.Length > 0) && SingleFits(left.Length)
      requires left != right && left.Length == right.Length
      modifies left, right, this`n, this`leftRing, this`rightRing, this`mem, this`slotLength, this`irUpdate
      modifies this`leftEar, this`rightEar, this`irFlag, this`k, this`sine, this`sineInit
      ensures Valid() && !irUpdate && n == left.Length
      ensures old(irUpdate) ==> mem == MemDepth(old(k), n) && slotLength == old(k)
      ensures !old(irUpdate) ==> leftRing == old(leftRing) && rightRing == old(rightRing)
      ensures input == old(left[..]) && before == old(Snapshot())
      ensures SingleDone(input, before, startLeft, startRight, left[..], right[..])
      ensures k == EvenSize(n)
    {
      input, before := left[..], Snapshot();
      UpdateBranch(left.Length);
      assert input == left[..] && before == Snapshot();
      startLeft, startRight := SinglePath(left, right);
    }

    /** processBlock (lines 130-331) on a host buffer whose channels are left (also the input) and
        right: the bank path when a bank is loaded and convolution is on, the other path otherwise.
        The update branch runs first on both; it does not touch the flags the choice reads. The ghost
        results are the rings the bank path starts from, and the single-impulse-response state and
        ears the other path starts from. */
    method ProcessBlock(left: array<real>, right: array<real>)
      returns (ghost startLeftRing: seq<seq<real>>, ghost startRightRing: seq<seq<real>>,
               ghost before: SingleState, ghost startLeft: Ear, ghost startRight: Ear)
      requires Valid() && CanProcess(left.Length) && left != right && left.Length == right.Length
      modifies left, right, this`n, this`leftRing, this`rightRing, this`mem, this`slotLength, this`irUpdate
      modifies this`leftEar, this`rightEar, this`irFlag, this`k, this`sine, this`sineInit
      ensures Valid() && !irUpdate && n == left.Length
      ensures old(irUpdate) ==> mem == MemDepth(old(k), n) && slotLength == old(k)
      ensures k == SizeAfterBlock(old(k), n, irReady && performConv)
      ensures irReady && performConv ==>
        (!old(irUpdate) ==> startLeftRing == old(leftRing) && startRightRing == old(rightRing))
        && BankDone(old(left[..]), startLeftRing, startRightRing, left[..], right[..])
        && Snapshot() == old(Snapshot())
      ensures !(irReady && performConv) ==>
        (!old(irUpdate) ==> leftRing == old(leftRing) && rightRing == old(rightRing))
        && before == old(Snapshot())
        && SingleDone(old(left[..]), before, startLeft, startRight, left[..], right[..])
    {
      if irReady && performConv {
        before, startLeft, startRight := Snapshot(), leftEar, rightEar;
        startLeftRing, startRightRing := BankPath(left, right);
      } else {
        startLeftRing, startRightRing := leftRing, rightRing;
        ghost var input;
        input, before, startLeft, startRight := SingleBranch(left, right);
      }
    }
  }
}
