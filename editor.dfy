/** BinauralizationAudioProcessorEditor: the button, slider and file-loading callbacks that set the
    processor's flags and load its impulse responses. Each callback runs between two blocks. The file
    chooser and the audio decoder are inputs: a selection is the list of chosen files, each decoded
    or, when no reader exists for its format, absent. */
module Editor {
  import opened Spectral
  import opened Planning
  import opened Steps
  import opened Engine

  datatype Option<T> = None | Some(value: T)

  /** The decoded samples of an audio file, as read into the two channels of a buffer; the length
      of the left channel is the file's lengthInSamples. */
  datatype Recording = Recording(left: seq<real>, right: seq<real>)

  /** The bank openIRdirectory builds as written: count entries, each holding the spectra of the
      first file's channels zero-padded to k samples. */
  function AsWrittenBank(t: Transform, k: nat, first: Recording, count: nat): (b: Bank)
    ensures |b.left| == count && |b.right| == count
    ensures forall i :: 0 <= i < count ==>
      b.left[i] == Forward(t, k, Padded(first.left, k)) && b.right[i] == Forward(t, k, Padded(first.right, k))
  {
    Bank(seq(count, _ => Forward(t, k, Padded(first.left, k))), seq(count, _ => Forward(t, k, Padded(first.right, k))))
  }

  /** The bank the loop is evidently meant to build: entry i holds the spectra of file i. */
  function IntendedBank(t: Transform, k: nat, files: seq<Recording>): (b: Bank)
    ensures |b.left| == |files| && |b.right| == |files|
    ensures forall i :: 0 <= i < |files| ==>
      b.left[i] == Forward(t, k, Padded(files[i].left, k)) && b.right[i] == Forward(t, k, Padded(files[i].right, k))
  {
    Bank(seq(|files|, i requires 0 <= i < |files| => Forward(t, k, Padded(files[i].left, k))),
         seq(|files|, i requires 0 <= i < |files| => Forward(t, k, Padded(files[i].right, k))))
  }

  /** The bank as written is the intended one exactly when every file has the first file's spectra. */
  lemma AsWrittenBankIsIntendedIff(t: Transform, k: nat, files: seq<Recording>)
    requires |files| >= 1
    ensures AsWrittenBank(t, k, files[0], |files|) == IntendedBank(t, k, files) <==>
      forall i :: 0 <= i < |files| ==>
        Forward(t, k, Padded(files[i].left, k)) == Forward(t, k, Padded(files[0].left, k))
        && Forward(t, k, Padded(files[i].right, k)) == Forward(t, k, Padded(files[0].right, k))
  {
    var a, b := AsWrittenBank(t, k, files[0], |files|), IntendedBank(t, k, files);
    if forall i :: 0 <= i < |files| ==>
        Forward(t, k, Padded(files[i].left, k)) == Forward(t, k, Padded(files[0].left, k))
        && Forward(t, k, Padded(files[i].right, k)) == Forward(t, k, Padded(files[0].right, k)) {
      assert a.left == b.left;
      assert a.right == b.right;
    }
  }

  /** A transform whose first bin carries the first sample: it tells two files apart. */
  function FirstSampleTransform(): Transform
  {
    Transform((k, x) => if |x| > 0 then [Complex(x[0], 0.0)] else [], (k, s) => [])
  }

  /** Two files whose first samples differ: as written, the bank's second entry holds the first
      file's spectrum, not the second file's. */
  lemma AsWrittenBankCounterexample(files: seq<Recording>)
    requires files == [Recording([1.0], [1.0]), Recording([2.0], [2.0])]
    ensures AsWrittenBank(FirstSampleTransform(), 2, files[0], 2).left[1] == [Complex(1.0, 0.0), Zero]
    ensures IntendedBank(FirstSampleTransform(), 2, files).left[1] == [Complex(2.0, 0.0), Zero]
  {
    var t := FirstSampleTransform();
    assert Padded(files[0].left, 2) == [1.0, 0.0];
    assert Padded(files[1].left, 2) == [2.0, 0.0];
    assert t.forward(2, [1.0, 0.0]) == [Complex(1.0, 0.0)];
    assert t.forward(2, [2.0, 0.0]) == [Complex(2.0, 0.0)];
  }

  /** What toggleConvolution leaves in performConv: unchanged without a loaded bank, negated with one. */
  function ToggledConvolution(ready: bool, conv: bool): (r: bool)
    ensures ready ==> r != conv
    ensures !ready ==> r == conv
  {
    if ready then !conv else conv
  }

  /** Two presses of the convolution button restore performConv. */
  lemma ToggleConvolutionTwice(ready: bool, conv: bool)
    ensures ToggledConvolution(ready, ToggledConvolution(ready, conv)) == conv
  {
  }

  /** Lines 130-149 of openIRdirectory: the temporary buffer of k samples is cleared and, in the
      do-while loop, the first file is read into it and transformed into entry i of both channels.
      For distinct files the loop stops after the last file, at i = count - 1. */
  method ReadBank(t: Transform, k: nat, first: Recording, count: nat) returns (b: Bank)
    requires count >= 1
    ensures b == AsWrittenBank(t, k, first, count)
  {
    var tmpLeft, tmpRight := Padded(first.left, k), Padded(first.right, k);
    var lefts := new Spectrum[count];
    var rights := new Spectrum[count];
    var i := 0;
    var more := true;
    while more
      invariant 0 <= i <= count && (more <==> i < count)
      invariant forall j :: 0 <= j < i ==> lefts[j] == Forward(t, k, tmpLeft) && rights[j] == Forward(t, k, tmpRight)
      decreases count - i
    {
      lefts[i] := Forward(t, k, tmpLeft);
      rights[i] := Forward(t, k, tmpRight);
      more := i != count - 1;
      i := i + 1;
    }
    b := Bank(lefts[..], rights[..]);
  }

  class PluginEditor {
    const processor: Processor

    constructor (processor: Processor)
      ensures this.processor == processor
    {
      this.processor := processor;
    }

    /** toggleConvolution (lines 163-179): without a loaded bank nothing happens; otherwise
        performConv is negated. So convolution stays off while no bank is loaded. */
    method ToggleConvolution()
      requires processor.Valid()
      modifies processor`performConv
      ensures processor.Valid()
      ensures processor.performConv == ToggledConvolution(processor.irReady, old(processor.performConv))
    {
      if !processor.irReady {
        return;
      }
      if !processor.performConv {
        processor.performConv := true;
      } else {
        processor.performConv := false;
      }
    }

    /** toggleSine (lines 181-193): sineFlag is negated. */
    method ToggleSine()
      modifies processor`sineFlag
      ensures processor.sineFlag == !old(processor.sineFlag)
    {
      if processor.sineFlag {
        processor.sineFlag := false;
      } else {
        processor.sineFlag := true;
      }
    }

    /** The slider's drag-end handler (lines 31-33): the slider's value, 0 to 359 in steps of 1,
        becomes the selection; it is not checked against the number of loaded files. */
    method OnSliderDragEnd(value: int)
      requires 0 <= value <= 359
      modifies processor`sel
      ensures processor.sel == value
    {
      processor.sel := value;
    }

    /** openIRdirectory (lines 76-161). A cancelled chooser, or a first file without a reader, leaves
        everything as it was. Otherwise ir_ready is cleared, num_samples becomes the first file's
        length, num_hrtfs the number of files, k := get_padding_size(n, num_samples), and the loop
        fills one entry per file, each from the first file (file_ptr is never advanced);
        ir_ready and ir_update are then set. */
    method OpenIrDirectory(selection: Option<seq<Option<Recording>>>)
      requires processor.Valid() && processor.n > 0
      requires selection.Some? ==> |selection.value| >= 1
      modifies processor`irReady, processor`numSamples, processor`numHrtfs, processor`k, processor`bank, processor`irUpdate
      ensures processor.Valid()
      ensures selection.None? || selection.value[0].None? ==>
        processor.irReady == old(processor.irReady) && processor.irUpdate == old(processor.irUpdate)
        && processor.numSamples == old(processor.numSamples) && processor.numHrtfs == old(processor.numHrtfs)
        && processor.k == old(processor.k) && processor.bank == old(processor.bank)
      ensures selection.Some? && selection.value[0].Some? ==>
        var first := selection.value[0].value;
        processor.irReady && processor.irUpdate
        && processor.numHrtfs == |selection.value| && processor.numSamples == |first.left|
        && processor.k == PaddingSize(processor.n, |first.left|)
        && processor.bank == AsWrittenBank(processor.backend, processor.k, first, |selection.value|)
    {
      if selection.None? {
        return;
      }
      var files := selection.value;
      if files[0].None? {
        return;
      }
      var first := files[0].value;
      processor.irReady := false;
      processor.numSamples := |first.left|;
      processor.numHrtfs := |files|;
      processor.k := PaddingSize(processor.n, processor.numSamples);
      processor.bank := ReadBank(processor.backend, processor.k, first, |files|);
      processor.irReady := true;
      processor.irUpdate := true;
    }

    /** openIRfile (lines 196-230): the chosen file's two channels become ir_buffer and ir_flag is
        set, so the next block of the single-impulse-response path loads it. A cancelled chooser
        changes nothing. */
    method OpenIrFile(selection: Option<Recording>)
      modifies processor`leftEar, processor`rightEar, processor`irFlag
      ensures selection.None? ==>
        processor.leftEar == old(processor.leftEar) && processor.rightEar == old(processor.rightEar)
        && processor.irFlag == old(processor.irFlag)
      ensures selection.Some? ==>
        processor.irFlag
        && processor.leftEar == old(processor.leftEar).(irBuffer := selection.value.left)
        && processor.rightEar == old(processor.rightEar).(irBuffer := selection.value.right)
    {
      if selection.None? {
        return;
      }
      var file := selection.value;
      processor.leftEar := processor.leftEar.(irBuffer := file.left);
      processor.rightEar := processor.rightEar.(irBuffer := file.right);
      processor.irFlag := true;
    }
  }
}
