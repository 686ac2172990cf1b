# Binauralization: the overlap-add engine and its control flags

Binauralization is a JUCE audio plugin. It renders a mono input binaurally by convolving each
block with a head-related impulse response (HRTF) for the left ear and one for the right ear. It
has two paths:

- **Bank path.** A directory of HRTF files is transformed once into a bank of spectra. Each block
  is then convolved with the spectra of the file the slider selects. The output is assembled by
  overlap-add from a ring of older convolution results.
- **Single-response path.** This path runs whenever the bank path does not. It loads a pending
  response file and, with convolution off, passes the block through the FFT round trip. Its
  convolution branch (convolve with the loaded response, add samples n .. 2n - 1 of the previous
  result) needs `performConv` without `ir_ready`. The convolution button only sets `performConv`
  while a bank is loaded, and nothing but `openIRdirectory` clears `ir_ready`, so that branch is
  reached only while `openIRdirectory` rebuilds the bank on the editor's thread
  (Source/PluginEditor.cpp:108-153). The model keeps `performConv ==> ir_ready` as part of
  `Processor.Valid()`, so in `ProcessBlock` this path always passes the block through.
  `Kernels.SingleIrEar`, `Steps.LoadedEarStartsSilent` and `Steps.SingleStepsOverlap` describe the
  convolution branch as code, for that window.

The editor's buttons and file dialogs set the flags (`ir_update`, `ir_ready`, `performConv`,
`sineFlag`, `ir_flag`) that choose between the paths.

The project models this in eight modules:

- `Spectral`: bins, spectra and the transform backend. FFTW's r2c and c2r transforms are two given
  functions. `normalize` and the bin-by-bin product are modelled as written.
- `Planning`: `get_padding_size`, the history depth `MEM = max(k / n, 2)`, and the even transform
  size of the single-response path.
- `Overlap`: the overlap-add sum, slot 0 as the bank path fills it, the ascending copy the source
  performs, and the descending shift an overlap-add needs when slot i is to hold the block i periods
  old (slot i := slot i - 1 for i = MEM - 1 down to 1).
- `Buffers`: `memcpy`, `malloc`, the ring allocation loop, and the overlap-add-and-shift loop over
  a ring of arrays.
- `Kernels`: the in-place helpers (`normalize`, `perform_fft`, `perform_ifft`, both
  `fftw_convolution` overloads) and the per-ear work of both paths, on arrays.
- `Steps`: one block of each path as a relation between values.
- `Engine`: class `Processor`, whose fields are the processor's state and whose `ProcessBlock` is
  `processBlock`.
- `Editor`: class `PluginEditor`. It holds the two toggles, the slider handler, `openIRdirectory`
  and `openIRfile`.

The model follows the code as written. That includes:

- both ears reading channel 0;
- `malloc`'d slots with arbitrary contents;
- bins whose imaginary part is computed from the overwritten real part;
- the ascending ring copy;
- a shared `k` that the single-response path sets to its own size and the bank path then uses;
- a bank block longer than `k`, whose samples `k .. n - 1` reach the output unconvolved;
- a bank loop that reads the first file for every entry.

Where the code departs from what it evidently intends, a corrected member stands beside the
as-written one (see "## Findings"). The processor and the editor use the as-written members.

The following are parameters of the model:

- the FFTW backend (`Transform`);
- the cosine test tone (a function from sample index to sample);
- the file chooser and the decoder, as an optional list of optional decoded recordings.

Editor callbacks are events that happen between two calls of `ProcessBlock`.

The editor calls `set_padding_size`, which the source never defines. It is modelled as
`k := get_padding_size(n, num_samples)`. The header `PluginProcessor.h` is out of step with the
`.cpp`: it declares `K` and `overlap_buffer`, which the `.cpp` does not use, and leaves out the
fields the `.cpp` does use (`k`, `n`, `sineFlag`, `sineInit`, `ir_flag`, the two rings). The header
supplies the starting values of `ir_update`, `ir_ready` and `performConv` (all false,
Source/PluginProcessor.h:70-72) and `MEM = 0` (line 84). The other starting values are the model's
choice (see "## Left out").

## Model

| member | source | states |
|---|---|---|
| Spectral.Padded | Source/PluginProcessor.cpp:192-199 | the block keeps its samples and is followed by zeros up to k samples |
| Spectral.Forward | Source/PluginProcessor.cpp:392-401 | perform_fft yields exactly k / 2 + 1 bins computed from the first k samples |
| Spectral.Inverse | Source/PluginProcessor.cpp:402-409 | perform_ifft yields exactly k samples from the first k / 2 + 1 bins |
| Spectral.Normalized | Source/PluginProcessor.cpp:411-416 | normalize keeps the length and leaves every sample from n on untouched |
| Spectral.NormalizedScales | Source/PluginProcessor.cpp:413-415 | each of the first n normalised samples times n is the original sample |
| Spectral.NormalizedPrefix | Source/PluginProcessor.cpp:411-416 | normalising a longer buffer and keeping n samples equals normalising those n alone |
| Spectral.ProductAsWritten | Source/PluginProcessor.cpp:439-440 | one bin as written: the real part is the complex product's, and the imaginary part is off by the change of the real part times the filter bin's imaginary part (also lines 461-462 and 296-299) |
| Spectral.MultipliedAsWritten | Source/PluginProcessor.cpp:460-463 | every bin is the as-written product of the two bins with the same index; the length is kept |
| Spectral.FftwConvolved | Source/PluginProcessor.cpp:452-472 | fftw_convolution with a stored spectrum writes exactly k samples |
| Spectral.RoundTrip | Source/PluginProcessor.cpp:317-322 | the passthrough writes exactly k samples |
| Spectral.ReadsPrefix | Source/PluginProcessor.cpp:392-401 | two inputs that agree on k samples have the same spectrum and the same round trip |
| Spectral.ConvolvedReadsPrefix | Source/PluginProcessor.cpp:452-472 | two inputs that agree on k samples have the same convolution |
| Spectral.ProductAsWrittenExactIff | Source/PluginProcessor.cpp:438-441 | the as-written bin product equals the complex product if and only if the filter bin is real or the real part is unchanged |
| Spectral.ProductAsWrittenCounterexample | Source/PluginProcessor.cpp:460-463 | for the bin i times i the loop yields -1 - i where the complex product is -1 |
| Spectral.ComplexMulLaws | Source/PluginProcessor.cpp:438-441 | the intended complex product is commutative and multiplies squared moduli |
| Spectral.MultipliedByUnit | Source/PluginProcessor.cpp:460-463 | multiplying by the all-ones spectrum, even as written, leaves a spectrum unchanged |
| Spectral.UnitImpulseIsRoundTrip | Source/PluginProcessor.cpp:452-472 | for a backend that transforms a unit impulse to all ones, convolving with the unit impulse's spectrum is the passthrough round trip |
| Planning.PaddingSize | Source/PluginProcessor.cpp:418-426 | k is a multiple of n, n + m - 1 <= k < n + m - 1 + n, and k is n + m - 1 when that is already a multiple of n |
| Planning.PaddingSizeIsLeast | Source/PluginProcessor.cpp:418-426 | no multiple of n that is at least n + m - 1 is smaller than k |
| Planning.PaddingSizeCoversBlocks | Source/PluginProcessor.cpp:418-426 | for m >= 1, n <= k; for m >= 2, 2n <= k |
| Planning.MemDepth | Source/PluginProcessor.cpp:169 | MEM >= 2 and MEM >= k / n; the reads n * MEM fit in k if and only if 2n <= k |
| Planning.MemDepthReads | Source/PluginProcessor.cpp:169 | n * max(k / n, 2) <= k if and only if 2n <= k |
| Planning.OverlapReadsFitPlan | Source/PluginProcessor.cpp:169 | for a planned k, every overlap read is in bounds if and only if the response has at least two samples |
| Planning.EvenSize | Source/PluginProcessor.cpp:257-259 | k is even and n + 127 <= k <= n + 128 |
| Planning.SingleTailFits | Source/PluginProcessor.cpp:309-312 | the reads previous[i + n] fit in k samples if and only if n <= 128 |
| Planning.OverlapDepth | Source/PluginProcessor.cpp:168 | the depth k / n never reads past a slot: n * depth <= k |
| Planning.SinglePathSizeBelowPlan | Source/PluginProcessor.cpp:257-259 | after a single-response block, a bank planned for responses of more than 129 samples is convolved below its linear-convolution length n + m - 1 |
| Planning.SinglePathSizeCounterexample | Source/PluginProcessor.cpp:257-259 | 2000-sample responses, blocks of 512: the plan k = 2560, MEM = 5 becomes k = 640 after one single-response block and k = 192 after a block of 64 |
| Planning.IntendedSizeKeepsPlan | Source/PluginEditor.cpp:121 | with the single-response size kept apart, the bank path keeps a k of at least n + m - 1, a multiple of n, whose overlap reads fit for m >= 2 |
| Planning.OverlapDepthFitsPlan | Source/PluginProcessor.cpp:168 | for a planned k, depth k / n is at least 1, n * depth is exactly k, and it covers n + m - 1 samples |
| Overlap.OverlapAdd | Source/PluginProcessor.cpp:208-216 | the output has n samples; with at most one slot it is the first n samples of slot 0 |
| Overlap.UniformTailFits | Source/PluginProcessor.cpp:212-216 | for equally long slots, every read is in bounds if and only if n * MEM <= the slot length |
| Overlap.OverlapAddReadsPrefix | Source/PluginProcessor.cpp:208-216 | the overlap-add reads only the first n samples of slot 0 |
| Overlap.CopiedAscending | Source/PluginProcessor.cpp:217-219 | the ascending copy keeps the number of slots |
| Overlap.AscendingCopyCollapses | Source/PluginProcessor.cpp:217-219 | after the ascending copy, every copied slot holds slot 0 and the rest are kept |
| Overlap.CopiedDescending | Source/PluginProcessor.cpp:217-219 | the descending shift keeps the number of slots |
| Overlap.DescendingCopyShifts | Source/PluginProcessor.cpp:217-219 | after the descending shift, slot q holds the old slot q - 1 for 1 <= q <= c, and the rest are kept |
| Overlap.CopyOrderCounterexample | Source/PluginProcessor.cpp:217-219 | the ring [1], [2], [3] becomes [1], [1], [1] as written and [1], [1], [2] when shifted |
| Overlap.Overwritten | Source/PluginProcessor.cpp:314-315 | a memcpy of s keeps the buffer's length, starts with s and keeps the rest |
| Overlap.OverwrittenIff | Source/PluginProcessor.cpp:314-315 | a buffer is s overwriting buf if and only if it is as long, starts with s and keeps the rest |
| Overlap.FilledSlot | Source/PluginProcessor.cpp:192-205 | slot 0 after the copy, the zero loop and the in-place convolution: the convolution below k, the block's own samples from k to n, the old contents beyond |
| Overlap.FilledSlotOfShortBlock | Source/PluginProcessor.cpp:192-205 | for a block of at most k samples, slot 0 is the convolution overwriting its first k samples |
| Overlap.Refilled | Source/PluginProcessor.cpp:217-219 | every slot other than 0 after one bank block is the convolution overwriting the slot's first k samples |
| Overlap.RefilledIsAscendingCopy | Source/PluginProcessor.cpp:204-219 | for slots of k samples, writing slot 0 and then copying in ascending order yields exactly that ring |
| Overlap.OneTailAdd | Source/PluginProcessor.cpp:306-312 | the single-response output has n samples |
| Overlap.OneTailIsOverlapAdd | Source/PluginProcessor.cpp:306-312 | the single-response output is the overlap-add over the two-slot history [current, previous] |
| Buffers.Copy | Source/PluginProcessor.cpp:218-219 | memcpy: the first len samples of dst become those of src; the rest are kept |
| Buffers.Malloc | Source/PluginProcessor.cpp:176-177 | a buffer of exactly len samples, with arbitrary contents |
| Buffers.NewRing | Source/PluginProcessor.cpp:172-178 | the allocation loop yields depth slots of len samples each |
| Buffers.WriteBlocks | Source/PluginProcessor.cpp:324-325 | both output channels hold exactly the given blocks |
| Buffers.AddInto | Source/PluginProcessor.cpp:213-216 | out[j] gains src[j + offset] for j < len; the rest of out is kept |
| Buffers.ShiftSlot | Source/PluginProcessor.cpp:212-220 | one iteration adds slot i at offset n * i into the block, then copies slot i - 1 over slot i |
| Buffers.OverlapAndShift | Source/PluginProcessor.cpp:212-220 | the block becomes the overlap-add over the ring as it was; slot 0 is kept; every other slot holds slot 0's first k samples |
| Buffers.AgeRing | Source/PluginProcessor.cpp:217-219 | the descending copy moves each slot's first k samples one slot back; slot 0 is kept |
| Buffers.OverlapAddIgnoresSlotZero | Source/PluginProcessor.cpp:212-216 | the overlap-add does not depend on slot 0 |
| Kernels.Normalize | Source/PluginProcessor.cpp:411-416 | normalize divides the first n samples by n in place and changes nothing else |
| Kernels.PerformFft | Source/PluginProcessor.cpp:392-401 | the first k / 2 + 1 bins of the output become the spectrum; the rest are kept |
| Kernels.PerformIfft | Source/PluginProcessor.cpp:402-409 | the first k samples of the output become the inverse; the rest are kept |
| Kernels.MultiplySpectra | Source/PluginProcessor.cpp:460-463 | spec1 becomes, bin by bin, its as-written product with spec2 |
| Kernels.FftwConvolution | Source/PluginProcessor.cpp:452-472 | the first k output samples become the normalised convolution with a stored spectrum; the rest are kept |
| Kernels.FftwConvolutionSignals | Source/PluginProcessor.cpp:428-450 | with two signals, the second is transformed too; otherwise as above |
| Kernels.ConvolveSlot | Source/PluginProcessor.cpp:192-205 | slot 0 becomes the filled slot: the convolution of the zero-padded block below k, the block's own samples from k to n, the old contents beyond |
| Kernels.ConvolveEar | Source/PluginProcessor.cpp:190-220 | the output is the overlap-add of the filled slot 0 over the ring as it was; slot 0 is the filled slot and every other slot starts with the convolution |
| Kernels.PaddedBlock | Source/PluginProcessor.cpp:261-287 | a fresh buffer of k + 2 samples whose first k are the zero-padded block |
| Kernels.OverlapTail | Source/PluginProcessor.cpp:306-312 | data[j] = current[j] + previous[j + n] for j < n; the rest of data is kept |
| Kernels.SingleIrEar | Source/PluginProcessor.cpp:288-315 | current and previous start with the convolution, and the output is that convolution plus the previous result's tail |
| Kernels.PassThroughEar | Source/PluginProcessor.cpp:317-325 | the output is the first n samples of the normalised round trip |
| Kernels.NewTestTone | Source/PluginProcessor.cpp:266-272 | a fresh buffer of len samples whose first n hold the tone |
| Steps.LoadedEar | Source/PluginProcessor.cpp:225-255 | a loaded response has k samples and k / 2 + 1 bins; previous is k zeros |
| Steps.LoadedEarHoldsResponse | Source/PluginProcessor.cpp:235-240 | the loaded buffer holds the file's samples, then zeros up to k, and the ear's spectrum is its transform |
| Steps.BankStep | Source/PluginProcessor.cpp:190-220 | one ear of one bank block: slot 0 filled and convolved, the output its first n samples plus the older slots' tail, the other slots refilled |
| Steps.BankSpec | Source/PluginProcessor.cpp:185-220 | one bank block for both ears with the selected file's spectra |
| Steps.BankStepOutput | Source/PluginProcessor.cpp:192-216 | output sample j is the convolution's sample j below k, the raw input sample from k on, plus the tail |
| Steps.BankStepOfShortBlock | Source/PluginProcessor.cpp:190-220 | for n <= k the output is the overlap-add of the convolution and every slot starts with it |
| Steps.SingleStep | Source/PluginProcessor.cpp:288-325 | one ear of one single-response block, with convolution on or off |
| Steps.SingleSpec | Source/PluginProcessor.cpp:224-325 | one single-response block: the pending load with the old k, k := the even size, the tone made once, one step per ear |
| Steps.BankStepsEchoLastBlock | Source/PluginProcessor.cpp:208-219 | after two bank blocks, the second output is the overlap-add over a history holding only the first block's convolution in every slot |
| Steps.LoadedEarStartsSilent | Source/PluginProcessor.cpp:247-250 | the first convolved block after a load outputs the convolution alone |
| Steps.SingleStepsOverlap | Source/PluginProcessor.cpp:306-315 | after two convolved single-response blocks, the output is the second result plus samples n .. 2n - 1 of the first, and previous holds the second result |
| Engine.Processor.BankFits | Source/PluginProcessor.cpp:192-216 | the bank path's bounds: block and transform fit in a slot, the overlap reads n * MEM fit, the selection is a loaded spectrum of k / 2 + 1 bins |
| Engine.Processor.SingleFits | Source/PluginProcessor.cpp:230-315 | the single-response path's bounds: the tone holds n samples, and with convolution on the response's buffers fit the even size |
| Engine.Processor.CanProcess | Source/PluginProcessor.cpp:130-331 | the bounds of whichever path the flags choose, and a non-empty block when MEM is computed |
| Engine.Processor.constructor | Source/PluginProcessor.h:70-72 | ir_update, ir_ready and performConv start false as the header declares; the other flags start false and the numbers 0 (the model's choice), nothing is loaded, and the state is consistent |
| Engine.Processor.UpdateBranch | Source/PluginProcessor.cpp:144-182 | n becomes the block size; a pending bank update sets MEM = max(k / n, 2), allocates MEM slots of k samples per ear, and clears ir_update; otherwise the rings are kept |
| Engine.Processor.ConvolveBlock | Source/PluginProcessor.cpp:185-222 | each ear takes one bank step on channel 0 with the selected spectrum, also for blocks longer than k |
| Engine.Processor.StartSingleBlock | Source/PluginProcessor.cpp:224-276 | a pending response is loaded with the previous k and ir_flag is cleared; k becomes the even size; the test tone is made once |
| Engine.Processor.SingleIrBlock | Source/PluginProcessor.cpp:274-325 | each ear takes one single-response step on the test tone or on channel 0 |
| Engine.Processor.BankPath | Source/PluginProcessor.cpp:142-222 | the update branch, then one bank block from the rings it left; the single-response state is kept |
| Engine.Processor.SinglePath | Source/PluginProcessor.cpp:223-325 | one block of the single-response path from the state before the call |
| Engine.Processor.SingleBranch | Source/PluginProcessor.cpp:142-182 | the update branch, then one single-response block; the rings are kept unless a bank update was pending |
| Engine.Processor.ProcessBlock | Source/PluginProcessor.cpp:130-331 | the update branch runs first; with a bank loaded and convolution on, one bank block on channel 0 that keeps k; otherwise one single-response block that leaves k at the even size; the state stays consistent |
| Editor.AsWrittenBank | Source/PluginEditor.cpp:138-149 | count entries, each holding the spectra of the first file's zero-padded channels |
| Editor.IntendedBank | Source/PluginEditor.cpp:138-149 | one entry per file, entry i holding file i's spectra |
| Editor.AsWrittenBankIsIntendedIff | Source/PluginEditor.cpp:138-149 | the loop's bank is the intended one if and only if every file has the first file's spectra |
| Editor.AsWrittenBankCounterexample | Source/PluginEditor.cpp:140 | with files [1] and [2], entry 1 holds the first file's spectrum, not the second's |
| Editor.ToggledConvolution | Source/PluginEditor.cpp:163-179 | performConv is negated when ir_ready holds and kept otherwise |
| Editor.ToggleConvolutionTwice | Source/PluginEditor.cpp:163-179 | two presses restore performConv |
| Editor.ReadBank | Source/PluginEditor.cpp:132-149 | the do-while loop over count files builds exactly the as-written bank |
| Editor.PluginEditor.constructor | Source/PluginEditor.cpp:14-15 | the editor refers to its processor |
| Editor.PluginEditor.ToggleConvolution | Source/PluginEditor.cpp:163-179 | performConv becomes its toggled value, which depends on ir_ready, so it stays off while no bank is loaded |
| Editor.PluginEditor.ToggleSine | Source/PluginEditor.cpp:181-193 | sineFlag is negated |
| Editor.PluginEditor.OnSliderDragEnd | Source/PluginEditor.cpp:31-33 | the selection becomes the slider's value in 0..359, with no check against num_hrtfs |
| Editor.PluginEditor.OpenIrDirectory | Source/PluginEditor.cpp:76-161 | a cancelled chooser or a first file without a reader changes nothing; otherwise num_samples, num_hrtfs, k and the bank are set, then ir_ready and ir_update, and the state stays consistent |
| Editor.PluginEditor.OpenIrFile | Source/PluginEditor.cpp:196-230 | a chosen file becomes each ear's response buffer and ir_flag is set; a cancelled chooser changes nothing |

## Left out

- FFTW. The plans and the transforms (Source/PluginProcessor.cpp:392-409) are a foreign library, so
  they are given functions. Nothing is proved about the convolution theorem or the round trip.
- Floating point. Samples are exact reals, so `float` rounding and `ScopedNoDenormals` are not
  modelled.
- The cosine of the test tone (Source/PluginProcessor.cpp:268-271). It is a given function of the
  sample index.
- `binauralizer.py`. It is an offline experiment, not part of the plugin.
- JUCE boilerplate: names, MIDI, programs, bus layout, state, editor creation, painting and layout.
  None of it takes part in the engine. For the same reason, clearing the extra output channels
  (Source/PluginProcessor.cpp:140-141) is not modelled; the host buffer here has exactly two
  channels.
- `free` and `fftwf_free`. The free loop at Source/PluginProcessor.cpp:157-164 runs over the MEM
  the old rings were allocated with, so it frees them all. The buffers allocated for every block
  and never freed are the only loss. Allocation is modelled; release has no observable effect in
  the model.
- Over-allocated storage. The bank's spectra of k bins (Source/PluginEditor.cpp:127-128) and the k + 2
  samples of the block buffers are modelled by the bins and samples actually written.
- Threads. The editor and the audio thread share plain `bool` fields, and races are not modelled.
  Each editor callback is atomic between two blocks. So the fact that `ir_ready` is false for the
  whole bank rebuild is visible only as the order of assignments in `OpenIrDirectory`.
- Buffers as values. `Engine.Processor` keeps each ear's ring and single-response buffers as values,
  so aliasing between them is not modelled. `ConvolveBlock` and `SingleIrBlock` compute with the
  same specification functions (OverlapAdd, Refilled, OneTailAdd, FftwConvolved). The in-place
  forms of those loops over arrays are `Kernels.ConvolveEar`, `Kernels.SingleIrEar` and
  `Buffers.OverlapAndShift`, proved against the same functions.
- Starting values of the undeclared fields. None of the source files modelled declares `n`, `k`,
  `sineFlag`, `sineInit`, `ir_flag`, the rings `overlap_buffer_left` and `overlap_buffer_right`,
  `hrtf_buffer.sel`, `hrtf_buffer.num_hrtfs` or `hrtf_buffer.num_samples`.
  `Engine.Processor.constructor` starts the flags false, the numbers at 0 and the rings empty (the
  `NULL` that line 157 tests for); that is the model's choice. It matters: `sineInit` false is what keeps line 265 from reading
  the tone before it is made, and `ir_flag` false is what keeps the first block from loading an
  empty response.
- Editor.PluginEditor.OpenIrDirectory: requires processor.n > 0, because `get_padding_size` divides
  by `n`. With the starting value above, `n` is 0 until the first block.
- Editor.PluginEditor.OpenIrFile: a file without a reader is not modelled. The source dereferences
  the null reader (Source/PluginEditor.cpp:214-218), so the selection is either cancelled or
  decoded.
- Editor.ReadBank: assumes distinct files. The do-while loop stops at the first file equal to the
  last one; with distinct files, that is after file count - 1.
- Engine.Processor.ProcessBlock: requires CanProcess: the selection is a loaded file, the reads and
  writes of the chosen path fit their buffers, and with an update pending the block is not empty
  (line 169 divides by `n`). The source indexes the bank and the slots unchecked and does not
  guard the division.

## Findings

| source | as written | input that shows it | evidently intended | confidence | as-written member | corrected member |
|---|---|---|---|---|---|---|
| Source/PluginProcessor.cpp:438-441 | the imaginary part of each bin is computed from the real part just overwritten (also 296-299 and 460-463) | bins i and i: the loop yields -1 - i | the complex product (ac - bd) + (ad + bc)i, here -1 | high, not executed | Spectral.ProductAsWrittenCounterexample | Spectral.ComplexMulLaws |
| Source/PluginProcessor.cpp:217-219 | the ring is copied in ascending order, so every slot ends up holding slot 0 | ring [1], [2], [3] becomes [1], [1], [1] | shift every slot one back, giving [1], [1], [2] | high, not executed | Overlap.CopyOrderCounterexample | Buffers.AgeRing |
| Source/PluginProcessor.cpp:169 | MEM is forced up to 2 even when k / n is 1 | a one-sample response: k = n, MEM = 2, and slot 1 is read at j + n >= k | MEM = k / n (line 168), whose reads stay in the slot | medium, not executed | Planning.OverlapReadsFitPlan | Planning.OverlapDepthFitsPlan |
| Source/PluginProcessor.cpp:257-259 | the single-response path sets the `k` the bank path shares to n + 127 or n + 128 | 2000-sample files, n = 512: k = 2560; one block with convolution off leaves k = 640 (a later 64-sample block k = 192); after Conv the bank path convolves at that size with slots and spectra planned for 2560, and at k = 192 samples 192 .. 511 of the block reach the output unconvolved | the single-response path keeps its size apart, so the bank path keeps k = get_padding_size(n, m) | high, not executed | Planning.SinglePathSizeCounterexample | Planning.IntendedSizeKeepsPlan |
| Source/PluginEditor.cpp:138-149 | every bank entry is read from the first file; file_ptr is never advanced | two files [1] and [2]: entry 1 holds the first file's spectrum | entry i holds file i's spectrum | high, not executed | Editor.AsWrittenBankCounterexample | Editor.IntendedBank |
