/** The signal helpers of the processor (normalize, perform_fft, perform_ifft, both fftw_convolution
    overloads) and the per-ear work of processBlock's two paths. None of them touches the processor's
    fields; the FFTW backend is passed as `t`. */
module Kernels {
  import opened Spectral
  import opened Planning
  import opened Overlap
  import opened Buffers

  /** normalize(n, data): divides the first n samples by n in place. */
  method Normalize(n: nat, data: array<real>)
    requires n <= data.Length
    modifies data
    ensures data[..] == Normalized(old(data[..]), n)
  {
    var i := 0;
    while i < n
      invariant 0 <= i <= n
      invariant forall p :: 0 <= p < i ==> data[p] == old(data[p]) / (n as real)
      invariant forall p :: i <= p < data.Length ==> data[p] == old(data[p])
    {
      data[i] := data[i] / (n as real);
      i := i + 1;
    }
  }

  /** perform_fft(k, input, output): FFTW writes the k / 2 + 1 bins of the first k samples. */
  method PerformFft(t: Transform, k: nat, input: seq<real>, output: array<Complex>)
    requires k <= |input| && Bins(k) <= output.Length
    modifies output
    ensures output[..Bins(k)] == Forward(t, k, input)
    ensures output[Bins(k)..] == old(output[Bins(k)..])
  {
    var s := Forward(t, k, input);
    forall i | 0 <= i < Bins(k) {
      output[i] := s[i];
    }
  }

  /** perform_ifft(k, input, output): FFTW writes k samples from the first k / 2 + 1 bins. */
  method PerformIfft(t: Transform, k: nat, input: Spectrum, output: array<real>)
    requires k <= output.Length
    modifies output
    ensures output[..k] == Inverse(t, k, input)
    ensures output[k..] == old(output[k..])
  {
    var s := Inverse(t, k, input);
    forall i | 0 <= i < k {
      output[i] := s[i];
    }
  }

  /** The multiply loops of both fftw_convolution overloads and of processBlock: bin by bin, the real
      part is overwritten first and the imaginary part is formed from the new real part. spec2 is
      only read. */
  method MultiplySpectra(spec1: array<Complex>, spec2: Spectrum)
    requires spec1.Length <= |spec2|
    modifies spec1
    ensures spec1[..] == MultipliedAsWritten(old(spec1[..]), spec2)
  {
    var i := 0;
    while i < spec1.Length
      invariant 0 <= i <= spec1.Length
      invariant forall p :: 0 <= p < i ==> spec1[p] == ProductAsWritten(old(spec1[p]), spec2[p])
      invariant forall p :: i <= p < spec1.Length ==> spec1[p] == old(spec1[p])
    {
      var a, c := spec1[i], spec2[i];
      spec1[i] := a.(re := a.re * c.re - a.im * c.im);
      var b := spec1[i];
      spec1[i] := b.(im := b.re * c.im + b.im * c.re);
      assert spec1[i] == ProductAsWritten(a, c);
      i := i + 1;
    }
  }

  /** fftw_convolution(k, input1, input2, output) with a stored spectrum input2: the first k samples
      of output become the normalised inverse transform of the product. The input is read before
      output is written, so output may be the input's own buffer. */
  method FftwConvolution(t: Transform, k: nat, input1: seq<real>, input2: Spectrum, output: array<real>)
    requires k <= |input1| && Bins(k) <= |input2| && k <= output.Length
    modifies output
    ensures output[..k] == FftwConvolved(t, k, input1, input2)
    ensures output[k..] == old(output[k..])
  {
    var spec1 := new Complex[Bins(k)];
    PerformFft(t, k, input1, spec1);
    assert spec1[..] == spec1[..Bins(k)];
    MultiplySpectra(spec1, input2);
    var product := spec1[..];
    PerformIfft(t, k, product, output);
    ghost var raw := output[..];
    Normalize(k, output);
    NormalizedPrefix(raw, k);
  }

  /** fftw_convolution(k, input1, input2, output) with two signals: input2 is transformed too and
      its spectrum is only read by the multiply. */
  method FftwConvolutionSignals(t: Transform, k: nat, input1: seq<real>, input2: seq<real>, output: array<real>)
    requires k <= |input1| && k <= |input2| && k <= output.Length
    modifies output
    ensures output[..k] == FftwConvolved(t, k, input1, Forward(t, k, input2))
    ensures output[k..] == old(output[k..])
  {
    var spec1 := new Complex[Bins(k)];
    var spec2 := new Complex[Bins(k)];
    PerformFft(t, k, input1, spec1);
    PerformFft(t, k, input2, spec2);
    assert spec1[..] == spec1[..Bins(k)] && spec2[..] == spec2[..Bins(k)];
    MultiplySpectra(spec1, spec2[..]);
    var product := spec1[..];
    PerformIfft(t, k, product, output);
    ghost var raw := output[..];
    Normalize(k, output);
    NormalizedPrefix(raw, k);
  }

  /** Lines 192-205 for one ear: the block is copied into slot 0, the samples from n to k are
      zeroed, and the first k samples of the slot are then convolved in place with the selected
      spectrum. A block longer than k leaves its samples k .. n - 1 in the slot. */
  method ConvolveSlot(t: Transform, k: nat, input: seq<real>, spectrum: Spectrum, slot: array<real>)
    requires |input| <= slot.Length && k <= slot.Length && Bins(k) <= |spectrum|
    modifies slot
    ensures slot[..] == FilledSlot(old(slot[..]), input, k, FftwConvolved(t, k, Padded(input, k), spectrum))
  {
    var n := |input|;
    // memcpy of the input, then zeros from n to k
    forall i | 0 <= i < n {
      slot[i] := input[i];
    }
    var top := if n <= k then k else n;
    var i := n;
    while i < k
      invariant n <= i <= top
      invariant slot[..n] == input
      invariant forall p :: n <= p < i ==> slot[p] == 0.0
      invariant forall p :: i <= p < slot.Length ==> slot[p] == old(slot[p])
    {
      slot[i] := 0.0;
      i := i + 1;
    }
    var staged := slot[..];
    ghost var padded := Padded(input, k);
    assert staged[..k] == padded[..k];
    ConvolvedReadsPrefix(t, k, staged, padded, spectrum);
    ghost var conv := FftwConvolved(t, k, padded, spectrum);
    FftwConvolution(t, k, staged, spectrum, slot);
    forall j | 0 <= j < slot.Length
      ensures slot[j] == if j < k then conv[j] else if j < n then input[j] else old(slot[j])
    {
      if j >= k {
        assert slot[j] == slot[k..][j - k] == staged[k..][j - k] == staged[j];
        if j < n {
          assert staged[j] == staged[..n][j];
        }
      } else {
        assert slot[j] == slot[..k][j];
      }
    }
  }

  /** One ear of the bank path (lines 190-220): slot 0 is filled and convolved, its first n samples
      become the output, and the overlap-add and shift run over the older slots. */
  method ConvolveEar(t: Transform, k: nat, input: seq<real>, spectrum: Spectrum,
                     ring: seq<array<real>>, out: array<real>, ghost len: nat)
    requires |input| == out.Length && out.Length <= len && k <= len && Bins(k) <= |spectrum|
    requires 1 <= |ring| && Distinct(ring) && out !in ring
    requires forall i :: 0 <= i < |ring| ==> ring[i].Length == len
    requires out.Length * |ring| <= len
    modifies out, ring
    ensures var conv := FftwConvolved(t, k, Padded(input, k), spectrum);
      var first := FilledSlot(old(ring[0][..]), input, k, conv);
      out[..] == OverlapAdd(first, old(History(ring, out.Length, len)), out.Length)
      && ring[0][..] == first
      && forall i :: 1 <= i < |ring| ==> ring[i][..k] == conv && ring[i][k..] == old(ring[i][k..])
  {
    var n := out.Length;
    ghost var hist := History(ring, n, len);
    var slot := ring[0];
    ConvolveSlot(t, k, input, spectrum, slot);
    ghost var conv := FftwConvolved(t, k, Padded(input, k), spectrum);
    ghost var first := slot[..];
    assert first[..k] == conv;
    Copy(out, slot, n);
    assert out[..] == first[..n];
    ghost var filled := Contents(ring);
    assert forall q :: 1 <= q < |ring| ==> filled[q] == hist[q];
    OverlapAndShift(out, ring, n, k);
    OverlapAddIgnoresSlotZero(first[..n], filled, hist, n);
    OverlapAddReadsPrefix(first[..n], first, hist, n);
  }

  /** The input block x padded with zeros into a fresh buffer of k + 2 samples (lines 262-287). */
  method PaddedBlock(x: seq<real>, k: nat) returns (data: array<real>)
    requires |x| <= k
    ensures fresh(data) && data.Length == k + 2 && data[..k] == Padded(x, k)
  {
    data := new real[k + 2];
    forall i | 0 <= i < |x| {
      data[i] := x[i];
    }
    var i := |x|;
    while i < k + 2
      invariant |x| <= i <= k + 2
      invariant data[..|x|] == x
      invariant forall p :: |x| <= p < i ==> data[p] == 0.0
    {
      data[i] := 0.0;
      i := i + 1;
    }
    assert data[..k] == Padded(x, k);
  }

  /** Lines 306-312 for one ear: the first n samples of data become the current result plus the
      tail of the previous one. */
  method OverlapTail(data: array<real>, current: array<real>, previous: array<real>, n: nat)
    requires n <= data.Length && n <= current.Length && 2 * n <= previous.Length
    requires data != current && data != previous
    modifies data
    ensures forall j :: 0 <= j < n ==> data[j] == current[j] + previous[j + n]
    ensures data[n..] == old(data[n..])
  {
    Copy(data, current, n);
    AddInto(data, previous, n, n);
  }

  /** One ear of the single-impulse-response path with convolution on (lines 288-315): current
      becomes the normalised as-written product of the block's and the response's spectra, the output
      is current plus the tail of the previous result, and previous := current. */
  method SingleIrEar(t: Transform, k: nat, x: seq<real>, spectrum: Spectrum,
                     current: array<real>, previous: array<real>, out: array<real>)
    requires |x| == out.Length && out.Length <= k && Bins(k) <= |spectrum|
    requires k <= current.Length && k <= previous.Length && 2 * out.Length <= previous.Length
    requires current != previous && out != current && out != previous
    modifies current, previous, out
    ensures var conv := FftwConvolved(t, k, Padded(x, k), spectrum);
      current[..] == Overwritten(old(current[..]), conv)
      && out[..] == OneTailAdd(conv, old(previous[..]), out.Length)
      && previous[..] == Overwritten(old(previous[..]), conv)
  {
    var n := out.Length;
    var data := PaddedBlock(x, k);
    ghost var padded := Padded(x, k);
    assert data[..][..k] == padded[..k];
    ConvolvedReadsPrefix(t, k, data[..], padded, spectrum);
    // lines 288-304 are fftw_convolution written out
    FftwConvolution(t, k, data[..], spectrum, current);
    OverlapTail(data, current, previous, n);
    ghost var tail := previous[..];
    Copy(previous, current, k);
    Copy(out, data, n);
    assert forall j :: 0 <= j < n ==> out[j] == data[j] == current[j] + tail[j + n];
  }

  /** One ear of the single-impulse-response path with convolution off (lines 316-325): the output is
      the first n samples of the normalised round trip of the padded block. */
  method PassThroughEar(t: Transform, k: nat, x: seq<real>, out: array<real>)
    requires |x| == out.Length && out.Length <= k
    modifies out
    ensures out[..] == RoundTrip(t, k, Padded(x, k))[..out.Length]
  {
    var n := out.Length;
    var data := PaddedBlock(x, k);
    ghost var padded := Padded(x, k);
    assert data[..][..k] == padded[..k];
    var tmp := new Complex[Bins(k)];
    PerformFft(t, k, data[..], tmp);
    assert tmp[..] == tmp[..Bins(k)];
    var spectrum := tmp[..];
    ReadsPrefix(t, k, data[..], padded);
    PerformIfft(t, k, spectrum, data);
    ghost var raw := data[..];
    Normalize(k, data);
    NormalizedPrefix(raw, k);
    assert data[..k] == RoundTrip(t, k, padded);
    Copy(out, data, n);
    assert out[..] == out[..n] && data[..n] == data[..k][..n];
  }

  /** Lines 266-272: a fresh buffer of len samples whose first n hold the test tone. */
  method NewTestTone(len: nat, n: nat, tone: nat -> real) returns (sine: array<real>)
    requires n <= len
    ensures fresh(sine) && sine.Length == len && forall i :: 0 <= i < n ==> sine[i] == tone(i)
  {
    sine := new real[len];
    var i := 0;
    while i < n
      invariant 0 <= i <= n
      invariant forall p :: 0 <= p < i ==> sine[p] == tone(p)
    {
      sine[i] := tone(i);
      i := i + 1;
    }
  }
}
