/** Samples, spectra and the transform backend. FFTW's real-to-complex and complex-to-real transforms
    are not modelled: a `Transform` carries them as two given functions, and the model takes exactly as
    many bins (k / 2 + 1) and samples (k) of their results as FFTW writes. */
module Spectral {

  /** One frequency bin, fftwf_complex with its REAL and IMAG parts. */
  datatype Complex = Complex(re: real, im: real)

  type Spectrum = seq<Complex>

  /** The forward (r2c) and inverse (c2r) transforms of size k, both unnormalised. */
  datatype Transform = Transform(forward: (nat, seq<real>) -> Spectrum, inverse: (nat, Spectrum) -> seq<real>)

  const Zero: Complex := Complex(0.0, 0.0)

  /** The number of bins of a real transform of size k. */
  function Bins(k: nat): nat
  {
    k / 2 + 1
  }

  /** s cut or padded with `pad` to exactly len items. */
  function Fit<T>(s: seq<T>, len: nat, pad: T): (r: seq<T>)
    ensures |r| == len
    ensures forall i :: 0 <= i < len ==> r[i] == if i < |s| then s[i] else pad
  {
    if len <= |s| then s[..len] else s + seq(len - |s|, _ => pad)
  }

  /** len samples of silence. */
  function Zeros(len: nat): (r: seq<real>)
    ensures |r| == len && forall i :: 0 <= i < len ==> r[i] == 0.0
  {
    Fit([], len, 0.0)
  }

  /** A signal zero-padded (or cut) to a transform of k samples. */
  function Padded(x: seq<real>, k: nat): (r: seq<real>)
    ensures |r| == k
    ensures |x| <= k ==> r[..|x|] == x
    ensures forall i :: |x| <= i < k ==> r[i] == 0.0
  {
    Fit(x, k, 0.0)
  }

  /** perform_fft(k, x, out): the k / 2 + 1 bins FFTW writes for the first k samples of x. */
  function Forward(t: Transform, k: nat, x: seq<real>): (r: Spectrum)
    requires k <= |x|
    ensures |r| == Bins(k)
  {
    Fit(t.forward(k, x[..k]), Bins(k), Zero)
  }

  /** perform_ifft(k, s, out): the k samples FFTW writes from the first k / 2 + 1 bins of s. */
  function Inverse(t: Transform, k: nat, s: Spectrum): (r: seq<real>)
    ensures |r| == k
  {
    Fit(t.inverse(k, Fit(s, Bins(k), Zero)), k, 0.0)
  }

  /** normalize(n, data): the first n samples divided by n, the rest untouched. */
  function Normalized(d: seq<real>, n: nat): (r: seq<real>)
    requires n <= |d|
    ensures |r| == |d|
    ensures r[n..] == d[n..]
  {
    seq(|d|, i requires 0 <= i < |d| => if i < n then d[i] / (n as real) else d[i])
  }

  /** normalize undoes the factor n by which FFTW's unnormalised round trip scales a signal. */
  lemma NormalizedScales(d: seq<real>, n: nat, i: nat)
    requires n <= |d| && i < n
    ensures Normalized(d, n)[i] * (n as real) == d[i]
  {
  }

  /** Normalising the first n samples of a longer buffer, then keeping them, is normalising them alone. */
  lemma NormalizedPrefix(d: seq<real>, n: nat)
    requires n <= |d|
    ensures Normalized(d, n)[..n] == Normalized(d[..n], n)
  {
    assert forall i :: 0 <= i < n ==> Normalized(d, n)[i] == d[i] / (n as real) == Normalized(d[..n], n)[i];
  }

  /** The complex product (a + bi)(c + di) = (ac - bd) + (ad + bc)i. */
  function ComplexMul(a: Complex, c: Complex): Complex
  {
    Complex(a.re * c.re - a.im * c.im, a.re * c.im + a.im * c.re)
  }

  /** The squared modulus |z|^2. */
  function Norm(z: Complex): real
  {
    z.re * z.re + z.im * z.im
  }

  /** One bin of the multiply loops as written: the imaginary part is formed from the real part the
      loop has just overwritten. The real part is the complex product's; the imaginary part is off
      by the change of the real part times the filter bin's imaginary part. */
  function ProductAsWritten(a: Complex, c: Complex): (r: Complex)
    ensures r.re == ComplexMul(a, c).re
    ensures r.im == ComplexMul(a, c).im + (r.re - a.re) * c.im
  {
    var re := a.re * c.re - a.im * c.im;
    Complex(re, re * c.im + a.im * c.re)
  }

  /** Every bin of s multiplied, as written, by the bin of c with the same index. */
  function MultipliedAsWritten(s: Spectrum, c: Spectrum): (r: Spectrum)
    requires |s| <= |c|
    ensures |r| == |s|
    ensures forall i :: 0 <= i < |s| ==> r[i] == ProductAsWritten(s[i], c[i])
  {
    seq(|s|, i requires 0 <= i < |s| => ProductAsWritten(s[i], c[i]))
  }

  /** fftw_convolution(k, x, spec, out): transform x, multiply as written, transform back, normalise. */
  function FftwConvolved(t: Transform, k: nat, x: seq<real>, spec: Spectrum): (r: seq<real>)
    requires k <= |x| && Bins(k) <= |spec|
    ensures |r| == k
  {
    Normalized(Inverse(t, k, MultipliedAsWritten(Forward(t, k, x), spec)), k)
  }

  /** The passthrough of the single-impulse-response path: transform, transform back, normalise. */
  function RoundTrip(t: Transform, k: nat, x: seq<real>): (r: seq<real>)
    requires k <= |x|
    ensures |r| == k
  {
    Normalized(Inverse(t, k, Forward(t, k, x)), k)
  }

  /** The transforms read only the first k samples of their input. */
  lemma ReadsPrefix(t: Transform, k: nat, x: seq<real>, y: seq<real>)
    requires k <= |x| && k <= |y| && x[..k] == y[..k]
    ensures Forward(t, k, x) == Forward(t, k, y)
    ensures RoundTrip(t, k, x) == RoundTrip(t, k, y)
  {
  }

  /** So does fftw_convolution. */
  lemma ConvolvedReadsPrefix(t: Transform, k: nat, x: seq<real>, y: seq<real>, spec: Spectrum)
    requires k <= |x| && k <= |y| && x[..k] == y[..k] && Bins(k) <= |spec|
    ensures FftwConvolved(t, k, x, spec) == FftwConvolved(t, k, y, spec)
  {
    ReadsPrefix(t, k, x, y);
  }

  /** The all-ones spectrum of the given number of bins. */
  function UnitSpectrum(bins: nat): (r: Spectrum)
    ensures |r| == bins && forall i :: 0 <= i < bins ==> r[i] == Complex(1.0, 0.0)
  {
    seq(bins, _ => Complex(1.0, 0.0))
  }

  /** The as-written product is exact exactly when the filter bin is real or the real part does not
      change: the imaginary part uses the new real part in place of the old one. */
  lemma ProductAsWrittenExactIff(a: Complex, c: Complex)
    ensures ProductAsWritten(a, c) == ComplexMul(a, c)
        <==> c.im == 0.0 || a.re * c.re - a.im * c.im == a.re
  {
    var re := a.re * c.re - a.im * c.im;
    assert ProductAsWritten(a, c).im - ComplexMul(a, c).im == (re - a.re) * c.im;
  }

  /** A concrete bin: i * i is -1, the loops as written yield -1 - i. */
  lemma ProductAsWrittenCounterexample(i: Complex)
    requires i == Complex(0.0, 1.0)
    ensures ComplexMul(i, i) == Complex(-1.0, 0.0)
    ensures ProductAsWritten(i, i) == Complex(-1.0, -1.0)
  {
  }

  /** The complex product is commutative and multiplies moduli: |a c|^2 = |a|^2 |c|^2. */
  lemma ComplexMulLaws(a: Complex, c: Complex)
    ensures ComplexMul(a, c) == ComplexMul(c, a)
    ensures Norm(ComplexMul(a, c)) == Norm(a) * Norm(c)
  {
    var x, y, u, v := a.re, a.im, c.re, c.im;
    calc {
      Norm(ComplexMul(a, c));
      (x * u - y * v) * (x * u - y * v) + (x * v + y * u) * (x * v + y * u);
      x * x * u * u + y * y * v * v + x * x * v * v + y * y * u * u;
      (x * x + y * y) * (u * u + v * v);
    }
  }

  /** Multiplying by the all-ones spectrum leaves a spectrum unchanged, even as written. */
  lemma MultipliedByUnit(s: Spectrum, bins: nat)
    requires |s| <= bins
    ensures MultipliedAsWritten(s, UnitSpectrum(bins)) == s
  {
    var r := MultipliedAsWritten(s, UnitSpectrum(bins));
    forall i | 0 <= i < |s| ensures r[i] == s[i] {
      assert r[i] == ProductAsWritten(s[i], Complex(1.0, 0.0));
    }
  }

  /** So, for a backend whose transform of a unit impulse is all ones (as the discrete Fourier
      transform's is), convolving with the unit impulse's spectrum is the passthrough round trip of
      the same input. */
  lemma UnitImpulseIsRoundTrip(t: Transform, k: nat, x: seq<real>)
    requires k <= |x|
    requires Forward(t, k, Padded([1.0], k)) == UnitSpectrum(Bins(k))
    ensures FftwConvolved(t, k, x, Forward(t, k, Padded([1.0], k))) == RoundTrip(t, k, x)
  {
    MultipliedByUnit(Forward(t, k, x), Bins(k));
  }
}
