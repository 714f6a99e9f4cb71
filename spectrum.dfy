/** Frequency-domain bookkeeping of Signal.fft and Signal.ifft: NumPy's fftfreq axis,
    the roll that fftshift performs, and the centred axis that results. The transform
    values themselves come from outside the model. */
module Spectrum {
  import opened PyNum

  datatype Complex = Complex(re: real, im: real)

  /** A real factor times a complex number, as NumPy multiplies a real mask into a spectrum. */
  function Scale(c: real, z: Complex): (r: Complex)
    ensures c == 1.0 ==> r == z
    ensures c == 0.0 ==> r == Complex(0.0, 0.0)
  {
    Complex(c * z.re, c * z.im)
  }

  /** Element-wise product of a real mask with a complex array. */
  function ScaleAll(mask: seq<real>, zs: seq<Complex>): (r: seq<Complex>)
    requires |mask| == |zs|
    ensures |r| == |zs|
  {
    seq(|zs|, i requires 0 <= i < |zs| => Scale(mask[i], zs[i]))
  }

  /** Element-wise magnitudes, for a modulus function supplied from outside. */
  function Moduli(modulus: Complex -> real, zs: seq<Complex>): (r: seq<real>)
    ensures |r| == |zs|
  {
    seq(|zs|, i requires 0 <= i < |zs| => modulus(zs[i]))
  }

  /** numpy.roll(x, k) for a shift 0 <= k <= |x|: the last k entries move to the front. */
  function Roll<T>(x: seq<T>, k: nat): (r: seq<T>)
    requires k <= |x|
    ensures |r| == |x|
    ensures forall i :: 0 <= i < k ==> r[i] == x[i + |x| - k]
    ensures forall i :: k <= i < |x| ==> r[i] == x[i - k]
  {
    x[|x| - k..] + x[..|x| - k]
  }

  /** numpy.fft.fftshift on a one-dimensional array: roll by n div 2. */
  function FftShift<T>(x: seq<T>): (r: seq<T>)
    ensures |r| == |x|
  {
    Roll(x, |x| / 2)
  }

  /** On an even length, fftshift undoes itself: ifft's re-use of fftshift restores FFT order. */
  lemma ShiftTwiceIsIdentity<T>(x: seq<T>)
    requires |x| % 2 == 0
    ensures FftShift(FftShift(x)) == x
  {
    var n, h := |x|, |x| / 2;
    var y := FftShift(x);
    forall i | 0 <= i < n ensures FftShift(y)[i] == x[i] {
      if i < h {
        assert FftShift(y)[i] == y[i + h];
      } else {
        assert FftShift(y)[i] == y[i - h];
      }
    }
  }

  /** On an odd length fftshift is not its own inverse (three points already show it). */
  lemma ShiftTwiceMovesOddLength()
    ensures FftShift(FftShift([0, 1, 2])) == [1, 2, 0]
  {
    assert FftShift([0, 1, 2]) == [2, 0, 1];
  }

  /** numpy.fft.ifftshift: roll by -(n div 2), that is by n - n div 2. */
  function IfftShift<T>(x: seq<T>): (r: seq<T>)
    ensures |r| == |x|
  {
    Roll(x, |x| - |x| / 2)
  }

  /** ifftshift undoes fftshift on every length. */
  lemma IfftShiftUndoesFftShift<T>(x: seq<T>)
    ensures IfftShift(FftShift(x)) == x
  {
    var n, h := |x|, |x| / 2;
    var y := FftShift(x);
    forall i | 0 <= i < n ensures IfftShift(y)[i] == x[i] {
      if i < n - h {
        assert IfftShift(y)[i] == y[i + h];
      } else {
        assert IfftShift(y)[i] == y[i - (n - h)];
      }
    }
  }

  /** On an even length the two shifts coincide, so un-centring with either gives the same array. */
  lemma ShiftsAgreeOnEvenLength<T>(x: seq<T>)
    requires |x| % 2 == 0
    ensures IfftShift(x) == FftShift(x)
  {
  }

  /** numpy.fft.fftfreq(n, d): 0, 1, ..., then the negative frequencies, in units of 1/(n*d). */
  function FftFreq(n: nat, d: real): (r: seq<real>)
    requires n >= 1 && d > 0.0
    ensures |r| == n
  {
    seq(n, j requires 0 <= j < n =>
      (if j < (n - 1) / 2 + 1 then j else j - n) as real * (1.0 / (n as real * d)))
  }

  /** The frequency axis stored by fft: fftshift(fftfreq(n, dt)). */
  function CentredFreqAxis(n: nat, d: real): (f: seq<real>)
    requires n >= 1 && d > 0.0
    ensures |f| == n
  {
    FftShift(FftFreq(n, d))
  }

  /** The centred axis runs from -(n div 2) bins upward: f[i] = (i - n div 2)/(n*dt). */
  lemma CentredAxisValues(n: nat, d: real, i: nat)
    requires n >= 1 && d > 0.0 && i < n
    ensures CentredFreqAxis(n, d)[i] == (i - n / 2) as real / (n as real * d)
  {
    var h := n / 2;
    var j := if i < h then i + n - h else i - h;
    assert CentredFreqAxis(n, d)[i] == FftFreq(n, d)[j];
    FftFreqValue(n, d, j);
    assert n - h == (n - 1) / 2 + 1;
  }

  /** Entry j of fftfreq is the signed bin number over n*d. */
  lemma FftFreqValue(n: nat, d: real, j: nat)
    requires n >= 1 && d > 0.0 && j < n
    ensures FftFreq(n, d)[j] == (if j < (n - 1) / 2 + 1 then j else j - n) as real / (n as real * d)
  {
    var k := if j < (n - 1) / 2 + 1 then j else j - n;
    TimesReciprocal(k as real, n as real * d);
  }

  lemma TimesReciprocal(k: real, m: real)
    requires m != 0.0
    ensures k * (1.0 / m) == k / m
  {
  }

  /** Neighbouring entries of the centred axis are one bin df = 1/(n*dt) apart; in particular
      the df that fft records as f[1] - f[0]. */
  lemma CentredAxisStep(n: nat, d: real, i: nat)
    requires n >= 2 && d > 0.0 && i + 1 < n
    ensures CentredFreqAxis(n, d)[i + 1] - CentredFreqAxis(n, d)[i] == 1.0 / (n as real * d)
  {
    CentredAxisValues(n, d, i);
    CentredAxisValues(n, d, i + 1);
    var nd := n as real * d;
    assert (i + 1 - n / 2) as real / nd - (i - n / 2) as real / nd
        == ((i + 1 - n / 2) as real - (i - n / 2) as real) / nd;
  }

  /** The centred axis is ascending, so f[0] and f[n-1] bound every entry. */
  lemma CentredAxisAscending(n: nat, d: real, i: nat, j: nat)
    requires n >= 1 && d > 0.0 && i <= j < n
    ensures CentredFreqAxis(n, d)[i] <= CentredFreqAxis(n, d)[j]
  {
    CentredAxisValues(n, d, i);
    CentredAxisValues(n, d, j);
    DivideMonotone((i - n / 2) as real, (j - n / 2) as real, n as real * d);
  }

  /** The zero-frequency bin sits at index n div 2, the middle of the centred axis. */
  lemma CentredAxisZeroAtMiddle(n: nat, d: real)
    requires n >= 1 && d > 0.0
    ensures CentredFreqAxis(n, d)[n / 2] == 0.0
  {
    CentredAxisValues(n, d, n / 2);
  }
}
