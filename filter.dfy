/** The closed-form parts of Signal.filter: the right-hand mask on the half-bin-shifted
    axis, the carrier peak, the bandpass mask, the moment estimate and the settling time. */
module Filtering {
  import opened PyNum
  import opened Spectrum

  /** f - df/2 for every entry of the axis. */
  function ShiftedAxis(f: seq<real>, df: real): (fs: seq<real>)
    ensures |fs| == |f|
  {
    seq(|f|, i requires 0 <= i < |f| => f[i] - df / 2.0)
  }

  /** (|fs| + fs)/|fs| at one frequency: a step from 0 to 2. */
  function RightHand(fs: real): (r: real)
    requires fs != 0.0
    ensures fs > 0.0 ==> r == 2.0
    ensures fs < 0.0 ==> r == 0.0
  {
    var r := (Abs(fs) + fs) / Abs(fs);
    assert fs > 0.0 ==> r == (2.0 * fs) / fs && (2.0 * fs) / fs == 2.0;
    assert fs < 0.0 ==> r == 0.0 / -fs;
    r
  }

  predicate NoZero(fs: seq<real>)
  {
    forall i :: 0 <= i < |fs| ==> fs[i] != 0.0
  }

  /** The mask rh over a whole shifted axis. */
  function RightHandMask(fs: seq<real>): (rh: seq<real>)
    requires NoZero(fs)
    ensures |rh| == |fs|
  {
    seq(|fs|, i requires 0 <= i < |fs| => RightHand(fs[i]))
  }

  /** On the centred axis of any length n >= 2 the half-bin shift never lands on zero, and
      the mask keeps exactly the strictly positive frequencies (doubled) and zeroes the rest. */
  lemma RightHandMaskOnCentredAxis(n: nat, dt: real)
    requires n >= 2 && dt > 0.0
    ensures var f := CentredFreqAxis(n, dt);
            var fs := ShiftedAxis(f, f[1] - f[0]);
            NoZero(fs) &&
            forall i :: 0 <= i < n ==>
              (RightHandMask(fs)[i] == 2.0 <==> f[i] > 0.0) &&
              (RightHandMask(fs)[i] == 0.0 <==> f[i] <= 0.0)
  {
    var f := CentredFreqAxis(n, dt);
    var fs := ShiftedAxis(f, f[1] - f[0]);
    forall i | 0 <= i < n
      ensures fs[i] != 0.0
      ensures fs[i] > 0.0 <==> f[i] > 0.0
    {
      ShiftedCentredEntry(n, dt, i);
    }
  }

  /** One entry of the shifted centred axis: (2k - 1)/(2n dt) with k = i - n div 2, an odd
      numerator, so it is never zero and is positive exactly where (2k)/(2n dt) is. */
  lemma ShiftedCentredEntry(n: nat, dt: real, i: nat)
    requires n >= 2 && dt > 0.0 && i < n
    ensures var f := CentredFreqAxis(n, dt);
            var x := f[i] - (f[1] - f[0]) / 2.0;
            x != 0.0 && (x > 0.0 <==> f[i] > 0.0)
  {
    var nd := n as real * dt;
    CentredAxisStep(n, dt, 0);
    CentredAxisValues(n, dt, i);
    HalfBinBelow(i - n / 2, nd);
    SignOfQuotient((i - n / 2) as real, nd);
  }

  /** k/nd - (1/nd)/2 = (2k - 1)/(2 nd): never zero, and positive exactly when k is. */
  lemma HalfBinBelow(k: int, nd: real)
    requires nd > 0.0
    ensures var x := k as real / nd - (1.0 / nd) / 2.0;
            x != 0.0 && (x > 0.0 <==> k > 0)
  {
    var x := k as real / nd - (1.0 / nd) / 2.0;
    assert x * (2.0 * nd) == (2 * k - 1) as real;
    assert x == (2 * k - 1) as real / (2.0 * nd);
    SignOfQuotient((2 * k - 1) as real, 2.0 * nd);
  }

  /** If the mask zeroes every non-positive frequency, the first largest magnitude of the
      masked spectrum sits at a positive frequency unless all masked magnitudes are zero
      (or below). */
  lemma PeakOfMaskedSpectrum(f: seq<real>, rh: seq<real>, swFT: seq<Complex>, modulus: Complex -> real)
    requires |f| == |rh| == |swFT| >= 1
    requires forall i :: 0 <= i < |f| && f[i] <= 0.0 ==> rh[i] == 0.0
    requires modulus(Complex(0.0, 0.0)) == 0.0
    ensures var m := Moduli(modulus, ScaleAll(rh, swFT));
            f[ArgMax(m)] <= 0.0 ==> forall i :: 0 <= i < |f| ==> m[i] <= 0.0
  {
    var m := Moduli(modulus, ScaleAll(rh, swFT));
    var k := ArgMax(m);
    if f[k] <= 0.0 {
      assert ScaleAll(rh, swFT)[k] == Complex(0.0, 0.0);
    }
  }

  /** numpy.argmax: the FIRST index of a maximal entry. */
  function ArgMax(m: seq<real>): (k: nat)
    requires |m| > 0
    ensures k < |m|
    ensures forall j :: 0 <= j < |m| ==> m[j] <= m[k]
    ensures forall j :: 0 <= j < k ==> m[j] < m[k]
  {
    if |m| == 1 then 0
    else
      var k' := ArgMax(m[..|m| - 1]);
      if m[|m| - 1] > m[k'] then |m| - 1 else k'
  }

  /** bp(f) = 1/(1 + (|f - f0|/bw)^order). */
  function Bandpass(f: real, f0: real, bw: real, order: nat): (r: real)
    requires bw != 0.0
    ensures 0.0 < r <= 1.0
  {
    1.0 / (1.0 + Pow(Abs((f - f0) / bw), order))
  }

  function BandpassMask(f: seq<real>, f0: real, bw: real, order: nat): (bp: seq<real>)
    requires bw != 0.0
    ensures |bp| == |f|
  {
    seq(|f|, i requires 0 <= i < |f| => Bandpass(f[i], f0, bw, order))
  }

  /** The bandpass passes the carrier itself unattenuated. */
  lemma BandpassAtCarrier(f0: real, bw: real, order: nat)
    requires bw != 0.0 && order >= 1
    ensures Bandpass(f0, f0, bw, order) == 1.0
  {
    PowOfZero(order);
  }

  /** At one bandwidth from the carrier the bandpass is exactly one half, whatever the order. */
  lemma BandpassHalfAtBandEdge(f0: real, bw: real, order: nat)
    requires bw != 0.0
    ensures Bandpass(f0 + bw, f0, bw, order) == 0.5
    ensures Bandpass(f0 - bw, f0, bw, order) == 0.5
  {
    PowOfOne(order);
    assert (f0 + bw - f0) / bw == 1.0;
    assert (f0 - bw - f0) / bw == -1.0;
  }

  /** The bandpass depends on f only through |f - f0|. */
  lemma BandpassSymmetric(f1: real, f2: real, f0: real, bw: real, order: nat)
    requires bw != 0.0 && Abs(f1 - f0) == Abs(f2 - f0)
    ensures Bandpass(f1, f0, bw, order) == Bandpass(f2, f0, bw, order)
  {
    AbsQuotient(f1 - f0, bw);
    AbsQuotient(f2 - f0, bw);
  }

  /** ... and does not increase as |f - f0| grows. */
  lemma BandpassMonotone(f1: real, f2: real, f0: real, bw: real, order: nat)
    requires bw != 0.0 && Abs(f1 - f0) <= Abs(f2 - f0)
    ensures Bandpass(f2, f0, bw, order) <= Bandpass(f1, f0, bw, order)
  {
    AbsQuotient(f1 - f0, bw);
    AbsQuotient(f2 - f0, bw);
    var x1, x2 := Abs((f1 - f0) / bw), Abs((f2 - f0) / bw);
    DivideMonotone(Abs(f1 - f0), Abs(f2 - f0), Abs(bw));
    PowMonotone(x1, x2, order);
    var p1, p2 := Pow(x1, order), Pow(x2, order);
    assert 1.0 <= 1.0 + p1 <= 1.0 + p2;
    ReciprocalAntitone(1.0 + p1, 1.0 + p2);
  }

  lemma AbsQuotient(a: real, b: real)
    requires b != 0.0
    ensures Abs(a / b) == Abs(a) / Abs(b)
  {
  }

  lemma ReciprocalAntitone(a: real, b: real)
    requires 0.0 < a <= b
    ensures 1.0 / b <= 1.0 / a
  {
    assert 1.0 / b * b == 1.0;
    assert 1.0 / a * a == 1.0;
    assert (1.0 / a - 1.0 / b) * (a * b) == b - a;
  }

  /** (a*b).sum()/b.sum(); None stands for the NaN NumPy produces when b sums to zero. */
  function WeightedMean(a: seq<real>, b: seq<real>): (r: Option<real>)
    requires |a| == |b|
    ensures r.None? <==> Sum(b) == 0.0
  {
    if Sum(b) == 0.0 then None else Some(Sum(Products(a, b)) / Sum(b))
  }

  /** lo*sum(b) <= sum(a*b) <= hi*sum(b) when every a lies in [lo, hi] and every b >= 0. */
  lemma WeightedSumBounds(a: seq<real>, b: seq<real>, lo: real, hi: real)
    requires |a| == |b|
    requires forall i :: 0 <= i < |b| ==> b[i] >= 0.0
    requires forall i :: 0 <= i < |a| ==> lo <= a[i] <= hi
    ensures lo * Sum(b) <= Sum(Products(a, b)) <= hi * Sum(b)
  {
    ProductsBetween(a, b, lo, hi);
    SumMonotone(Scaled(lo, b), Products(a, b));
    SumMonotone(Products(a, b), Scaled(hi, b));
    SumOfScaled(lo, b);
    SumOfScaled(hi, b);
  }

  /** Entry by entry, lo*b <= a*b <= hi*b. */
  lemma ProductsBetween(a: seq<real>, b: seq<real>, lo: real, hi: real)
    requires |a| == |b|
    requires forall i :: 0 <= i < |b| ==> b[i] >= 0.0
    requires forall i :: 0 <= i < |a| ==> lo <= a[i] <= hi
    ensures forall i :: 0 <= i < |b| ==> Scaled(lo, b)[i] <= Products(a, b)[i] <= Scaled(hi, b)[i]
  {
    forall i | 0 <= i < |b| ensures lo * b[i] <= a[i] * b[i] <= hi * b[i] {
      BoundsTimesWeight(a[i], lo, hi, b[i]);
    }
  }

  lemma BoundsTimesWeight(x: real, lo: real, hi: real, w: real)
    requires lo <= x <= hi && w >= 0.0
    ensures lo * w <= x * w <= hi * w
  {
    assert (x - lo) * w >= 0.0;
    assert (hi - x) * w >= 0.0;
  }

  /** The moment estimate f00 lies within the range of the axis whenever the weights are
      non-negative and not all zero. */
  lemma WeightedMeanBounds(a: seq<real>, b: seq<real>, lo: real, hi: real)
    requires |a| == |b|
    requires forall i :: 0 <= i < |b| ==> b[i] >= 0.0
    requires exists i :: 0 <= i < |b| && b[i] != 0.0
    requires forall i :: 0 <= i < |a| ==> lo <= a[i] <= hi
    ensures WeightedMean(a, b).Some?
    ensures lo <= WeightedMean(a, b).value <= hi
  {
    SumZeroIffAllZero(b);
    WeightedSumBounds(a, b, lo, hi);
    var sb, sab := Sum(b), Sum(Products(a, b));
    assert sab / sb * sb == sab;
    assert (sab / sb - lo) * sb == sab - lo * sb;
    assert (hi - sab / sb) * sb == hi * sb - sab;
  }

  /** The moment estimate of an ascending axis lies between its first and last entries. */
  lemma MomentWithinAxis(f: seq<real>, b: seq<real>)
    requires |f| == |b| >= 1
    requires forall i :: 0 <= i < |f| ==> f[0] <= f[i] <= f[|f| - 1]
    requires forall i :: 0 <= i < |b| ==> b[i] >= 0.0
    ensures WeightedMean(f, b).Some? ==> f[0] <= WeightedMean(f, b).value <= f[|f| - 1]
  {
    if Sum(b) != 0.0 {
      SumZeroIffAllZero(b);
      WeightedMeanBounds(f, b, f[0], f[|f| - 1]);
    }
  }

  /** On the centred axis, with non-negative weights, the moment estimate is a frequency
      between the lowest and the highest bin. */
  lemma MomentWithinCentredAxis(n: nat, dt: real, b: seq<real>)
    requires n >= 1 && dt > 0.0 && |b| == n
    requires forall i :: 0 <= i < n ==> b[i] >= 0.0
    ensures var f := CentredFreqAxis(n, dt);
            WeightedMean(f, b).Some? ==> f[0] <= WeightedMean(f, b).value <= f[n - 1]
  {
    var f := CentredFreqAxis(n, dt);
    forall i | 0 <= i < n
      ensures f[0] <= f[i] <= f[n - 1]
    {
      CentredAxisAscending(n, dt, 0, i);
      CentredAxisAscending(n, dt, i, n - 1);
    }
    MomentWithinAxis(f, b);
  }

  /** td = 1.25/bw, the time the filter takes to settle. */
  function SettlingTime(bw: real): (td: real)
    requires bw != 0.0
    ensures td * bw == 1.25
  {
    1.25 / bw
  }

  /** Everything filter stores besides bw and order. */
  datatype Filtered = Filtered(rh: seq<real>, f0: real, bp: seq<real>, swFTfilt: seq<Complex>,
                               f00: Option<real>, td: real)

  /** The filter stage on axis f (bin width df) and centred spectrum swFT: the right-hand
      mask, the carrier f0 at the first largest masked magnitude, the bandpass around it,
      the doubly filtered spectrum, the moment estimate and the settling time. */
  function FilterSpectrum(f: seq<real>, df: real, swFT: seq<Complex>, bw: real, order: nat,
                          modulus: Complex -> real): (r: Filtered)
    requires |f| == |swFT| >= 1 && bw != 0.0 && NoZero(ShiftedAxis(f, df))
    ensures |r.rh| == |r.bp| == |r.swFTfilt| == |f|
    ensures exists k :: 0 <= k < |f| && r.f0 == f[k]
  {
    var rh := RightHandMask(ShiftedAxis(f, df));
    var k := ArgMax(Moduli(modulus, ScaleAll(rh, swFT)));
    var bp := BandpassMask(f, f[k], bw, order);
    var filt := ScaleAll(bp, ScaleAll(rh, swFT));
    Filtered(rh, f[k], bp, filt, WeightedMean(f, Moduli(modulus, filt)), SettlingTime(bw))
  }

  /** On the axis fft stores, the carrier is a positive frequency unless nothing is left at
      positive frequencies once the mask is applied. */
  lemma CarrierIsPositive(n: nat, dt: real, swFT: seq<Complex>, bw: real, order: nat,
                          modulus: Complex -> real)
    requires n >= 2 && dt > 0.0 && |swFT| == n && bw != 0.0
    requires modulus(Complex(0.0, 0.0)) == 0.0
    ensures var f := CentredFreqAxis(n, dt);
            NoZero(ShiftedAxis(f, f[1] - f[0])) &&
            var r := FilterSpectrum(f, f[1] - f[0], swFT, bw, order, modulus);
            r.f0 <= 0.0 ==>
              forall i :: 0 <= i < n ==> Moduli(modulus, ScaleAll(r.rh, swFT))[i] <= 0.0
  {
    var f := CentredFreqAxis(n, dt);
    RightHandMaskOnCentredAxis(n, dt);
    var rh := RightHandMask(ShiftedAxis(f, f[1] - f[0]));
    PeakOfMaskedSpectrum(f, rh, swFT, modulus);
  }

  /** What the filter's results say about the axis f: a non-positive carrier means the mask
      left nothing at all, and the moment estimate is a frequency of the axis's range. */
  predicate CarrierAndMomentOnAxis(f: seq<real>, swFT: seq<Complex>, rh: seq<real>, f0: real,
                                   f00: Option<real>, modulus: Complex -> real)
  {
    |f| >= 1 && |rh| == |swFT| &&
    (f0 <= 0.0 ==> forall i :: 0 <= i < |swFT| ==> Moduli(modulus, ScaleAll(rh, swFT))[i] == 0.0) &&
    (f00.Some? ==> f[0] <= f00.value <= f[|f| - 1])
  }

  /** On the axis fft stores, with a magnitude that is zero at zero and never negative, the
      filter's carrier and moment estimate satisfy CarrierAndMomentOnAxis. */
  lemma FilterOnStoredAxis(n: nat, dt: real, swFT: seq<Complex>, bw: real, order: nat,
                           modulus: Complex -> real)
    requires n >= 2 && dt > 0.0 && |swFT| == n && bw != 0.0
    requires modulus(Complex(0.0, 0.0)) == 0.0 && forall c :: modulus(c) >= 0.0
    ensures var f := CentredFreqAxis(n, dt);
            NoZero(ShiftedAxis(f, f[1] - f[0])) &&
            var r := FilterSpectrum(f, f[1] - f[0], swFT, bw, order, modulus);
            CarrierAndMomentOnAxis(f, swFT, r.rh, r.f0, r.f00, modulus)
  {
    var f := CentredFreqAxis(n, dt);
    CarrierIsPositive(n, dt, swFT, bw, order, modulus);
    MomentWithinBand(n, dt, f[1] - f[0], swFT, bw, order, modulus);
  }

  /** The same, for an axis f and bin width df known to be the ones fft stores. */
  lemma FilterOnAxis(f: seq<real>, df: real, dt: real, swFT: seq<Complex>, bw: real, order: nat,
                     modulus: Complex -> real)
    requires |f| >= 2 && dt > 0.0 && f == CentredFreqAxis(|f|, dt) && df == f[1] - f[0]
    requires |swFT| == |f| && bw != 0.0
    requires modulus(Complex(0.0, 0.0)) == 0.0 && forall c :: modulus(c) >= 0.0
    ensures NoZero(ShiftedAxis(f, df))
    ensures var r := FilterSpectrum(f, df, swFT, bw, order, modulus);
            CarrierAndMomentOnAxis(f, swFT, r.rh, r.f0, r.f00, modulus)
  {
    FilterOnStoredAxis(|f|, dt, swFT, bw, order, modulus);
  }

  /** The bandpass is centred on the carrier: it passes f0 unattenuated and halves the
      spectrum one bandwidth away on either side. */
  lemma BandpassCentredOnCarrier(f: seq<real>, df: real, swFT: seq<Complex>, bw: real,
                                 order: nat, modulus: Complex -> real, i: nat)
    requires |f| == |swFT| >= 1 && bw != 0.0 && NoZero(ShiftedAxis(f, df)) && i < |f|
    ensures var r := FilterSpectrum(f, df, swFT, bw, order, modulus);
            (order >= 1 && f[i] == r.f0 ==> r.bp[i] == 1.0) &&
            (Abs(f[i] - r.f0) == bw ==> r.bp[i] == 0.5)
  {
    var r := FilterSpectrum(f, df, swFT, bw, order, modulus);
    if order >= 1 && f[i] == r.f0 {
      BandpassAtCarrier(r.f0, bw, order);
    }
    if f[i] - r.f0 == bw {
      BandpassHalfAtBandEdge(r.f0, bw, order);
    } else if r.f0 - f[i] == bw {
      BandpassHalfAtBandEdge(r.f0, bw, order);
      assert f[i] == r.f0 - bw;
    }
  }

  /** With non-negative magnitudes, the moment estimate on the axis fft stores is a
      frequency between the lowest and the highest bin. */
  lemma MomentWithinBand(n: nat, dt: real, df: real, swFT: seq<Complex>, bw: real, order: nat,
                         modulus: Complex -> real)
    requires n >= 1 && dt > 0.0 && |swFT| == n && bw != 0.0
    requires NoZero(ShiftedAxis(CentredFreqAxis(n, dt), df))
    requires forall c :: modulus(c) >= 0.0
    ensures var f := CentredFreqAxis(n, dt);
            var r := FilterSpectrum(f, df, swFT, bw, order, modulus);
            r.f00.Some? ==> f[0] <= r.f00.value <= f[n - 1]
  {
    var f := CentredFreqAxis(n, dt);
    var r := FilterSpectrum(f, df, swFT, bw, order, modulus);
    MomentWithinCentredAxis(n, dt, Moduli(modulus, r.swFTfilt));
  }
}
