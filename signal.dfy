/** The Signal object of freqdemod: a record of named arrays that each stage of the
    demodulation pipeline (binarate, window, fft, filter, ifft, trim, fit) extends,
    overwrites or truncates in place. Python's dictionary becomes one field per entry
    plus the set of keys present so far. */
module FreqDemod {
  import opened PyNum
  import opened Binaration
  import opened Windowing
  import opened Spectrum
  import opened Filtering
  import opened Trimming
  import opened Fitting

  /** The dictionary keys a stage can add. */
  datatype Key =
    | SOriginal | TOriginal | W | SW | TwActual | SwFT | F | Df
    | Bw | Order | Rh | Bp | SwFTfilt | F0 | F00 | Td | Z | Theta | A
    | FitFreq | FitTime

  /** The exception a stage stops with; NotANumber marks a result NumPy fills with NaN. */
  datatype PyError = ValueError | IndexError | ZeroDivisionError | NotANumber

  datatype Outcome = Pass | Fail(error: PyError)

  /** Trimming a uniformly spaced axis keeps it uniformly spaced from the first kept sample. */
  lemma TrimmedUniform(t: seq<real>, dt: real, t0: int, id: int)
    requires UniformlySpaced(t, dt, t0)
    ensures UniformlySpaced(Trimmed(t, id), dt, t0 + SliceIndex(id, |t|))
  {
    UniformSlice(t, dt, t0, id, -id);
  }

  class Signal {
    var s: seq<real>
    const sName: string
    const sUnit: string
    const dt: real
    var t: seq<real>
    /** Index, in the constructor's time axis, of the first sample still in t. */
    ghost var t0: int
    var keys: set<Key>

    var sOriginal: seq<real>
    var tOriginal: seq<real>
    var w: seq<real>
    var sw: seq<real>
    var twActual: real
    var swFT: seq<Complex>
    var f: seq<real>
    var df: real
    var bw: real
    var order: nat
    var rh: seq<real>
    var bp: seq<real>
    var swFTfilt: seq<Complex>
    var f0: real
    var f00: Option<real>
    var td: real
    var z: seq<Complex>
    var theta: seq<real>
    var a: seq<real>
    var fitFreq: seq<real>
    var fitTime: seq<real>
    /** The complex magnitude abs, supplied from outside: zero at zero and never negative. */
    const modulus: Complex -> real

    /** The time axis is always a run of whole sampling steps, and the frequency axis is,
        once fft has stored one, the centred fftfreq axis of the stored spectrum's length. */
    ghost predicate Valid()
      reads this`t, this`t0, this`f, this`swFT
    {
      dt > 0.0 && UniformlySpaced(t, dt, t0) &&
      |swFT| == |f| && (|f| >= 1 ==> f == CentredFreqAxis(|f|, dt))
    }

    /** The magnitude behaves as abs does: zero at zero and never negative. It depends on
        nothing that changes, so it holds for the object's whole life. */
    ghost predicate ModulusIsMagnitude()
    {
      modulus(Complex(0.0, 0.0)) == 0.0 && forall c :: modulus(c) >= 0.0
    }

    /** The keys record which stages have run: f is non-empty once present, and df is only
        present together with f. */
    ghost predicate Recorded()
      reads this`keys, this`f
    {
      (F in keys ==> |f| >= 1) && (Df in keys ==> F in keys)
    }

    /** Store the signal and build the time axis dt*[0, 1, ..., n-1]. */
    constructor (s: seq<real>, sName: string, sUnit: string, dt: real, modulus: Complex -> real)
      requires dt > 0.0
      requires modulus(Complex(0.0, 0.0)) == 0.0 && forall c :: modulus(c) >= 0.0
      ensures Valid() && Recorded() && ModulusIsMagnitude()
      ensures this.s == s && this.sName == sName && this.sUnit == sUnit && this.dt == dt
      ensures this.modulus == modulus
      ensures |t| == |s| && forall i :: 0 <= i < |t| ==> t[i] == dt * i as real
      ensures keys == {}
    {
      this.s := s;
      this.sName := sName;
      this.sUnit := sUnit;
      this.dt := dt;
      this.modulus := modulus;
      t := seq(|s|, i => dt * i as real);
      t0 := 0;
      keys := {};
      f := [];
      swFT := [];
    }

    /** Keep a copy of s and t, then cut both down to the largest power of two that fits,
        dropping samples from the end, the start or both, as the mode asks. */
    method Binarate(mode: string) returns (out: Outcome)
      requires Valid() && Recorded()
      modifies this`sOriginal, this`tOriginal, this`s, this`t, this`t0, this`keys
      ensures Valid() && Recorded()
      ensures sOriginal == old(s) && tOriginal == old(t)
      ensures keys == old(keys) + {SOriginal, TOriginal}
      // math.log(0, 2) fails before anything is cut
      ensures |old(s)| == 0 ==> out == Fail(ValueError) && s == old(s) && t == old(t)
      ensures |old(s)| >= 1 ==>
                var r := KeptRange(|old(s)|, mode);
                s == old(s)[r.start..r.stop]
      ensures |old(s)| >= 1 && KeptRange(|old(s)|, mode).stop <= |old(t)| ==>
                var r := KeptRange(|old(s)|, mode);
                out == Pass && t == old(t)[r.start..r.stop]
      // t shorter than s (after trim): s is already cut when indexing t fails
      ensures |old(s)| >= 1 && KeptRange(|old(s)|, mode).stop > |old(t)| ==>
                out == Fail(IndexError) && t == old(t)
      ensures 1 <= |old(s)| == |old(t)| ==> out == Pass && |s| == |t|
    {
      sOriginal := s;
      tOriginal := t;
      keys := keys + {SOriginal, TOriginal};
      if |s| == 0 {
        out := Fail(ValueError);
      } else {
        var r := KeptRange(|s|, mode);
        s := s[r.start..r.stop];
        if r.stop > |t| {
          out := Fail(IndexError);
        } else {
          UniformRun(t, dt, t0, r.start, r.stop);
          t := t[r.start..r.stop];
          t0 := t0 + r.start;
          out := Pass;
        }
      }
    }

    /** Multiply s by a window that rises over ww = ceil(tw/dt) samples, stays at one and falls
        over the last ww samples; taper holds the 2*ww-point Blackman window the rise and fall
        are cut from. A negative ww leaves the taper empty and the window n - 2*ww ones long. */
    method Window(tw: real, taper: seq<real>) returns (out: Outcome)
      requires Valid() && Recorded()
      requires HalfWidth(tw, dt) >= 0 ==> |taper| == 2 * HalfWidth(tw, dt)
      modifies this`w, this`sw, this`twActual, this`keys
      ensures Valid() && Recorded()
      // np.ones(n - 2*ww) with a negative length
      ensures 2 * HalfWidth(tw, dt) > |s| ==> out == Fail(ValueError) && unchanged(this)
      ensures 0 <= HalfWidth(tw, dt) && 2 * HalfWidth(tw, dt) <= |s| ==>
                out == Pass && w == Envelope(|s|, HalfWidth(tw, dt), taper) && sw == Products(w, s) &&
                keys == old(keys) + {W, SW, TwActual}
      ensures HalfWidth(tw, dt) < 0 ==> w == Ones(|s| - 2 * HalfWidth(tw, dt))
      // a single sample broadcasts against the over-long window
      ensures HalfWidth(tw, dt) < 0 && |s| == 1 ==>
                out == Pass && sw == Scaled(s[0], w) && keys == old(keys) + {W, SW, TwActual}
      // otherwise w*s has mismatched shapes, after w is stored
      ensures HalfWidth(tw, dt) < 0 && |s| != 1 ==>
                out == Fail(ValueError) && keys == old(keys) + {W} &&
                sw == old(sw) && twActual == old(twActual)
      ensures out == Pass ==> twActual == ActualRiseTime(tw, dt)
    {
      var ww := HalfWidth(tw, dt);
      var n := |s|;
      if 2 * ww > n {
        out := Fail(ValueError);
      } else if ww >= 0 {
        var w' := Envelope(n, ww, taper);
        StoreWindowed(w', Products(w', s), ActualRiseTime(tw, dt), {W, SW, TwActual});
        out := Pass;
      } else if n == 1 {
        var w' := Ones(n - 2 * ww);
        StoreWindowed(w', Scaled(s[0], w'), ActualRiseTime(tw, dt), {W, SW, TwActual});
        out := Pass;
      } else {
        StoreWindowed(Ones(n - 2 * ww), sw, twActual, {W});
        out := Fail(ValueError);
      }
    }

    /** The stores window makes: the window, the windowed signal, the rise time and their keys. */
    method StoreWindowed(w: seq<real>, sw: seq<real>, twActual: real, added: set<Key>)
      requires Valid() && Recorded() && F !in added && Df !in added
      modifies this`w, this`sw, this`twActual, this`keys
      ensures Valid() && Recorded()
      ensures this.w == w && this.sw == sw && this.twActual == twActual && keys == old(keys) + added
    {
      this.w, this.sw, this.twActual := w, sw, twActual;
      keys := keys + added;
    }

    /** Store the centred spectrum of sw and its frequency axis; dft stands for
        numpy.fft.fft(sw), whose values the model does not compute. */
    method FFT(dft: seq<Complex>) returns (out: Outcome)
      requires Valid() && Recorded() && SW in keys
      requires |dft| == |sw|
      modifies this`swFT, this`f, this`df, this`keys
      ensures Valid() && Recorded()
      // numpy.fft.fft of an empty array
      ensures |sw| == 0 ==> out == Fail(ValueError) && unchanged(this)
      ensures |sw| >= 1 ==> swFT == FftShift(dft) && f == CentredFreqAxis(|sw|, dt)
      // f[1] does not exist
      ensures |sw| == 1 ==> out == Fail(IndexError) && keys == old(keys) + {SwFT, F} && df == old(df)
      ensures |sw| >= 2 ==>
                out == Pass && keys == old(keys) + {SwFT, F, Df} &&
                df == f[1] - f[0] && df == 1.0 / (|sw| as real * dt)
    {
      var n := |sw|;
      if n == 0 {
        out := Fail(ValueError);
      } else {
        swFT := FftShift(dft);
        f := CentredFreqAxis(n, dt);
        keys := keys + {SwFT, F};
        if n == 1 {
          out := Fail(IndexError);
        } else {
          df := f[1] - f[0];
          CentredAxisStep(n, dt, 0);
          keys := keys + {Df};
          out := Pass;
        }
      }
    }

    /** Zero the spectrum's non-positive frequencies (doubling the positive ones), take the
        carrier f0 at the largest remaining magnitude, apply a bandpass of width bw and the
        given order (50 unless stated) around it, estimate the centre again by moments and record the filter's
        settling time. */
    method Filter(bw: real, order: nat := 50) returns (out: Outcome)
      requires Valid() && Recorded() && ModulusIsMagnitude() && {SwFT, F, Df} <= keys
      modifies this`bw, this`order, this`rh, this`bp, this`swFTfilt, this`f0, this`f00,
               this`td, this`keys
      ensures Valid() && Recorded()
      ensures bw == 0.0 ==> out == Fail(ZeroDivisionError) && unchanged(this)
      ensures bw != 0.0 && !NoZero(ShiftedAxis(f, df)) ==> out == Fail(NotANumber) && unchanged(this)
      ensures bw != 0.0 && NoZero(ShiftedAxis(f, df)) ==>
                var r := FilterSpectrum(f, df, swFT, bw, order, modulus);
                out == Pass && this.bw == bw && this.order == order &&
                rh == r.rh && f0 == r.f0 && bp == r.bp && swFTfilt == r.swFTfilt &&
                f00 == r.f00 && td == r.td &&
                keys == old(keys) + {Bw, Order, Rh, Bp, SwFTfilt, F0, F00, Td}
      // on the axis fft stores, the half-bin shift never lands on zero
      ensures |f| >= 2 && df == f[1] - f[0] && bw != 0.0 ==> out == Pass
      // there, a non-positive carrier means nothing survived the mask, and f00 is on the axis
      ensures out == Pass && |f| >= 2 && df == f[1] - f[0] ==>
                CarrierAndMomentOnAxis(f, swFT, rh, f0, f00, modulus)
    {
      if |f| >= 2 && df == f[1] - f[0] {
        RightHandMaskOnCentredAxis(|f|, dt);
      }
      if bw == 0.0 {
        out := Fail(ZeroDivisionError);
      } else if !NoZero(ShiftedAxis(f, df)) {
        out := Fail(NotANumber);
      } else {
        var r := FilterSpectrum(f, df, swFT, bw, order, modulus);
        if |f| >= 2 && df == f[1] - f[0] {
          FilterOnAxis(f, df, dt, swFT, bw, order, modulus);
        }
        StoreFiltered(bw, order, r,
                      {Bw, Order, Rh, Bp, SwFTfilt, F0, F00, Td});
        out := Pass;
      }
    }

    /** The stores filter makes once the mask and the bandpass are defined. */
    method StoreFiltered(bw: real, order: nat, r: Filtered, added: set<Key>)
      requires Valid() && Recorded() && F !in added && Df !in added
      modifies this`bw, this`order, this`rh, this`bp, this`swFTfilt, this`f0, this`f00,
               this`td, this`keys
      ensures Valid() && Recorded()
      ensures this.bw == bw && this.order == order &&
              rh == r.rh && f0 == r.f0 && bp == r.bp && swFTfilt == r.swFTfilt &&
              f00 == r.f00 && td == r.td && keys == old(keys) + added
    {
      this.bw, this.order, rh, f0, bp, swFTfilt, f00, td := bw, order, r.rh, r.f0, r.bp, r.swFTfilt, r.f00, r.td;
      keys := keys + added;
    }

    /** Return the filtered spectrum to FFT order and invert it; inverse stands for
        numpy.fft.ifft and unwrappedPhase for the unwrapped phase in cycles. */
    method IFFT(inverse: seq<Complex> -> seq<Complex>, unwrappedPhase: seq<Complex> -> seq<real>)
      requires Valid() && Recorded() && SwFTfilt in keys
      // ifft and unwrap both keep the length of their argument
      requires forall x :: |inverse(x)| == |x|
      requires forall x :: |unwrappedPhase(x)| == |x|
      modifies this`z, this`theta, this`a, this`keys
      ensures Valid() && Recorded()
      ensures |z| == |theta| == |a| == |swFTfilt|
      ensures z == inverse(IfftShift(swFTfilt))
      ensures theta == unwrappedPhase(z) && a == Moduli(modulus, z)
      ensures keys == old(keys) + {Z, Theta, A}
      // on an even length this is exactly the un-centring fftshift performs
      ensures |swFTfilt| % 2 == 0 ==> z == inverse(FftShift(swFTfilt))
    {
      if |swFTfilt| % 2 == 0 {
        ShiftsAgreeOnEvenLength(swFTfilt);
      }
      z := inverse(IfftShift(swFTfilt));
      theta := unwrappedPhase(z);
      a := Moduli(modulus, z);
      keys := keys + {Z, Theta, A};
    }

    /** Drop id = int(td/dt) samples from both ends of z, theta, a and t. */
    method Trim()
      requires Valid() && Recorded() && {Td, Z, Theta, A} <= keys
      modifies this`z, this`theta, this`a, this`t, this`t0
      ensures Valid() && Recorded()
      ensures var id := TrimCount(td, dt);
              z == Trimmed(old(z), id) && theta == Trimmed(old(theta), id) &&
              a == Trimmed(old(a), id) && t == Trimmed(old(t), id)
      ensures |old(z)| == |old(theta)| == |old(a)| == |old(t)| ==>
                |z| == |theta| == |a| == |t|
    {
      var id := TrimCount(td, dt);
      TrimmedUniform(t, dt, t0, id);
      if |z| == |theta| == |a| == |t| {
        TrimmedLengthsAgree(z, t, id);
        TrimmedLengthsAgree(theta, t, id);
        TrimmedLengthsAgree(a, t, id);
      }
      t0 := t0 + SliceIndex(id, |t|);
      z := Trimmed(z, id);
      theta := Trimmed(theta, id);
      a := Trimmed(a, id);
      t := Trimmed(t, id);
    }

    /** Cut theta and t into chunks of npc = round(target/dt) samples, reset each chunk to
        start at zero and store every chunk's least-squares slope (the frequency) with the
        chunk's start time. */
    method Fit(target: real) returns (out: Outcome)
      requires Valid() && Recorded() && Theta in keys
      modifies this`fitFreq, this`fitTime, this`keys
      ensures Valid() && Recorded()
      // len/npc with npc == 0
      ensures ChunkLength(target, dt) == 0 ==> out == Fail(ZeroDivisionError) && unchanged(this)
      // reshape to a negative chunk length
      ensures ChunkLength(target, dt) < 0 ==> out == Fail(ValueError) && unchanged(this)
      // t is too short to reshape into count chunks
      ensures var npc := ChunkLength(target, dt);
              npc >= 1 && ChunkCount(|theta|, npc) * npc > |t| ==>
                out == Fail(ValueError) && unchanged(this)
      // one-sample chunks: the least-squares denominator is 0 and every slope NaN
      ensures ChunkLength(target, dt) == 1 && 1 <= ChunkCount(|theta|, 1) <= |t| ==>
                out == Fail(NotANumber) && unchanged(this)
      // no phase samples: zero chunks, so empty fit arrays and no slope is computed
      ensures ChunkLength(target, dt) == 1 && |theta| == 0 ==>
                out == Pass && keys == old(keys) + {FitFreq, FitTime} && fitFreq == [] && fitTime == []
      ensures var npc := ChunkLength(target, dt);
              npc >= 2 && ChunkCount(|theta|, npc) * npc <= |t| ==>
                var count := ChunkCount(|theta|, npc);
                out == Pass && keys == old(keys) + {FitFreq, FitTime} &&
                fitTime == FitTimes(t, npc, count) &&
                fitFreq == ChunkSlopes(t, theta, npc, count, dt) &&
                forall c :: 0 <= c < count ==>
                  (ChunkFits(c, count, npc);
                   LeastSquaresSlope(Reset(Chunk(t, c, npc)), Reset(Chunk(theta, c, npc)))
                     == Some(fitFreq[c]))
    {
      var npc := ChunkLength(target, dt);
      if npc == 0 {
        out := Fail(ZeroDivisionError);
      } else if npc < 0 {
        out := Fail(ValueError);
      } else if ChunkCount(|theta|, npc) * npc > |t| {
        out := Fail(ValueError);
      } else if npc == 1 && |theta| >= 1 {
        out := Fail(NotANumber);
      } else if npc == 1 {
        fitTime, fitFreq := [], [];
        keys := keys + {FitFreq, FitTime};
        out := Pass;
      } else {
        var count := ChunkCount(|theta|, npc);
        fitTime := FitTimes(t, npc, count);
        fitFreq := ChunkSlopes(t, theta, npc, count, dt);
        keys := keys + {FitFreq, FitTime};
        out := Pass;
        forall c | 0 <= c < count
          ensures (ChunkFits(c, count, npc);
                   LeastSquaresSlope(Reset(Chunk(t, c, npc)), Reset(Chunk(theta, c, npc)))
                     == Some(fitFreq[c]))
        {
          ChunkFits(c, count, npc);
          ChunkSlopeIsLeastSquares(t, theta, dt, t0, c, npc);
        }
      }
    }
  }
}
