# FreqDemod: a verified model of the demodulation pipeline

FreqDemod recovers the instantaneous frequency of a sampled oscillation. A `Signal` object
holds the samples `s`, the time step `dt` and a dictionary of named arrays. Each stage of the
pipeline reads entries and adds or overwrites others:

- `binarate` cuts the record to the largest power of two.
- `window` tapers both ends with half a Blackman window.
- `fft` stores the centred spectrum and frequency axis.
- `filter` applies the right-hand mask, finds the carrier and applies a bandpass around it.
- `ifft` goes back to the analytic signal, its unwrapped phase and its amplitude.
- `trim` drops the filter's settling ripple from both ends.
- `fit` cuts the phase into chunks and fits a least-squares slope (the frequency) to each.

The model follows that structure:

- `pynum.dfy` (`PyNum`): the Python 2 / NumPy numerics used throughout, over exact reals:
  `math.ceil`, `int()`, `round()`, integer powers, sums and slice normalisation.
- `binarate.dfy` (`Binaration`): the power-of-two length and the range each mode keeps.
- `window.dfy` (`Windowing`): the half-width `ww`, the actual rise time and the window envelope.
- `spectrum.dfy` (`Spectrum`): `fftfreq`, `fftshift` / `ifftshift` as rolls, and the centred axis.
- `filter.dfy` (`Filtering`): right-hand mask, arg-max carrier, bandpass, moment estimate, settling time.
- `trim.dfy` (`Trimming`): `int(td/dt)` and the slice `x[id:-id]`.
- `fit.dfy` (`Fitting`): chunking, per-chunk reset, the closed-form sums and the slope formula.
- `signal.dfy` (`FreqDemod`): the `Signal` class. Every dictionary entry is a field, and the
  set `keys` records which entries exist. Each stage is a method whose `modifies` clause names
  exactly the fields that stage writes.

Two class invariants are kept by every method:

- `Valid`: the time axis is `dt*(t0 + i)` for a ghost start index `t0`, and the frequency axis,
  once stored, is the centred `fftfreq` axis of the spectrum's length.
- `Recorded`: the keys are consistent with the fields.

Error paths are modelled as `Outcome` values. Python exceptions become `Fail(ValueError)`,
`Fail(IndexError)` or `Fail(ZeroDivisionError)`. `Fail(NotANumber)` marks an input for which
NumPy would silently produce NaN. Where the source stores some entries before it fails, the
method's contract says which entries changed, except Filter with bw == 0 (see "## Left out").

## Model

| member | source | states |
|---|---|---|
| PyNum.Abs | freqdemod/freqdemod.py:349-356 | Python `abs` on a float: never negative, and equal to x or to -x |
| PyNum.Pow | freqdemod/freqdemod.py:356 | `numpy.power(x, k)` for a natural exponent: x multiplied by itself k times, non-negative for a non-negative base; PowOfOne, PowOfZero and PowMonotone state its values and order |
| PyNum.PowOfOne | freqdemod/freqdemod.py:356 | 1 to any power is 1 |
| PyNum.PowOfZero | freqdemod/freqdemod.py:356 | 0 to a positive power is 0 |
| PyNum.PowMonotone | freqdemod/freqdemod.py:356 | a power keeps the order of non-negative bases |
| PyNum.Ceil | freqdemod/freqdemod.py:219 | `math.ceil`: the result is the least integer not below x |
| PyNum.Trunc | freqdemod/freqdemod.py:434 | `int()` on a float rounds toward zero: never larger in magnitude, within one, same sign |
| PyNum.Round | freqdemod/freqdemod.py:512 | Python 2 `round`: within one half of x, and ties go away from zero |
| PyNum.Sum | freqdemod/freqdemod.py:551-552 | `numpy.sum` of a one-dimensional array; SumScaled, SumMonotone and SumZeroIffAllZero state its properties |
| PyNum.SumZeroIffAllZero | freqdemod/freqdemod.py:364-366 | non-negative magnitudes sum to zero exactly when all are zero (the case where `b.sum()` makes `f00` NaN) |
| PyNum.Products | freqdemod/freqdemod.py:366 | NumPy `a*b` on equal-length arrays: the entrywise product, as long as its operands |
| PyNum.Scaled | freqdemod/freqdemod.py:228 | NumPy `c*u` for a scalar c (also `w*s` when s has one sample): c times each entry, as long as u |
| PyNum.SumOfScaled | freqdemod/freqdemod.py:366 | the sum of c*u is c times the sum of u |
| PyNum.SumMonotone | freqdemod/freqdemod.py:366 | sums keep a pointwise order |
| PyNum.SliceIndex | freqdemod/freqdemod.py:436-439 | Python's normalisation of a slice bound: in range, identity on `0..n`, `n+i` for negative bounds |
| PyNum.Slice | freqdemod/freqdemod.py:436-439 | Python `x[lo:hi]`: never longer than x; SliceIsContiguous gives its contents |
| PyNum.SliceIsContiguous | freqdemod/freqdemod.py:436-439 | `x[lo:hi]` is a contiguous run of x starting at the normalised lower bound |
| Binaration.Pow2 | freqdemod/freqdemod.py:151 | `math.pow(2, k)` for a natural k: at least 1; Pow2Monotone states its order and Log2Floor the exponent that brackets n |
| Binaration.Pow2Monotone | freqdemod/freqdemod.py:151 | a larger exponent never gives a smaller power of two |
| Binaration.Log2Floor | freqdemod/freqdemod.py:151 | `floor(log2 n)`: the exponent k with 2^k <= n < 2^(k+1) |
| Binaration.Log2FloorUnique | freqdemod/freqdemod.py:151 | that exponent is unique |
| Binaration.TruncatedLength | freqdemod/freqdemod.py:151 | n2 is a power of two with n2 <= n < 2*n2 |
| Binaration.LargestPowerOfTwo | freqdemod/freqdemod.py:151 | no larger power of two fits in n |
| Binaration.KeptRange | freqdemod/freqdemod.py:153-175 | "start" keeps the first n2 samples, "end" the last n2, "middle" n2 centred (floor on the left); any other mode keeps all |
| Binaration.KeptRangeOfPowerOfTwo | freqdemod/freqdemod.py:151-175 | a record whose length is already a power of two is kept whole by every mode |
| Windowing.HalfWidth | freqdemod/freqdemod.py:219 | ww*dt covers tw and falls short of tw + dt |
| Windowing.HalfWidthIsLeast | freqdemod/freqdemod.py:219 | ww is the fewest samples whose duration reaches tw |
| Windowing.ActualRiseTime | freqdemod/freqdemod.py:221 | `tw_actual` lies in [tw, tw + dt) |
| Windowing.Ones | freqdemod/freqdemod.py:224 | `np.ones(m)`: m entries, all 1 |
| Windowing.Envelope | freqdemod/freqdemod.py:223-225 | the window is the rising taper, then ones, then the falling taper, with length n |
| Windowing.WindowKeepsInterior | freqdemod/freqdemod.py:223-228 | between the tapers the windowed signal equals the signal |
| Windowing.ZeroWidthWindowIsIdentity | freqdemod/freqdemod.py:219-228 | with ww = 0 windowing leaves the signal unchanged |
| Spectrum.Roll | freqdemod/freqdemod.py:260 | `numpy.roll`: the last k entries move to the front, the others shift right by k |
| Spectrum.FftShift | freqdemod/freqdemod.py:259-270 | `numpy.fft.fftshift`: a roll by n div 2 (entries given by Roll), same length |
| Spectrum.IfftShift | freqdemod/freqdemod.py:404-407 | `numpy.fft.ifftshift`: a roll by n - n div 2, same length; it undoes FftShift on every length |
| Spectrum.FftFreq | freqdemod/freqdemod.py:268-270 | `numpy.fft.fftfreq(n, d)`: n entries, the values stated by FftFreqValue |
| Spectrum.CentredFreqAxis | freqdemod/freqdemod.py:266-270 | the stored axis `fftshift(fftfreq(n, dt))`: n entries, the values stated by CentredAxisValues |
| Spectrum.Scale | freqdemod/freqdemod.py:350-357 | one entry of `rh*swFT` or `swFTrh*bp`: a real factor times a complex bin; a factor of 1 keeps the bin and a factor of 0 clears it |
| Spectrum.ScaleAll | freqdemod/freqdemod.py:350 | a real mask times a complex spectrum, entry by entry, as long as the spectrum |
| Spectrum.Moduli | freqdemod/freqdemod.py:354 | `abs` of a complex array, entry by entry, as long as the array |
| Spectrum.ShiftTwiceIsIdentity | freqdemod/freqdemod.py:404-407 | on an even length, the fftshift in ifft undoes the fftshift in fft |
| Spectrum.ShiftTwiceMovesOddLength | freqdemod/freqdemod.py:404-407 | on length 3, fftshift applied twice rotates the array instead of restoring it |
| Spectrum.IfftShiftUndoesFftShift | freqdemod/freqdemod.py:404-407 | ifftshift restores FFT order from the centred spectrum on every length |
| Spectrum.ShiftsAgreeOnEvenLength | freqdemod/freqdemod.py:404-407 | on even lengths fftshift and ifftshift coincide, so the correction changes nothing there |
| Spectrum.CentredAxisValues | freqdemod/freqdemod.py:266-270 | entry i of `fftshift(fftfreq(n, dt))` is (i - n div 2)/(n dt) |
| Spectrum.FftFreqValue | freqdemod/freqdemod.py:268-270 | entry j of `fftfreq(n, dt)` is the signed bin number over n dt |
| Spectrum.CentredAxisStep | freqdemod/freqdemod.py:272 | neighbouring bins are 1/(n dt) apart, so `df = f[1] - f[0]` is 1/(n dt) |
| Spectrum.CentredAxisAscending | freqdemod/freqdemod.py:266-270 | the centred axis is ascending |
| Spectrum.CentredAxisZeroAtMiddle | freqdemod/freqdemod.py:266-270 | the zero-frequency bin is at index n div 2 |
| Filtering.RightHand | freqdemod/freqdemod.py:349 | `(abs(x)+x)/abs(x)` is 2 for positive x and 0 for negative x |
| Filtering.ShiftedAxis | freqdemod/freqdemod.py:348 | `f - df/2` entry by entry, as long as f |
| Filtering.RightHandMask | freqdemod/freqdemod.py:349 | rh over a whole shifted axis with no zero entry, as long as the axis |
| Filtering.RightHandMaskOnCentredAxis | freqdemod/freqdemod.py:348-349 | on the stored axis, `f - df/2` is never zero, and rh is 2 exactly at positive f and 0 exactly at non-positive f |
| Filtering.ShiftedCentredEntry | freqdemod/freqdemod.py:348 | each shifted bin is non-zero and has the sign of the unshifted bin when that is positive |
| Filtering.HalfBinBelow | freqdemod/freqdemod.py:348 | k/(n dt) minus half a bin is never zero and is positive exactly when k is |
| Filtering.ArgMax | freqdemod/freqdemod.py:354 | `np.argmax`: a maximal entry, and the first one |
| Filtering.PeakOfMaskedSpectrum | freqdemod/freqdemod.py:350-354 | the carrier found is non-positive only if every masked magnitude is at most zero, that is zero for a non-negative modulus |
| Filtering.Bandpass | freqdemod/freqdemod.py:355-356 | every bandpass value lies in (0, 1] |
| Filtering.BandpassMask | freqdemod/freqdemod.py:355-356 | bp over the whole axis, as long as the axis |
| Filtering.BandpassAtCarrier | freqdemod/freqdemod.py:355-356 | the bandpass passes f0 unattenuated (order >= 1) |
| Filtering.BandpassHalfAtBandEdge | freqdemod/freqdemod.py:355-356 | one bandwidth either side of f0 the bandpass is exactly 1/2, whatever the order |
| Filtering.BandpassSymmetric | freqdemod/freqdemod.py:355-356 | the bandpass depends only on abs(f - f0) |
| Filtering.BandpassMonotone | freqdemod/freqdemod.py:355-356 | the bandpass does not increase with abs(f - f0) |
| Filtering.WeightedMean | freqdemod/freqdemod.py:363-366 | `f00` is undefined (NaN) exactly when the magnitudes sum to zero |
| Filtering.WeightedSumBounds | freqdemod/freqdemod.py:363-366 | lo*sum(b) <= sum(a*b) <= hi*sum(b) for a in [lo, hi] and b >= 0 |
| Filtering.ProductsBetween | freqdemod/freqdemod.py:366 | entry by entry, lo*b <= a*b <= hi*b |
| Filtering.WeightedMeanBounds | freqdemod/freqdemod.py:363-366 | with non-negative weights that are not all zero, f00 is defined and lies in [lo, hi] |
| Filtering.MomentWithinAxis | freqdemod/freqdemod.py:363-366 | on an ascending axis, f00 lies between the first and last bins |
| Filtering.MomentWithinCentredAxis | freqdemod/freqdemod.py:363-366 | on the stored centred axis, f00 lies between the lowest and highest frequency |
| Filtering.SettlingTime | freqdemod/freqdemod.py:370 | td*bw = 1.25 |
| Filtering.FilterSpectrum | freqdemod/freqdemod.py:343-370 | all masks and the filtered spectrum are as long as the axis, and f0 is one of the axis frequencies |
| Filtering.CarrierIsPositive | freqdemod/freqdemod.py:348-354 | on the stored axis, f0 <= 0 only if every magnitude of the right-hand masked spectrum is at most zero (zero for a non-negative modulus) |
| Filtering.BandpassCentredOnCarrier | freqdemod/freqdemod.py:354-357 | the stored bandpass is 1 at f0 and 1/2 one bandwidth away |
| Filtering.MomentWithinBand | freqdemod/freqdemod.py:363-366 | with non-negative moduli, the stored f00 lies within the frequency axis |
| Filtering.FilterOnStoredAxis | freqdemod/freqdemod.py:348-366 | on the axis fft stores, with a magnitude that is zero at zero and never negative, the half-bin-shifted axis has no zero and the filter's results satisfy CarrierAndMomentOnAxis |
| Filtering.FilterOnAxis | freqdemod/freqdemod.py:348-366 | the same for an axis and bin width known to equal the ones fft stores |
| Trimming.TrimCount | freqdemod/freqdemod.py:434 | `int(td/dt)`: for td >= 0, id whole samples fit within td and id + 1 do not; for td < 0, id <= 0 and td lies in ((id-1)*dt, id*dt] |
| Trimming.Trimmed | freqdemod/freqdemod.py:436-439 | `x[id:-id]` drops id entries from each end; it is empty when id = 0 or when 2*id >= len. For a negative id it is the run from len+id up to -id when -id <= len < -2*id, all of x when len < -id, and empty when -2*id <= len |
| Trimming.TrimmedLengthsAgree | freqdemod/freqdemod.py:436-439 | arrays of equal length stay equal in length after trimming |
| Fitting.ChunkLength | freqdemod/freqdemod.py:512 | npc is within half a sample of target/dt |
| Fitting.ChunkCount | freqdemod/freqdemod.py:514-515 | count whole chunks fit in the phase array, and fewer than npc samples are left over |
| Fitting.Chunk | freqdemod/freqdemod.py:535-541 | row c of the reshaped array: samples c*npc up to (c+1)*npc, npc entries |
| Fitting.Reset | freqdemod/freqdemod.py:535-542 | every reset chunk starts at zero |
| Fitting.FitTimes | freqdemod/freqdemod.py:562 | one start time per chunk |
| Fitting.ChunkFits | freqdemod/freqdemod.py:535-541 | chunk c of count lies inside the first count*npc samples |
| Fitting.SlopeDenominatorClosedForm | freqdemod/freqdemod.py:547-554 | sums equal to SX and SXX give n*SXX - SX^2 = dt^2 n^2 (n^2 - 1)/12 |
| Fitting.SlopeDenominatorPositive | freqdemod/freqdemod.py:547-554 | for n >= 2 and dt != 0 that denominator is positive, so the slope at :554 is always defined |
| Fitting.ChunkSlopes | freqdemod/freqdemod.py:551-561 | one slope per chunk |
| Fitting.UniformRun | freqdemod/freqdemod.py:175-178 | a contiguous run of a uniform time axis is uniform from its first index |
| Fitting.UniformSlice | freqdemod/freqdemod.py:439 | a Python slice of a uniform time axis is uniform |
| Fitting.SumOfRamp | freqdemod/freqdemod.py:547 | the sum of c*k for k < n is c n (n-1)/2 |
| Fitting.SumOfSquareRamp | freqdemod/freqdemod.py:548-549 | the sum of c*k^2 for k < n is c n (n-1)(2n-1)/6 |
| Fitting.ResetUniformChunk | freqdemod/freqdemod.py:541-542 | on a uniform axis each reset chunk reads 0, dt, 2dt, ... |
| Fitting.AnalyticMoments | freqdemod/freqdemod.py:547-552 | on a uniform axis, the closed-form SX and SXX equal the sums over the reset chunk |
| Fitting.SquaredRamp | freqdemod/freqdemod.py:548-549 | the squares of a ramp sum to SXX |
| Fitting.SX | freqdemod/freqdemod.py:547 | the closed form dt*n(n-1)/2; AnalyticMoments proves it is the sum of the reset times |
| Fitting.SXX | freqdemod/freqdemod.py:548-549 | the closed form dt^2 n(n-1)(2n-1)/6; AnalyticMoments proves it is the sum of their squares |
| Fitting.Slope | freqdemod/freqdemod.py:554 | the slope formula (n*Sxy - Sx*Sy)/(n*Sxx - Sx^2), defined where its denominator is non-zero |
| Fitting.ChunkSlope | freqdemod/freqdemod.py:547-554 | one chunk's slope from the closed-form SX, SXX and the summed SY, SXY; ChunkSlopeIsLeastSquares ties it to the reference |
| Fitting.LeastSquaresSlope | freqdemod/freqdemod.py:554 | reference definition: the textbook least-squares slope with every sum taken over the data, None when all x coincide |
| Fitting.ChunkSlopeIsLeastSquares | freqdemod/freqdemod.py:547-554 | every fitted slope equals the textbook least-squares slope of the chunk's reset time and phase (the reference definition) |
| Fitting.LinearPhaseRecovered | freqdemod/freqdemod.py:535-561 | a phase exactly a + b*t is fitted with slope b in every chunk |
| Fitting.LinearChunk | freqdemod/freqdemod.py:547-554 | a linear phase gives slope b in a single chunk |
| Fitting.ChunkSumProportional | freqdemod/freqdemod.py:551 | for a linear phase, SY = b*SX over a reset chunk |
| Fitting.ChunkMomentProportional | freqdemod/freqdemod.py:552 | for a linear phase, SXY = b*SXX over a reset chunk |
| Fitting.ChunkSlopeOfProportional | freqdemod/freqdemod.py:554 | sums in that proportion give slope b |
| Fitting.ResetPhaseIsScaledTime | freqdemod/freqdemod.py:535-542 | for a linear phase, the reset phase is b times the reset time |
| Fitting.ProductsProportional | freqdemod/freqdemod.py:552 | if y = b*x entry by entry, then sum(x*y) = b*sum(x*x) |
| FreqDemod.TrimmedUniform | freqdemod/freqdemod.py:439 | trimming keeps the time axis uniform |
| FreqDemod.Signal.constructor | freqdemod/freqdemod.py:101-110 | stores s, name, unit, dt and the time axis dt*i, and the magnitude that stands for `abs` (zero at zero, never negative); no further entries exist |
| FreqDemod.Signal.Binarate | freqdemod/freqdemod.py:147-178 | saves the originals, then cuts s and t to the kept range. Errors: ValueError on an empty signal; IndexError, after s is cut, when t is shorter than the range. Equal-length s and t stay equal |
| FreqDemod.Signal.Window | freqdemod/freqdemod.py:219-229 | stores the envelope, s times the envelope and tw_actual. Errors: ValueError when 2*ww > n. A negative ww broadcasts a single sample, or fails after w is stored |
| FreqDemod.Signal.StoreWindowed | freqdemod/freqdemod.py:227-229 | stores w, sw and tw_actual and adds their keys, keeping both invariants |
| FreqDemod.Signal.FFT | freqdemod/freqdemod.py:259-272 | stores the centred spectrum and the axis `fftshift(fftfreq(n, dt))`, and df = 1/(n dt). Errors: ValueError on an empty sw; IndexError, after the stores, when n = 1 |
| FreqDemod.Signal.Filter | freqdemod/freqdemod.py:343-370 | stores exactly the results of `FilterSpectrum` (order 50 unless given), and always succeeds on an axis fft stored with bw != 0; there a non-positive carrier means nothing survived the right-hand mask, and f00 lies within the axis |
| FreqDemod.Signal.StoreFiltered | freqdemod/freqdemod.py:343-370 | stores the filter results and adds their keys, keeping both invariants |
| FreqDemod.Signal.IFFT | freqdemod/freqdemod.py:404-410 | un-centres the filtered spectrum and stores z, theta and the amplitude a given by the record's magnitude, all three as long as the filtered spectrum (ifft and unwrap keep lengths); on even lengths this is the fftshift the source applies |
| FreqDemod.Signal.Trim | freqdemod/freqdemod.py:434-439 | applies `x[id:-id]` with id = int(td/dt) to z, theta, a and t; t stays uniform, and equal lengths stay equal |
| FreqDemod.Signal.Fit | freqdemod/freqdemod.py:512-562 | stores one start time and one slope per chunk, each slope being the least-squares slope of its chunk. Errors: npc = 0, npc < 0 or t too short to reshape fail with the source's exceptions; npc = 1 gives NaN when there is at least one chunk, and empty fit arrays when there is no phase sample |

## Left out

- The textual report each stage appends, the timing in `fft` and `fit`, plotting and `__repr__`: presentation only.
- Floating point: all arithmetic is over exact reals, so rounding error and overflow are not modelled.
- The values of the discrete Fourier transform and of its inverse, the Blackman taper, the
  unwrapped phase and the complex modulus `abs` are parameters. The modulus is given once to the
  constructor, which requires it to be zero at zero and never negative; the others are
  parameters of the methods that use them. The model proves
  the bookkeeping around them, not the transforms themselves.
- FreqDemod.Signal.constructor: requires dt > 0. The source accepts any dt, but the later
  stages divide by it.
- FreqDemod.Signal.Filter: with bw == 0 it returns `Fail(ZeroDivisionError)` and leaves the
  record unchanged. The source first stores bw, order, rh, f0, bp, swFTfilt and f00 (NumPy
  fills inf or NaN for the division by zero), and only then fails at 1.25/bw.
- FreqDemod.Signal.Filter: a half-bin-shifted axis with a zero entry returns `Fail(NotANumber)`
  and leaves the record unchanged. The source raises nothing there: rh gets a NaN, argmax picks
  that NaN bin so f0 is its frequency, and bp, swFTfilt, a NaN f00 and td are all stored, so
  the stage finishes with NaN-tainted results. This can only happen with a frequency axis or
  df that fft did not store: the ensures of Filter that promises `Pass` on an axis fft stored
  with bw != 0 shows it never happens there.
- FreqDemod.Signal.IFFT: un-centres the filtered spectrum with `ifftshift`, the corrected code of
  the finding below, where the source applies `fftshift`. The two agree on even lengths (an
  ensures of IFFT states this). On odd lengths, which are reachable when binarate is skipped,
  the model stores `inverse(IfftShift(swFTfilt))` and the source `ifft(fftshift(swFTfilt))`.
- FreqDemod.Signal.Filter: `order` is a `nat`. Negative or non-integer orders are not modelled.
- FreqDemod.Signal.Fit: with one-sample chunks and at least one chunk it returns
  `Fail(NotANumber)` and stores nothing. The source stores slopes that are all NaN (0/0). With
  one-sample chunks and no phase sample there is no chunk and no division, and the model stores
  empty fit arrays as the source does.
- Running a stage before the stage that stores its inputs (a `KeyError` in the source) is
  excluded by each method's `requires` on `keys`.
- Multi-dimensional or non-real input arrays are not modelled; the signal is a sequence of reals.

## Findings

| source | as written | input that shows it | evidently intended | confidence | as-written member | corrected member |
|---|---|---|---|---|---|---|
| freqdemod/freqdemod.py:404-407 | `ifft` returns the centred spectrum to FFT order with `fftshift`, which rolls by n div 2 again | any odd length; for n = 3, fftshift twice takes [0, 1, 2] to [1, 2, 0], so the inverse transform sees rotated bins | `ifftshift` (a roll by n - n div 2), which undoes `fftshift` on every length; on even lengths the two agree | medium, not executed | Spectrum.ShiftTwiceMovesOddLength | Spectrum.IfftShiftUndoesFftShift |
