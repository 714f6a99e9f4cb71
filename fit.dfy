/** Signal.fit: chunking arithmetic, per-chunk reset of time and phase, the analytic
    sums SX and SXX for uniformly spaced time, and the closed-form least-squares slope. */
module Fitting {
  import opened PyNum

  /** n_per_chunk = int(round(target/dt)): the whole number of samples nearest the target. */
  function ChunkLength(target: real, dt: real): (npc: int)
    requires dt > 0.0
    ensures Abs(target / dt - npc as real) <= 0.5
  {
    Round(target / dt)
  }

  /** n_tot_chunk: how many whole chunks fit (Python 2 integer division). */
  function ChunkCount(len: nat, npc: nat): (count: nat)
    requires npc >= 1
    ensures count * npc <= len
    ensures len - count * npc < npc
  {
    len / npc
  }

  /** Samples c*npc .. (c+1)*npc - 1: row c of the reshaped array. */
  function Chunk(x: seq<real>, c: nat, npc: nat): (r: seq<real>)
    requires (c + 1) * npc <= |x|
    ensures |r| == npc
  {
    x[c * npc..(c + 1) * npc]
  }

  /** A row with its first entry subtracted from every entry. */
  function Reset(x: seq<real>): (r: seq<real>)
    requires |x| > 0
    ensures |r| == |x| && r[0] == 0.0
  {
    seq(|x|, k requires 0 <= k < |x| => x[k] - x[0])
  }

  /** fit_time: the time of the first sample of every chunk. */
  function FitTimes(t: seq<real>, npc: nat, count: nat): (r: seq<real>)
    requires npc >= 1 && count * npc <= |t|
    ensures |r| == count
  {
    seq(count, i requires 0 <= i < count => ChunkFits(i, count, npc); Chunk(t, i, npc)[0])
  }

  /** Chunk c of count lies inside the first count*npc samples. */
  lemma ChunkFits(c: nat, count: nat, npc: nat)
    requires c < count
    ensures (c + 1) * npc <= count * npc
  {
    assert count * npc - (c + 1) * npc == (count - (c + 1)) * npc;
  }

  /** SX as the source computes it in closed form. */
  function SX(dt: real, n: nat): real
  {
    dt * 0.5 * (n - 1) as real * n as real
  }

  /** SXX as the source computes it in closed form. */
  function SXX(dt: real, n: nat): real
  {
    dt * dt * (1.0 / 6.0) * n as real * (n - 1) as real * (2 * n - 1) as real
  }

  /** m = (n*Sxy - Sx*Sy)/(n*Sxx - Sx^2). */
  function Slope(n: nat, sx: real, sxx: real, sy: real, sxy: real): real
    requires n as real * sxx - sx * sx != 0.0
  {
    (n as real * sxy - sx * sy) / (n as real * sxx - sx * sx)
  }

  /** Sums equal to the closed forms make the slope's denominator dt^2 n^2 (n^2 - 1)/12. */
  lemma SlopeDenominatorClosedForm(dt: real, n: nat, sx: real, sxx: real)
    requires sx == SX(dt, n) && sxx == SXX(dt, n)
    ensures n as real * sxx - sx * sx == dt * dt * (n * n) as real * (n * n - 1) as real / 12.0
  {
    var N, d2 := n as real, dt * dt;
    assert sx * sx == d2 * (N * N * (N - 1.0) * (N - 1.0)) / 4.0;
    assert N * sxx == d2 * (N * N * (N - 1.0) * (2.0 * N - 1.0)) / 6.0;
    assert (n * n) as real == N * N;
    assert (n * n - 1) as real == N * N - 1.0;
  }

  /** With two or more points per chunk that denominator is positive, so the slope formula
      never divides by zero. */
  lemma SlopeDenominatorPositive(dt: real, n: nat, sx: real, sxx: real)
    requires dt != 0.0 && n >= 2 && sx == SX(dt, n) && sxx == SXX(dt, n)
    ensures n as real * sxx - sx * sx > 0.0
  {
    SlopeDenominatorClosedForm(dt, n, sx, sxx);
    SquarePositive(dt);
    assert (n * n) as real * (n * n - 1) as real > 0.0;
  }

  lemma SquarePositive(x: real)
    requires x != 0.0
    ensures x * x > 0.0
  {
    if x < 0.0 { assert x * x == (-x) * (-x); }
  }

  /** The least-squares slope of one chunk, with SX and SXX taken in closed form and SY, SXY
      summed from the chunk's reset time and phase. */
  function ChunkSlope(t: seq<real>, theta: seq<real>, c: nat, npc: nat, dt: real): real
    requires npc >= 2 && dt != 0.0
    requires (c + 1) * npc <= |t| && (c + 1) * npc <= |theta|
  {
    var x, y := Reset(Chunk(t, c, npc)), Reset(Chunk(theta, c, npc));
    SlopeDenominatorPositive(dt, npc, SX(dt, npc), SXX(dt, npc));
    Slope(npc, SX(dt, npc), SXX(dt, npc), Sum(y), Sum(Products(x, y)))
  }

  /** fit_freq: one slope per chunk. */
  function ChunkSlopes(t: seq<real>, theta: seq<real>, npc: nat, count: nat, dt: real): (r: seq<real>)
    requires npc >= 2 && dt != 0.0
    requires count * npc <= |t| && count * npc <= |theta|
    ensures |r| == count
  {
    seq(count, c requires 0 <= c < count => ChunkFits(c, count, npc); ChunkSlope(t, theta, c, npc, dt))
  }

  /** Reference definition: the textbook least-squares slope with every sum taken over the
      data; None when all x coincide and the slope is undefined. */
  function LeastSquaresSlope(x: seq<real>, y: seq<real>): (m: Option<real>)
    requires |x| == |y|
  {
    var sx, sxx := Sum(x), Sum(Products(x, x));
    if |x| as real * sxx - sx * sx == 0.0 then None
    else Some(Slope(|x|, sx, sxx, Sum(y), Sum(Products(x, y))))
  }

  /** t[i] = dt*(t0 + i): a time axis sampled every dt, possibly starting mid-record. */
  ghost predicate UniformlySpaced(t: seq<real>, dt: real, t0: int)
  {
    forall i :: 0 <= i < |t| ==> t[i] == dt * (t0 + i) as real
  }

  /** A contiguous run of a uniformly spaced axis is uniformly spaced, starting lo steps later. */
  lemma UniformRun(t: seq<real>, dt: real, t0: int, lo: nat, hi: nat)
    requires UniformlySpaced(t, dt, t0) && lo <= hi <= |t|
    ensures UniformlySpaced(t[lo..hi], dt, t0 + lo)
  {
    assert forall i :: 0 <= i < hi - lo ==> t[lo..hi][i] == t[lo + i];
  }

  /** Python's x[lo:hi] of a uniformly spaced axis is uniformly spaced from the normalised
      lower bound on. */
  lemma UniformSlice(t: seq<real>, dt: real, t0: int, lo: int, hi: int)
    requires UniformlySpaced(t, dt, t0)
    ensures UniformlySpaced(Slice(t, lo, hi), dt, t0 + SliceIndex(lo, |t|))
  {
    SliceIsContiguous(t, lo, hi);
    UniformRun(t, dt, t0, SliceIndex(lo, |t|), SliceIndex(lo, |t|) + |Slice(t, lo, hi)|);
  }

  /** Sum of c*k for k = 0 .. n-1 is c*n(n-1)/2. */
  lemma {:induction false} SumOfRamp(s: seq<real>, c: real)
    requires forall k :: 0 <= k < |s| ==> s[k] == c * k as real
    ensures Sum(s) == c * 0.5 * (|s| - 1) as real * |s| as real
  {
    if |s| > 0 {
      var m := |s| - 1;
      var M := m as real;
      SumOfRamp(s[..m], c);
      assert Sum(s) == c * 0.5 * (M - 1.0) * M + c * M;
      assert c * 0.5 * (M - 1.0) * M + c * M == c * 0.5 * M * (M + 1.0);
    }
  }

  /** Sum of c*k^2 for k = 0 .. n-1 is c*n(n-1)(2n-1)/6. */
  lemma {:induction false} SumOfSquareRamp(s: seq<real>, c: real)
    requires forall k :: 0 <= k < |s| ==> s[k] == c * (k as real * k as real)
    ensures Sum(s) == c * (1.0 / 6.0) * |s| as real * (|s| - 1) as real * (2 * |s| - 1) as real
  {
    if |s| > 0 {
      var m := |s| - 1;
      var M := m as real;
      SumOfSquareRamp(s[..m], c);
      assert Sum(s) == c * (1.0 / 6.0) * M * (M - 1.0) * (2.0 * M - 1.0) + c * (M * M);
      assert M * (M - 1.0) * (2.0 * M - 1.0) + 6.0 * (M * M) == (M + 1.0) * M * (2.0 * M + 1.0);
    }
  }

  /** On a uniform time axis every reset chunk reads 0, dt, 2dt, ... */
  lemma ResetUniformChunk(t: seq<real>, dt: real, t0: int, c: nat, npc: nat, k: nat)
    requires UniformlySpaced(t, dt, t0) && npc >= 1 && (c + 1) * npc <= |t| && k < npc
    ensures Reset(Chunk(t, c, npc))[k] == dt * k as real
  {
    var j := c * npc;
    assert Chunk(t, c, npc)[k] == t[j + k] && Chunk(t, c, npc)[0] == t[j];
    assert dt * (t0 + j + k) as real - dt * (t0 + j) as real == dt * k as real;
  }

  /** On a uniform time axis the closed-form SX and SXX are the sums of the reset times and of
      their squares, which is what lets the source skip summing them. */
  lemma AnalyticMoments(t: seq<real>, dt: real, t0: int, c: nat, npc: nat)
    requires UniformlySpaced(t, dt, t0) && npc >= 1 && (c + 1) * npc <= |t|
    ensures Sum(Reset(Chunk(t, c, npc))) == SX(dt, npc)
    ensures Sum(Products(Reset(Chunk(t, c, npc)), Reset(Chunk(t, c, npc)))) == SXX(dt, npc)
  {
    var x := Reset(Chunk(t, c, npc));
    forall k | 0 <= k < npc ensures x[k] == dt * k as real {
      ResetUniformChunk(t, dt, t0, c, npc, k);
    }
    SumOfRamp(x, dt);
    SquaredRamp(x, dt);
  }

  lemma SquaredRamp(x: seq<real>, dt: real)
    requires forall k :: 0 <= k < |x| ==> x[k] == dt * k as real
    ensures Sum(Products(x, x)) == SXX(dt, |x|)
  {
    var xx := Products(x, x);
    forall k | 0 <= k < |x| ensures xx[k] == (dt * dt) * (k as real * k as real) {
      assert xx[k] == (dt * k as real) * (dt * k as real);
    }
    SumOfSquareRamp(xx, dt * dt);
  }

  /** On a uniform time axis each fitted slope is exactly the least-squares slope of the
      chunk's reset time and phase. */
  lemma ChunkSlopeIsLeastSquares(t: seq<real>, theta: seq<real>, dt: real, t0: int, c: nat, npc: nat)
    requires UniformlySpaced(t, dt, t0) && dt != 0.0 && npc >= 2
    requires (c + 1) * npc <= |t| && (c + 1) * npc <= |theta|
    ensures LeastSquaresSlope(Reset(Chunk(t, c, npc)), Reset(Chunk(theta, c, npc)))
         == Some(ChunkSlope(t, theta, c, npc, dt))
  {
    AnalyticMoments(t, dt, t0, c, npc);
    SlopeDenominatorPositive(dt, npc, SX(dt, npc), SXX(dt, npc));
  }

  /** A phase that is exactly linear in time, theta = a + b*t, is fitted with slope b in every
      chunk: the estimator recovers a constant frequency exactly. */
  lemma LinearPhaseRecovered(t: seq<real>, theta: seq<real>, dt: real, t0: int,
                             npc: nat, count: nat, a: real, b: real)
    requires UniformlySpaced(t, dt, t0) && dt != 0.0 && npc >= 2
    requires count * npc <= |t| && count * npc <= |theta|
    requires forall j :: 0 <= j < count * npc ==> theta[j] == a + b * t[j]
    ensures forall c :: 0 <= c < count ==> ChunkSlopes(t, theta, npc, count, dt)[c] == b
  {
    forall c | 0 <= c < count ensures ChunkSlopes(t, theta, npc, count, dt)[c] == b {
      LinearChunk(t, theta, dt, t0, npc, c, a, b);
    }
  }

  lemma LinearChunk(t: seq<real>, theta: seq<real>, dt: real, t0: int,
                    npc: nat, c: nat, a: real, b: real)
    requires UniformlySpaced(t, dt, t0) && dt != 0.0 && npc >= 2
    requires (c + 1) * npc <= |t| && (c + 1) * npc <= |theta|
    requires forall j :: 0 <= j < (c + 1) * npc ==> theta[j] == a + b * t[j]
    ensures ChunkSlope(t, theta, c, npc, dt) == b
  {
    ChunkSumProportional(t, theta, c, npc, a, b);
    ChunkMomentProportional(t, theta, c, npc, a, b);
    AnalyticMoments(t, dt, t0, c, npc);
    ChunkSlopeOfProportional(t, theta, c, npc, dt, b);
  }

  /** For theta = a + b*t, SY = b*SX over the reset chunk. */
  lemma ChunkSumProportional(t: seq<real>, theta: seq<real>, c: nat, npc: nat, a: real, b: real)
    requires npc >= 1 && (c + 1) * npc <= |t| && (c + 1) * npc <= |theta|
    requires forall j :: 0 <= j < (c + 1) * npc ==> theta[j] == a + b * t[j]
    ensures Sum(Reset(Chunk(theta, c, npc))) == b * Sum(Reset(Chunk(t, c, npc)))
  {
    ResetPhaseIsScaledTime(t, theta, c, npc, a, b);
    SumScaled(Reset(Chunk(theta, c, npc)), Reset(Chunk(t, c, npc)), b);
  }

  /** For theta = a + b*t, SXY = b*SXX over the reset chunk. */
  lemma ChunkMomentProportional(t: seq<real>, theta: seq<real>, c: nat, npc: nat, a: real, b: real)
    requires npc >= 1 && (c + 1) * npc <= |t| && (c + 1) * npc <= |theta|
    requires forall j :: 0 <= j < (c + 1) * npc ==> theta[j] == a + b * t[j]
    ensures Sum(Products(Reset(Chunk(t, c, npc)), Reset(Chunk(theta, c, npc))))
         == b * Sum(Products(Reset(Chunk(t, c, npc)), Reset(Chunk(t, c, npc))))
  {
    ResetPhaseIsScaledTime(t, theta, c, npc, a, b);
    ProductsProportional(Reset(Chunk(t, c, npc)), Reset(Chunk(theta, c, npc)), b);
  }

  /** A chunk whose reset phase sums are b times those of its reset time, on an axis whose
      time sums are the closed forms, has slope b. */
  lemma ChunkSlopeOfProportional(t: seq<real>, theta: seq<real>, c: nat, npc: nat, dt: real, b: real)
    requires npc >= 2 && dt != 0.0
    requires (c + 1) * npc <= |t| && (c + 1) * npc <= |theta|
    requires Sum(Reset(Chunk(theta, c, npc))) == b * Sum(Reset(Chunk(t, c, npc)))
    requires Sum(Products(Reset(Chunk(t, c, npc)), Reset(Chunk(theta, c, npc))))
          == b * Sum(Products(Reset(Chunk(t, c, npc)), Reset(Chunk(t, c, npc))))
    requires Sum(Reset(Chunk(t, c, npc))) == SX(dt, npc)
    requires Sum(Products(Reset(Chunk(t, c, npc)), Reset(Chunk(t, c, npc)))) == SXX(dt, npc)
    ensures ChunkSlope(t, theta, c, npc, dt) == b
  {
    var x, y := Reset(Chunk(t, c, npc)), Reset(Chunk(theta, c, npc));
    SlopeDenominatorPositive(dt, npc, Sum(x), Sum(Products(x, x)));
    SlopeOfProportional(npc, Sum(x), Sum(Products(x, x)), Sum(y), Sum(Products(x, y)), b);
  }

  /** For theta = a + b*t the reset phase of a chunk is b times its reset time. */
  lemma ResetPhaseIsScaledTime(t: seq<real>, theta: seq<real>, c: nat, npc: nat, a: real, b: real)
    requires npc >= 1 && (c + 1) * npc <= |t| && (c + 1) * npc <= |theta|
    requires forall j :: 0 <= j < (c + 1) * npc ==> theta[j] == a + b * t[j]
    ensures forall k :: 0 <= k < npc ==>
              Reset(Chunk(theta, c, npc))[k] == b * Reset(Chunk(t, c, npc))[k]
  {
    var x, y := Reset(Chunk(t, c, npc)), Reset(Chunk(theta, c, npc));
    var j0 := c * npc;
    forall k | 0 <= k < npc ensures y[k] == b * x[k] {
      assert theta[j0 + k] == a + b * t[j0 + k] && theta[j0] == a + b * t[j0];
      assert y[k] == (a + b * t[j0 + k]) - (a + b * t[j0]);
      assert x[k] == t[j0 + k] - t[j0];
    }
  }

  /** If y = b*x entry by entry then Sxy = b*Sxx. */
  lemma ProductsProportional(x: seq<real>, y: seq<real>, b: real)
    requires |x| == |y|
    requires forall k :: 0 <= k < |x| ==> y[k] == b * x[k]
    ensures Sum(Products(x, y)) == b * Sum(Products(x, x))
  {
    var xy, xx := Products(x, y), Products(x, x);
    forall k | 0 <= k < |x| ensures xy[k] == b * xx[k] {
      ProductRegroup(x[k], y[k], b);
    }
    SumScaled(xy, xx, b);
  }

  lemma ProductRegroup(u: real, v: real, b: real)
    requires v == b * u
    ensures u * v == b * (u * u)
  {
  }

  /** Sy = b*Sx and Sxy = b*Sxx give slope b. */
  lemma SlopeOfProportional(n: nat, sx: real, sxx: real, sy: real, sxy: real, b: real)
    requires n as real * sxx - sx * sx != 0.0
    requires sy == b * sx && sxy == b * sxx
    ensures Slope(n, sx, sxx, sy, sxy) == b
  {
    var den := n as real * sxx - sx * sx;
    assert n as real * sxy - sx * sy == b * den;
    assert b * den / den == b;
  }
}
