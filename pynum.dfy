/** The Python 2 / NumPy numerics the demodulator relies on, stated over exact reals:
    math.ceil, int() truncation, round() half away from zero, integer powers,
    sums and Python's slice normalisation. */
module PyNum {

  datatype Option<T> = None | Some(value: T)

  /** Python's abs on a float: the magnitude of x, never negative. */
  function Abs(x: real): (r: real)
    ensures r >= 0.0 && (r == x || r == -x)
  {
    if x < 0.0 then -x else x
  }

  /** math.ceil: the least integer not below x. */
  function Ceil(x: real): (r: int)
    ensures r as real - 1.0 < x <= r as real
  {
    -((-x).Floor)
  }

  /** int(x) on a float: rounds toward zero. */
  function Trunc(x: real): (r: int)
    ensures Abs(r as real) <= Abs(x) < Abs(r as real) + 1.0
    ensures r as real * x >= 0.0
  {
    if x < 0.0 then Ceil(x) else x.Floor
  }

  /** Python 2 round(): nearest integer, ties away from zero. */
  function Round(x: real): (r: int)
    ensures Abs(x - r as real) <= 0.5
    ensures Abs(x - r as real) == 0.5 ==> Abs(r as real) > Abs(x)
  {
    if x < 0.0 then -((-x + 0.5).Floor) else (x + 0.5).Floor
  }

  /** x ** k for a non-negative integer exponent. */
  function Pow(x: real, k: nat): (r: real)
    ensures x >= 0.0 ==> r >= 0.0
  {
    if k == 0 then 1.0 else x * Pow(x, k - 1)
  }

  lemma {:induction false} PowOfOne(k: nat)
    ensures Pow(1.0, k) == 1.0
  {
    if k > 0 { PowOfOne(k - 1); }
  }

  lemma {:induction false} PowOfZero(k: nat)
    requires k >= 1
    ensures Pow(0.0, k) == 0.0
  {
  }

  /** Raising to a power keeps the order of non-negative bases. */
  lemma {:induction false} PowMonotone(x: real, y: real, k: nat)
    requires 0.0 <= x <= y
    ensures Pow(x, k) <= Pow(y, k)
  {
    if k > 0 {
      var p, q := Pow(x, k - 1), Pow(y, k - 1);
      PowMonotone(x, y, k - 1);
      MulMonotone(x, y, p, q);
    }
  }

  lemma MulMonotone(a: real, b: real, c: real, d: real)
    requires 0.0 <= a <= b && 0.0 <= c <= d
    ensures a * c <= b * d
  {
    assert (b - a) * c >= 0.0;
    assert b * (d - c) >= 0.0;
  }

  /** A quotient by a positive number has the sign of its numerator. */
  lemma SignOfQuotient(a: real, b: real)
    requires b > 0.0
    ensures a / b > 0.0 <==> a > 0.0
    ensures a / b == 0.0 <==> a == 0.0
  {
    assert a / b * b == a;
  }

  /** Dividing by a positive number keeps order. */
  lemma DivideMonotone(a: real, b: real, c: real)
    requires a <= b && c > 0.0
    ensures a / c <= b / c
  {
    assert (b / c - a / c) * c == b - a;
  }

  /** numpy sum of a one-dimensional array. */
  function Sum(s: seq<real>): real
  {
    if |s| == 0 then 0.0 else Sum(s[..|s| - 1]) + s[|s| - 1]
  }

  /** Element-wise product of two equal-length arrays (NumPy `a*b`). */
  function Products(a: seq<real>, b: seq<real>): (r: seq<real>)
    requires |a| == |b|
    ensures |r| == |a|
  {
    seq(|a|, i requires 0 <= i < |a| => a[i] * b[i])
  }

  /** A sum of non-negative terms vanishes exactly when every term does. */
  lemma {:induction false} SumZeroIffAllZero(s: seq<real>)
    requires forall i :: 0 <= i < |s| ==> s[i] >= 0.0
    ensures Sum(s) >= 0.0
    ensures Sum(s) == 0.0 <==> forall i :: 0 <= i < |s| ==> s[i] == 0.0
  {
    if |s| > 0 {
      SumZeroIffAllZero(s[..|s| - 1]);
    }
  }

  /** Sum of c*u[k] is c times the sum of u[k]. */
  lemma {:induction false} SumScaled(s: seq<real>, u: seq<real>, c: real)
    requires |s| == |u|
    requires forall k :: 0 <= k < |s| ==> s[k] == c * u[k]
    ensures Sum(s) == c * Sum(u)
  {
    if |s| > 0 {
      SumScaled(s[..|s| - 1], u[..|u| - 1], c);
    }
  }

  /** NumPy's c*u for a scalar c. */
  function Scaled(c: real, u: seq<real>): (r: seq<real>)
    ensures |r| == |u|
  {
    seq(|u|, i requires 0 <= i < |u| => c * u[i])
  }

  lemma SumOfScaled(c: real, u: seq<real>)
    ensures Sum(Scaled(c, u)) == c * Sum(u)
  {
    SumScaled(Scaled(c, u), u, c);
  }

  /** Sums keep a pointwise order. */
  lemma {:induction false} SumMonotone(s: seq<real>, u: seq<real>)
    requires |s| == |u|
    requires forall k :: 0 <= k < |s| ==> s[k] <= u[k]
    ensures Sum(s) <= Sum(u)
  {
    if |s| > 0 {
      SumMonotone(s[..|s| - 1], u[..|u| - 1]);
    }
  }

  /** Python's normalisation of one slice bound for a length-n sequence. */
  function SliceIndex(i: int, n: nat): (r: nat)
    ensures r <= n
    ensures 0 <= i <= n ==> r == i
    ensures -(n as int) <= i < 0 ==> r == n + i
  {
    if i < 0 then (if i + n < 0 then 0 else i + n)
    else if i > n then n
    else i
  }

  /** Python's s[lo:hi]: both bounds normalised, empty when they cross. */
  function Slice<T>(s: seq<T>, lo: int, hi: int): (r: seq<T>)
    ensures |r| <= |s|
  {
    var a, b := SliceIndex(lo, |s|), SliceIndex(hi, |s|);
    if a < b then s[a..b] else []
  }

  /** A slice is always a contiguous run of the sequence, starting at the normalised lower bound. */
  lemma SliceIsContiguous<T>(s: seq<T>, lo: int, hi: int)
    ensures SliceIndex(lo, |s|) + |Slice(s, lo, hi)| <= |s|
    ensures Slice(s, lo, hi) == s[SliceIndex(lo, |s|)..SliceIndex(lo, |s|) + |Slice(s, lo, hi)|]
  {
  }
}
