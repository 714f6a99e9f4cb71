/** Index arithmetic of Signal.binarate: the largest power of two not above the
    signal length, and which contiguous run of samples each truncation mode keeps. */
module Binaration {

  function Pow2(k: nat): (r: nat)
    ensures r >= 1
  {
    if k == 0 then 1 else 2 * Pow2(k - 1)
  }

  lemma {:induction false} Pow2Monotone(i: nat, j: nat)
    requires i <= j
    ensures Pow2(i) <= Pow2(j)
  {
    if i < j { Pow2Monotone(i, j - 1); }
  }

  /** floor(log2(n)), the exponent the source obtains through math.log. */
  function Log2Floor(n: nat): (k: nat)
    requires n >= 1
    ensures Pow2(k) <= n < 2 * Pow2(k)
  {
    if n == 1 then 0 else 1 + Log2Floor(n / 2)
  }

  /** Log2Floor is the only exponent whose power brackets n. */
  lemma {:induction false} Log2FloorUnique(n: nat, k: nat)
    requires Pow2(k) <= n < 2 * Pow2(k)
    ensures Log2Floor(n) == k
  {
    if k > 0 {
      Log2FloorUnique(n / 2, k - 1);
    }
  }

  /** n2: the target length of the truncated signal. */
  function TruncatedLength(n: nat): (n2: nat)
    requires n >= 1
    ensures 1 <= n2 <= n < 2 * n2
  {
    Pow2(Log2Floor(n))
  }

  /** n2 is the LARGEST power of two that fits into n. */
  lemma LargestPowerOfTwo(n: nat, k: nat)
    requires n >= 1 && Pow2(k) <= n
    ensures Pow2(k) <= TruncatedLength(n)
  {
    var m := Log2Floor(n);
    if k > m {
      Pow2Monotone(m + 1, k);
      assert Pow2(m + 1) == 2 * Pow2(m);
      assert false;
    }
    Pow2Monotone(k, m);
  }

  /** Half-open index range [start, stop) of the samples that are kept. */
  datatype Range = Range(start: nat, stop: nat)

  /** The range selected by binarate's truncation mode; any unrecognised mode keeps everything. */
  function KeptRange(n: nat, mode: string): (r: Range)
    requires n >= 1
    ensures r.start <= r.stop <= n
    ensures mode in {"start", "middle", "end"} ==> r.stop - r.start == TruncatedLength(n)
    ensures mode == "start" ==> r.start == 0
    ensures mode == "end" ==> r.stop == n
    ensures mode == "middle" ==> 0 <= (n - r.stop) - r.start <= 1
    ensures mode !in {"start", "middle", "end"} ==> r == Range(0, n)
  {
    var n2 := TruncatedLength(n);
    if mode == "middle" then Range((n - n2) / 2, (n - n2) / 2 + n2)
    else if mode == "start" then Range(0, n2)
    else if mode == "end" then Range(n - n2, n)
    else Range(0, n)
  }

  /** A length that is already a power of two is left alone by every mode. */
  lemma KeptRangeOfPowerOfTwo(k: nat, mode: string)
    ensures KeptRange(Pow2(k), mode) == Range(0, Pow2(k))
  {
    Log2FloorUnique(Pow2(k), k);
  }
}
