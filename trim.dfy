/** Signal.trim: how many samples the filter's settling time covers, and the slice
    [id:-id] that drops them from both ends of an array. */
module Trimming {
  import opened PyNum

  /** id = int(td/dt): for a non-negative settling time, the whole samples that fit in it. */
  function TrimCount(td: real, dt: real): (id: int)
    requires dt > 0.0
    ensures td >= 0.0 ==> id >= 0 && id as real * dt <= td < (id + 1) as real * dt
    ensures td < 0.0 ==> id <= 0 && (id - 1) as real * dt < td <= id as real * dt
  {
    var x := td / dt;
    var k := Trunc(x);
    SignOfQuotient(td, dt);
    if td >= 0.0 then
      assert k == x.Floor;
      WithinSteps(td, dt, k as real, (k + 1) as real);
      k
    else
      assert k == Ceil(x);
      WithinSteps(td, dt, (k - 1) as real, k as real);
      k
  }

  /** If td/dt lies between lo and hi, then td lies between lo and hi whole steps. */
  lemma WithinSteps(td: real, dt: real, lo: real, hi: real)
    requires dt > 0.0
    ensures lo <= td / dt ==> lo * dt <= td
    ensures td / dt < hi ==> td < hi * dt
    ensures lo < td / dt ==> lo * dt < td
    ensures td / dt <= hi ==> td <= hi * dt
  {
    var x := td / dt;
    assert x * dt == td;
    if lo <= x { TimesPositive(lo, x, dt); }
    if lo < x { TimesPositiveStrict(lo, x, dt); }
    if x < hi { TimesPositiveStrict(x, hi, dt); }
    if x <= hi { TimesPositive(x, hi, dt); }
  }

  /** Multiplying by a positive step keeps an order. */
  lemma TimesPositive(a: real, b: real, dt: real)
    requires a <= b && dt > 0.0
    ensures a * dt <= b * dt
  {
    assert b * dt - a * dt == (b - a) * dt;
  }

  /** Multiplying by a positive step keeps a strict order. */
  lemma TimesPositiveStrict(a: real, b: real, dt: real)
    requires a < b && dt > 0.0
    ensures a * dt < b * dt
  {
    assert b * dt - a * dt == (b - a) * dt;
  }

  /** x[id:-id] with Python's slice rules. */
  function Trimmed<T>(x: seq<T>, id: int): (r: seq<T>)
    ensures 1 <= id && 2 * id < |x| ==>
              |r| == |x| - 2 * id && forall k :: 0 <= k < |r| ==> r[k] == x[id + k]
    ensures 1 <= id && 2 * id >= |x| ==> r == []
    ensures id == 0 ==> r == []
    // a negative id (a negative settling time) slices from |x| + id up to -id
    ensures id <= -1 && -id <= |x| < -2 * id ==>
              |r| == -2 * id - |x| && forall k :: 0 <= k < |r| ==> r[k] == x[|x| + id + k]
    ensures id <= -1 && |x| < -id ==> r == x
    ensures id <= -1 && -2 * id <= |x| ==> r == []
  {
    Slice(x, id, -id)
  }

  /** The length of a trimmed array depends only on the original length, so arrays that
      were equally long stay equally long. */
  lemma TrimmedLengthsAgree<T, U>(x: seq<T>, y: seq<U>, id: int)
    requires |x| == |y|
    ensures |Trimmed(x, id)| == |Trimmed(y, id)|
  {
  }
}
