/** The edge taper of Signal.window: a rising half-taper of ww points, a flat run of
    ones and a falling half-taper, multiplied into the signal. The taper values
    themselves (a Blackman window of 2*ww points) are supplied from outside. */
module Windowing {
  import opened PyNum

  /** ww = ceil(tw/dt): the fewest whole samples that cover the requested rise time. */
  function HalfWidth(tw: real, dt: real): (ww: int)
    requires dt > 0.0
    ensures tw <= ww as real * dt < tw + dt
  {
    var x := tw / dt;
    var c := Ceil(x);
    assert x * dt == tw;
    assert x <= c as real;
    assert x * dt <= c as real * dt;
    assert (c - 1) as real * dt < x * dt;
    assert (c - 1) as real * dt == c as real * dt - dt;
    assert c as real * dt < tw + dt;
    c
  }

  /** tw_actual = ww*dt: the rise time actually applied, at least the requested one and
      less than one sample longer. */
  function ActualRiseTime(tw: real, dt: real): (r: real)
    requires dt > 0.0
    ensures tw <= r < tw + dt
  {
    HalfWidth(tw, dt) as real * dt
  }

  /** No shorter whole-sample rise time reaches tw. */
  lemma HalfWidthIsLeast(tw: real, dt: real, m: int)
    requires dt > 0.0 && tw <= m as real * dt
    ensures HalfWidth(tw, dt) <= m
  {
    var ww := HalfWidth(tw, dt);
    assert (ww - 1) as real * dt == ww as real * dt - dt;
    CancelPositiveFactor((ww - 1) as real, m as real, dt);
  }

  lemma CancelPositiveFactor(a: real, b: real, d: real)
    requires d > 0.0 && a * d < b * d
    ensures a < b
  {
    assert (b - a) * d == b * d - a * d;
  }

  /** np.ones(m). */
  function Ones(m: nat): (r: seq<real>)
    ensures |r| == m
    ensures forall i :: 0 <= i < m ==> r[i] == 1.0
  {
    seq(m, i => 1.0)
  }

  /** The window w: taper[0:ww] ++ ones(n - 2ww) ++ taper[-ww:]. */
  function Envelope(n: nat, ww: nat, taper: seq<real>): (w: seq<real>)
    requires 2 * ww <= n && |taper| == 2 * ww
    ensures |w| == n
    ensures forall i :: 0 <= i < ww ==> w[i] == taper[i]
    ensures forall i :: ww <= i < n - ww ==> w[i] == 1.0
    ensures forall i :: n - ww <= i < n ==> w[i] == taper[i - (n - 2 * ww)]
  {
    taper[..ww] + Ones(n - 2 * ww) + taper[|taper| - ww..]
  }

  /** Windowing leaves the samples between the two tapers untouched. */
  lemma WindowKeepsInterior(s: seq<real>, ww: nat, taper: seq<real>, i: int)
    requires 2 * ww <= |s| && |taper| == 2 * ww
    requires ww <= i < |s| - ww
    ensures Products(Envelope(|s|, ww, taper), s)[i] == s[i]
  {
  }

  /** With a zero rise time the window is all ones and the signal passes unchanged. */
  lemma ZeroWidthWindowIsIdentity(s: seq<real>)
    ensures Products(Envelope(|s|, 0, []), s) == s
  {
    assert forall i :: 0 <= i < |s| ==> Products(Envelope(|s|, 0, []), s)[i] == s[i];
  }
}
