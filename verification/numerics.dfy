/** Scalar helpers the simulation uses on its sampled values: Python's `max`, numpy's
    `minimum`/`maximum` inside `clip`, and the array modulo that wraps a wind direction
    into a full turn. Floating-point numbers are modelled as mathematical reals. */
module Numerics {

  function Max(a: real, b: real): (r: real)
    ensures r >= a && r >= b
    ensures r == a || r == b
  {
    if a >= b then a else b
  }

  function Min(a: real, b: real): (r: real)
    ensures r <= a && r <= b
    ensures r == a || r == b
  {
    if a <= b then a else b
  }

  /** numpy's `clip(x, lo, hi)`, which is `minimum(maximum(x, lo), hi)`. */
  function Clip(x: real, lo: real, hi: real): (r: real)
    ensures lo <= hi ==> lo <= r <= hi
    ensures lo <= hi ==> (r == x <==> lo <= x <= hi)
    ensures lo <= hi && x < lo ==> r == lo
    ensures x > hi ==> r == hi
  {
    Min(Max(x, lo), hi)
  }

  /** Clipping is monotone: a larger input never yields a smaller output. */
  lemma ClipMonotone(x: real, y: real, lo: real, hi: real)
    requires x <= y
    ensures Clip(x, lo, hi) <= Clip(y, lo, hi)
  {
  }

  /** numpy's `remainder` (the `%` of a float array) with the divisor 360: the remainder
      takes the sign of the divisor, so it is `a - 360 * floor(a / 360)`. */
  function Mod360(a: real): (r: real)
    ensures 0.0 <= r < 360.0
    ensures exists k: int :: a == r + Turns(k)
  {
    var q := (a / 360.0).Floor;
    assert q as real <= a / 360.0 < q as real + 1.0;
    assert a == (a - Turns(q)) + Turns(q);
    a - Turns(q)
  }

  /** `k` whole turns, in degrees. */
  function Turns(k: int): real
  {
    360.0 * k as real
  }

  /** The floor of a real is the one integer within distance one below it. */
  lemma FloorUnique(x: real, k: int)
    requires k as real <= x < k as real + 1.0
    ensures x.Floor == k
  {
  }

  /** The remainder does not depend on which representative of the residue class is
      divided: shifting by whole turns changes nothing. */
  lemma Mod360Shift(a: real, k: int)
    ensures Mod360(a + Turns(k)) == Mod360(a)
  {
    var q := (a / 360.0).Floor;
    assert (a + Turns(k)) / 360.0 == a / 360.0 + k as real;
    FloorUnique((a + Turns(k)) / 360.0, q + k);
  }

  /** A value already inside `[0, 360)` is its own remainder. */
  lemma Mod360Identity(a: real)
    requires 0.0 <= a < 360.0
    ensures Mod360(a) == a
  {
    FloorUnique(a / 360.0, 0);
  }

  /** The wrap `(d + 360) % 360` the simulation applies to every wind direction in degrees. */
  function WrapDegrees(d: real): (r: real)
    ensures 0.0 <= r < 360.0
    ensures exists k: int :: d == r + Turns(k)
  {
    var r := Mod360(d + 360.0);
    ghost var k: int :| d + 360.0 == r + Turns(k);
    assert d == r + Turns(k - 1);
    r
  }

  /** The `+ 360` before the modulo is redundant: the wrap is `d - 360 * floor(d / 360)`. */
  lemma {:induction false} WrapDegreesClosedForm(d: real)
    ensures WrapDegrees(d) == d - 360.0 * (d / 360.0).Floor as real
  {
    Mod360Shift(d, 1);
  }

  /** An angle already in `[0, 360)` is left unchanged by the wrap. */
  lemma WrapDegreesIdentity(d: real)
    requires 0.0 <= d < 360.0
    ensures WrapDegrees(d) == d
  {
    Mod360Shift(d, 1);
    Mod360Identity(d);
  }

  /** Wrapping is idempotent. */
  lemma WrapDegreesIdempotent(d: real)
    ensures WrapDegrees(WrapDegrees(d)) == WrapDegrees(d)
  {
    WrapDegreesIdentity(WrapDegrees(d));
  }

  /** Two angles a whole number of turns apart wrap to the same direction. */
  lemma WrapDegreesPeriodic(d: real, k: int)
    ensures WrapDegrees(d + Turns(k)) == WrapDegrees(d)
  {
    assert d + Turns(k) + 360.0 == (d + 360.0) + Turns(k);
    Mod360Shift(d + 360.0, k);
  }
}
