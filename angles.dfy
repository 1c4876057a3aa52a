/** Heading arithmetic in degrees: wrapping a heading into [-180, 180]. */
module Angles {

  /** Python's abs on a heading difference. */
  function Abs(x: real): (r: real)
    ensures r >= 0.0 && (r == x || r == -x)
  {
    if x < 0.0 then -x else x
  }

  /** `d` is a whole number of turns of 360 degrees. */
  predicate IsWholeTurns(d: real)
  {
    (d / 360.0).Floor as real == d / 360.0
  }

  /** The number of whole turns in `d`, when `d` is a whole number of turns. */
  lemma WholeTurnsCount(d: real) returns (k: int)
    requires IsWholeTurns(d)
    ensures d == 360.0 * k as real
  {
    k := (d / 360.0).Floor;
  }

  /** Every whole number of turns is one. */
  lemma WholeTurnsOf(k: int)
    ensures IsWholeTurns(360.0 * k as real)
  {
    assert (360.0 * k as real) / 360.0 == k as real;
  }

  /** The first loop of the normalisation: subtract 360 while the angle is above 180. */
  function WrapDown(a: real): real
    decreases if a > 180.0 then (a - 180.0).Floor + 1 else 0
  {
    if a > 180.0 then WrapDown(a - 360.0) else a
  }

  /** The second loop of the normalisation: add 360 while the angle is below -180. */
  function WrapUp(a: real): real
    decreases if a < -180.0 then (-180.0 - a).Floor + 1 else 0
  {
    if a < -180.0 then WrapUp(a + 360.0) else a
  }

  /** The first loop leaves the angle at most 180, and above -180 when it ran at all. */
  lemma {:induction false} WrapDownBounds(a: real)
    ensures WrapDown(a) <= 180.0
    ensures a <= 180.0 ==> WrapDown(a) == a
    ensures a > 180.0 ==> -180.0 < WrapDown(a)
    decreases if a > 180.0 then (a - 180.0).Floor + 1 else 0
  {
    if a > 180.0 {
      WrapDownBounds(a - 360.0);
    }
  }

  /** The second loop leaves the angle at least -180, and below 180 when it ran at all. */
  lemma {:induction false} WrapUpBounds(a: real)
    ensures -180.0 <= WrapUp(a)
    ensures a >= -180.0 ==> WrapUp(a) == a
    ensures a < -180.0 ==> WrapUp(a) < 180.0
    decreases if a < -180.0 then (-180.0 - a).Floor + 1 else 0
  {
    if a < -180.0 {
      WrapUpBounds(a + 360.0);
    }
  }

  /**
   * The heading normalisation: both loops in sequence. Both ends of the range are
   * left as they are, so the range is the closed interval [-180, 180]; an input above
   * the range never lands on -180 and one below it never lands on 180.
   */
  function Normalize(a: real): (r: real)
    ensures -180.0 <= r <= 180.0
    ensures -180.0 <= a <= 180.0 ==> r == a
    ensures a > 180.0 ==> r > -180.0
    ensures a < -180.0 ==> r < 180.0
  {
    WrapDownBounds(a);
    WrapUpBounds(WrapDown(a));
    WrapUp(WrapDown(a))
  }

  /** The imperative normalisation, with the two `while` loops of the generator. */
  method NormalizeAngle(angle: real) returns (r: real)
    ensures r == Normalize(angle)
    ensures -180.0 <= r <= 180.0
  {
    r := angle;
    while r > 180.0
      invariant WrapDown(r) == WrapDown(angle)
      decreases if r > 180.0 then (r - 180.0).Floor + 1 else 0
    {
      r := r - 360.0;
    }
    while r < -180.0
      invariant WrapUp(r) == WrapUp(WrapDown(angle))
      decreases if r < -180.0 then (-180.0 - r).Floor + 1 else 0
    {
      r := r + 360.0;
    }
  }

  lemma {:induction false} WrapDownByWholeTurns(a: real)
    ensures IsWholeTurns(WrapDown(a) - a)
    decreases if a > 180.0 then (a - 180.0).Floor + 1 else 0
  {
    if a > 180.0 {
      WrapDownByWholeTurns(a - 360.0);
      var k := WholeTurnsCount(WrapDown(a - 360.0) - (a - 360.0));
      assert WrapDown(a) - a == 360.0 * (k - 1) as real;
      WholeTurnsOf(k - 1);
    }
  }

  lemma {:induction false} WrapUpByWholeTurns(a: real)
    ensures IsWholeTurns(WrapUp(a) - a)
    decreases if a < -180.0 then (-180.0 - a).Floor + 1 else 0
  {
    if a < -180.0 {
      WrapUpByWholeTurns(a + 360.0);
      var k := WholeTurnsCount(WrapUp(a + 360.0) - (a + 360.0));
      assert WrapUp(a) - a == 360.0 * (k + 1) as real;
      WholeTurnsOf(k + 1);
    }
  }

  /** Normalisation only ever adds or removes whole turns. */
  lemma NormalizeByWholeTurns(a: real)
    ensures IsWholeTurns(Normalize(a) - a)
  {
    WrapDownByWholeTurns(a);
    var k1 := WholeTurnsCount(WrapDown(a) - a);
    WrapUpByWholeTurns(WrapDown(a));
    var k2 := WholeTurnsCount(WrapUp(WrapDown(a)) - WrapDown(a));
    assert Normalize(a) - a == 360.0 * (k1 + k2) as real;
    WholeTurnsOf(k1 + k2);
  }

  /** Normalising a normalised heading changes nothing. */
  lemma NormalizeIdempotent(a: real)
    ensures Normalize(Normalize(a)) == Normalize(a)
  {
  }

  /**
   * Two headings a whole number of turns apart normalise to the same heading, or to
   * the two ends 180 and -180 of the range; either way their magnitudes agree.
   */
  lemma AbsNormalizeShift(x: real, k: int)
    ensures Abs(Normalize(x + 360.0 * k as real)) == Abs(Normalize(x))
  {
    var y := x + 360.0 * k as real;
    NormalizeByWholeTurns(x);
    var kx := WholeTurnsCount(Normalize(x) - x);
    NormalizeByWholeTurns(y);
    var ky := WholeTurnsCount(Normalize(y) - y);
    var j := kx - k - ky;
    assert Normalize(x) - Normalize(y) == 360.0 * j as real;
    assert -1 <= j <= 1;
    if j == 1 {
      assert Normalize(x) == 180.0 && Normalize(y) == -180.0;
    } else if j == -1 {
      assert Normalize(x) == -180.0 && Normalize(y) == 180.0;
    }
  }
}
