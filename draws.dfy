/**
 * The generator's seeded random stream, as an injected oracle. The stream is a
 * sequence of unit draws in [0, 1); each call into the stream consumes the next one,
 * and the three kinds of call turn it into a value of the range they ask for.
 */
module Draws {
  import opened Angles

  /** One draw of the stream, as `random()` returns it. */
  type Unit = u: real | 0.0 <= u < 1.0

  /** The stream `random.Random(seed)` produces: draw number `i` is `rng(i)`. */
  type Oracle = nat -> Unit

  /** `randint(lo, hi)`: an integer between `lo` and `hi`, both included. */
  function RandInt(lo: int, hi: int, u: Unit): (r: int)
    ensures lo <= hi ==> lo <= r <= hi
  {
    var width := (hi - lo + 1) as real;
    assert lo <= hi ==> 0.0 <= u * width < width by {
      if lo <= hi {
        assert (1.0 - u) * width > 0.0;
      }
    }
    lo + (u * width).Floor
  }

  /** `uniform(lo, hi)`: a real between `lo` and `hi`. */
  function Uniform(lo: real, hi: real, u: Unit): (r: real)
    ensures lo <= hi ==> lo <= r <= hi
  {
    var width := hi - lo;
    assert lo <= hi ==> 0.0 <= width * u <= width by {
      if lo <= hi {
        assert width * (1.0 - u) >= 0.0;
        assert width * u >= 0.0;
      }
    }
    lo + width * u
  }

  /**
   * `x * (1 if random() < 0.5 else -1)`: `x` with a fair random sign, written
   * without the multiplication by plus or minus one.
   */
  function WithRandomSign(x: real, u: Unit): (r: real)
    ensures r == x || r == -x
    ensures Abs(r) == Abs(x)
  {
    if u < 0.5 then x else -x
  }
}
