/** Numeric building blocks shared by the control step: a plain two-component
    vector and the saturating guard the program applies to every control value. */
module Numeric {

  /** A point or direction in the plane. The program stores these in a union of
      a vector and a two-element array; here the two components are just fields. */
  datatype Vec2 = Vec2(x: real, y: real)

  function Abs(v: real): (r: real)
    ensures r >= 0.0 && (r == v || r == -v)
  {
    if v < 0.0 then -v else v
  }

  /** The guard the program writes as two successive reassignments: first
      `if (v > limit) v = limit;`, then `if (v < -limit) v = -limit;`.
      For a non-negative limit this is a symmetric clamp; for a negative limit
      the second test always fires, so the result is `-limit` whatever `v` is. */
  function Limit(v: real, limit: real): (r: real)
    ensures -Abs(limit) <= r <= Abs(limit)
    ensures limit >= 0.0 && -limit <= v <= limit ==> r == v
    ensures limit >= 0.0 && v > limit ==> r == limit
    ensures limit >= 0.0 && v < -limit ==> r == -limit
    ensures limit < 0.0 ==> r == -limit
  {
    var upper := if v > limit then limit else v;
    if upper < -limit then -limit else upper
  }

  /** The same guard as the program runs it, one reassignment after the other. */
  method Clamp(v: real, limit: real) returns (r: real)
    ensures r == Limit(v, limit)
  {
    r := v;
    if r > limit { r := limit; }
    if r < -limit { r := -limit; }
  }

  /** |a * b| = |a| * |b|. */
  lemma AbsMul(a: real, b: real)
    ensures Abs(a * b) == Abs(a) * Abs(b)
  {
    if a < 0.0 && b < 0.0 {
      assert a * b == (-a) * (-b);
    } else if a < 0.0 {
      assert -(a * b) == (-a) * b;
    } else if b < 0.0 {
      assert -(a * b) == a * (-b);
    }
  }

  /** Multiplying by a non-negative factor keeps the sign of the other factor. */
  lemma ProductSign(a: real, k: real)
    requires k >= 0.0
    ensures a >= 0.0 ==> a * k >= 0.0
    ensures a <= 0.0 ==> a * k <= 0.0
  {
  }

  /** Two consecutive moves, each bounded by `rate` times its duration, are
      together bounded by `rate` times the total duration. */
  lemma ChainedBound(x0: real, x1: real, x2: real, rate: real, t1: real, t2: real)
    requires Abs(x1 - x0) <= rate * t1 && Abs(x2 - x1) <= rate * t2
    ensures Abs(x2 - x0) <= rate * (t1 + t2)
  {
    assert rate * (t1 + t2) == rate * t1 + rate * t2;
  }

  /** Scaling both sides of `|a| <= bound` by a non-negative factor keeps the order. */
  lemma ScaleBound(a: real, bound: real, k: real)
    requires k >= 0.0
    ensures Abs(a) <= bound ==> Abs(a * k) <= bound * k
  {
    AbsMul(a, k);
    assert Abs(k) == k;
    if Abs(a) <= bound {
      assert (bound - Abs(a)) * k >= 0.0;
    }
  }

  /** A product of non-negative factors grows with its first factor; `rate`
      names the product of the bound and the second factor. */
  lemma ProductMonotone(a: real, m: real, k1: real, k2: real, rate: real)
    requires 0.0 <= a <= m && k1 >= 0.0 && k2 >= 0.0 && rate == m * k1
    ensures a * k1 * k2 <= rate * k2
  {
    assert a * k1 <= m * k1 by { assert (m - a) * k1 >= 0.0; }
    assert (m * k1 - a * k1) * k2 >= 0.0;
  }

  /** Squaring is strictly increasing on the non-negative reals. */
  lemma SquareIncreasing(x: real, y: real)
    requires 0.0 <= x < y
    ensures x * x < y * y
  {
    calc {
      x * x;
    <= x * y;
    < y * y;
    }
  }

  /** A non-negative square root is unique: `r >= 0 && r * r == d * d` fixes `r` as `|d|`. */
  lemma RootUnique(r: real, d: real)
    requires r >= 0.0 && r * r == d * d
    ensures r == Abs(d)
  {
    var a := Abs(d);
    assert a * a == d * d;
    if r < a {
      SquareIncreasing(r, a);
    } else if a < r {
      SquareIncreasing(a, r);
    }
  }
}
