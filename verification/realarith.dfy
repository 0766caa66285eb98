/**
 * Facts about real arithmetic used by the statistics and kinematics
 * models. Products are wrapped in Mul so that sign facts about them
 * survive the solver's rewriting of comparisons.
 */
module RealArith {

  function Abs(x: real): (r: real)
    ensures r >= 0.0 && (r == x || r == -x)
  {
    if x < 0.0 then -x else x
  }

  /** Math.pow(d, 2) */
  function Sq(d: real): (r: real)
    ensures r >= 0.0
  {
    d * d
  }

  function Mul(x: real, y: real): real
  {
    x * y
  }

  lemma MulPos(x: real, y: real)
    requires x > 0.0 && y > 0.0
    ensures Mul(x, y) > 0.0
  {
  }

  lemma MulNonNeg(x: real, y: real)
    requires x >= 0.0 && y >= 0.0
    ensures Mul(x, y) >= 0.0
  {
  }

  /** Multiplying by a non-negative factor keeps the order. */
  lemma MulMonotone(k: real, x: real, y: real)
    requires k >= 0.0 && x <= y
    ensures Mul(k, x) <= Mul(k, y)
  {
    MulNonNeg(k, y - x);
    assert Mul(k, y - x) == Mul(k, y) - Mul(k, x);
  }

  /** A quotient by a positive n lies between lo and hi when x lies between n lo and n hi. */
  lemma DivBetween(x: real, n: real, lo: real, hi: real)
    requires n > 0.0 && Mul(n, lo) <= x <= Mul(n, hi)
    ensures lo <= x / n <= hi
  {
    DivBack(x, n);
    if x / n < lo {
      MulPos(n, lo - x / n);
    }
    if x / n > hi {
      MulPos(n, x / n - hi);
    }
  }

  function Min(x: real, y: real): (r: real)
    ensures r <= x && r <= y && (r == x || r == y)
  {
    if x <= y then x else y
  }

  function Max(x: real, y: real): (r: real)
    ensures r >= x && r >= y && (r == x || r == y)
  {
    if x >= y then x else y
  }

  lemma SqPos(d: real)
    requires d != 0.0
    ensures Sq(d) > 0.0
  {
    if d > 0.0 {
      MulPos(d, d);
    } else {
      MulPos(-d, -d);
      assert Mul(-d, -d) == Sq(d);
    }
  }

  lemma SqZero(d: real)
    ensures Sq(d) == 0.0 <==> d == 0.0
  {
    if d != 0.0 {
      SqPos(d);
    }
  }

  /** Squares of non-negative reals are ordered as the reals are. */
  lemma SqOrder(x: real, y: real)
    requires x >= 0.0 && y >= 0.0 && Sq(x) <= Sq(y)
    ensures x <= y
  {
    if x > y {
      MulPos(x - y, x + y);
    }
  }

  lemma MulAssoc(a: real, b: real, c: real)
    ensures a * (b * c) == (a * b) * c
  {
  }

  lemma DivBack(x: real, n: real)
    requires n > 0.0
    ensures x == n * (x / n)
  {
  }
}
