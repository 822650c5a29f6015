/**
 * Python's built-in `round` applied to a number, returning an integer:
 * the nearest integer, with ties going to the even neighbour.  The model
 * works on exact reals; see README for what this means for floats.
 */
module Rounding {

  /** Distance between an integer and a real. */
  function Dist(n: int, x: real): (d: real)
    ensures d >= 0.0
    ensures d == 0.0 <==> n as real == x
  {
    if n as real >= x then n as real - x else x - n as real
  }

  /** Half-to-even rounding, computed from the floor and the fractional part. */
  function RoundHalfEven(x: real): (n: int)
    ensures x.Floor <= n <= x.Floor + 1
    ensures Dist(n, x) <= 0.5
  {
    var f := x.Floor;
    var frac := x - f as real;
    if frac < 0.5 then f
    else if frac > 0.5 then f + 1
    else if f % 2 == 0 then f
    else f + 1
  }

  /** Reference definition: `n` is a nearest integer to `x`, and an exact tie is settled towards the even one. */
  ghost predicate IsNearestTiesEven(x: real, n: int)
  {
    && (forall m: int :: Dist(n, x) <= Dist(m, x))
    && (Dist(n, x) == 0.5 ==> n % 2 == 0)
  }

  /** `RoundHalfEven` meets the reference definition. */
  lemma RoundHalfEvenIsNearest(x: real)
    ensures IsNearestTiesEven(x, RoundHalfEven(x))
  {
    var f := x.Floor;
    var r := RoundHalfEven(x);
    forall m: int
      ensures Dist(r, x) <= Dist(m, x)
    {
      if m <= f {
        assert Dist(m, x) == x - m as real;
        assert Dist(m, x) >= x - f as real;
      } else {
        assert Dist(m, x) == m as real - x;
        assert Dist(m, x) >= f as real + 1.0 - x;
      }
    }
  }

  /** The reference definition determines the result: no other integer meets it. */
  lemma NearestTiesEvenIsUnique(x: real, n: int)
    requires IsNearestTiesEven(x, n)
    ensures n == RoundHalfEven(x)
  {
    RoundHalfEvenIsNearest(x);
  }

  /** Rounding never reverses the order of its arguments. */
  lemma RoundHalfEvenMonotone(x: real, y: real)
    requires x <= y
    ensures RoundHalfEven(x) <= RoundHalfEven(y)
  {
    assert x.Floor <= y.Floor;
    if x.Floor < y.Floor {
      assert RoundHalfEven(x) <= x.Floor + 1 <= y.Floor <= RoundHalfEven(y);
    }
  }

  /** An integral value rounds to itself. */
  lemma RoundHalfEvenOfInteger(n: int)
    ensures RoundHalfEven(n as real) == n
  {
  }
}
