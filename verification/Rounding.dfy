/** Rounding of exact amounts to whole units. Stored money is an integer number of
    units; intermediate products and quotients are exact and have type real. */
module Rounding {

  /** Decimal.ROUND_HALF_UP: to the nearest unit, ties away from zero. */
  function HalfAway(x: real): (r: int)
    ensures x - 0.5 <= r as real <= x + 0.5
    ensures x >= 0.0 ==> r >= 0 && x - 0.5 < r as real
    ensures x <= 0.0 ==> r <= 0
  {
    if x >= 0.0 then (x + 0.5).Floor else -((0.5 - x).Floor)
  }

  /** Math.round: to the nearest unit, ties toward positive infinity. */
  function HalfUp(x: real): (r: int)
    ensures x - 0.5 < r as real <= x + 0.5
  {
    (x + 0.5).Floor
  }

  /** Ties go away from zero on both sides of it. */
  lemma {:induction false} HalfAwayIsOdd(x: real)
    ensures HalfAway(-x) == -HalfAway(x)
  {
  }

  lemma {:induction false} HalfAwayOfWhole(n: int)
    ensures HalfAway(n as real) == n
  {
  }

  /** Rounding never carries a value across a whole number. */
  lemma {:induction false} HalfUpWithin(x: real, n: int)
    ensures x <= n as real ==> HalfUp(x) <= n
    ensures x >= n as real ==> HalfUp(x) >= n
  {
  }

  lemma {:induction false} HalfUpMonotone(x: real, y: real)
    requires x <= y
    ensures HalfUp(x) <= HalfUp(y)
  {
  }
}
