/**
 The one JavaScript library primitive the calorie calculator relies on:
 `Math.round`, on exact reals instead of IEEE-754 doubles.
 */
module JsMath {

  /** `n` is the integer nearest to `x`, a tie going to the larger one. */
  ghost predicate NearestHalfUp(n: int, x: real) {
    n as real - 0.5 <= x < n as real + 0.5
  }

  /** `Math.round(x)`: round half towards positive infinity, so
      `Math.round(2.5) == 3` and `Math.round(-2.5) == -2`. */
  function Round(x: real): (r: int)
    ensures NearestHalfUp(r, x)
  {
    (x + 0.5).Floor
  }

  /** Nothing but `Round(x)` is the nearest integer, ties upwards. */
  lemma NearestHalfUpIsUnique(n: int, x: real)
    requires NearestHalfUp(n, x)
    ensures Round(x) == n
  {
  }

  /** Rounding never reverses an order, though it may merge two values. */
  lemma RoundMonotone(x: real, y: real)
    requires x <= y
    ensures Round(x) <= Round(y)
  {
  }
}
