/** JavaScript's `Math.round` and the four-decimal rounding built on it,
    over mathematical reals (IEEE-754 doubles are idealised away). */
module Rounding {

  /** `Math.round(x)`: the nearest integer, a tie going towards +infinity
      (so -2.5 rounds to -2). */
  function JsRound(x: real): (n: int)
    ensures n as real - 0.5 <= x < n as real + 0.5
  {
    (x + 0.5).Floor
  }

  /** The half-open window of `JsRound` determines its result. */
  lemma JsRoundUnique(x: real, k: int)
    requires k as real - 0.5 <= x < k as real + 0.5
    ensures JsRound(x) == k
  {
  }

  lemma JsRoundMonotone(x: real, y: real)
    requires x <= y
    ensures JsRound(x) <= JsRound(y)
  {
  }

  /** A real that is a whole number of ten-thousandths. */
  predicate OnGrid(x: real) {
    (x * 10000.0).Floor as real == x * 10000.0
  }

  /** `Math.round(x * 10000) / 10000`: the nearest multiple of 1/10000. */
  function Round4(x: real): (r: real)
    ensures OnGrid(r)
    ensures x - 0.00005 < r <= x + 0.00005
  {
    var n := JsRound(x * 10000.0);
    var r := n as real / 10000.0;
    assert r * 10000.0 == n as real;
    r
  }

  /** Rounding leaves grid points where they are. */
  lemma Round4OfGridPoint(x: real)
    requires OnGrid(x)
    ensures Round4(x) == x
  {
    JsRoundUnique(x * 10000.0, (x * 10000.0).Floor);
  }

  lemma Round4Monotone(x: real, y: real)
    requires x <= y
    ensures Round4(x) <= Round4(y)
  {
    JsRoundMonotone(x * 10000.0, y * 10000.0);
  }

  /** An interval whose ends are grid points is closed under `Round4`. */
  lemma Round4Within(x: real, lo: real, hi: real)
    requires OnGrid(lo) && OnGrid(hi)
    requires lo <= x <= hi
    ensures lo <= Round4(x) <= hi
  {
    Round4Monotone(lo, x);
    Round4Monotone(x, hi);
    Round4OfGridPoint(lo);
    Round4OfGridPoint(hi);
  }
}
