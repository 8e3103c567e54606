/** The two JavaScript number primitives the core relies on, on real numbers
    (NaN and the infinities do not arise from the values the core handles). */
module JsNumber {

  /** `Math.round`: the nearest integer, halves rounded towards +infinity. */
  function Round(r: real): (n: int)
    ensures n as real - 0.5 <= r < n as real + 0.5
  {
    (r + 0.5).Floor
  }

  /** Rounding a whole number gives it back. */
  lemma RoundWhole(n: int)
    ensures Round(n as real) == n
  {
  }

  /** `Number.isInteger`. */
  predicate IsInteger(r: real) {
    r == r.Floor as real
  }
}
