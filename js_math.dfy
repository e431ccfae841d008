/** The rounding functions of JavaScript's `Math`, over exact rationals. */
module JsMath {

  /** `Math.round`: the nearest integer, halves rounded up (towards +infinity). */
  function Round(x: real): (r: int)
    ensures r as real - 0.5 <= x < r as real + 0.5
  {
    (x + 0.5).Floor
  }

  /** `Math.ceil`: the least integer not below `x`. */
  function Ceil(x: real): (r: int)
    ensures x <= r as real < x + 1.0
  {
    -((-x).Floor)
  }

  /** Rounding an integer-valued number changes nothing. */
  lemma RoundOfInteger(n: int)
    ensures Round(n as real) == n
  {
  }
}
