/** JavaScript's `Math.round` and `Math.ceil` on exact reals. */
module JsMath {
  /** `Math.round`: the nearest integer, halves rounded up (towards +∞). */
  function Round(x: real): (r: int)
    ensures x - 0.5 < r as real <= x + 0.5
  {
    (x + 0.5).Floor
  }

  /** `Math.ceil`: the least integer not below `x`. */
  function Ceil(x: real): (r: int)
    ensures x <= r as real < x + 1.0
  {
    -((-x).Floor)
  }
}
