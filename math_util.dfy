/** The two helpers of JavaScript's `Math` object that the widgets use, on integers. */
module MathUtil {

  /** `Math.min(a, b)` */
  function Min(a: int, b: int): int
  {
    if a <= b then a else b
  }

  /** `Math.max(a, b)` */
  function Max(a: int, b: int): int
  {
    if a >= b then a else b
  }
}
