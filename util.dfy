/**
 * Small value helpers shared by every module: an optional value (JavaScript's
 * `undefined`/`null` and Python's `None` on one side, a present value on the
 * other) and the minimum and maximum of two numbers (`Math.min`, Python's
 * `min`/`max`).
 */
module Util {

  datatype Option<+T> = None | Some(value: T)

  function MinReal(a: real, b: real): real { if a <= b then a else b }

  function MinInt(a: int, b: int): int { if a <= b then a else b }

  function MaxInt(a: int, b: int): int { if a >= b then a else b }
}
