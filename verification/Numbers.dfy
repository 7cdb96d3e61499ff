/** Python's `min` and `max` of two quantities, and its `max` with zero on quantities and on amounts. */
module Numbers {

  function Min(a: int, b: int): int {
    if a <= b then a else b
  }

  function Max(a: int, b: int): int {
    if a >= b then a else b
  }

  function AtLeastZero(n: int): int {
    if n >= 0 then n else 0
  }

  function AmountAtLeastZero(x: real): real {
    if x >= 0.0 then x else 0.0
  }
}
