/** The lesser and the greater of two numbers, shared by all modules. */
module Arithmetic {
  function Min(a: int, b: int): int {
    if a <= b then a else b
  }

  function Max(a: int, b: int): int {
    if a >= b then a else b
  }
}
