/** Small functions on numbers. */
module Numbers {

  function Bit(b: bool): nat {
    if b then 1 else 0
  }

  function Min(a: int, b: int): int {
    if a <= b then a else b
  }

  function Max(a: int, b: int): int {
    if a >= b then a else b
  }

  /** The positive part. */
  function Pos(a: int): nat {
    if a > 0 then a else 0
  }
}
