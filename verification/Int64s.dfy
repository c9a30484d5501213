/** The machine integers that every amount of money is kept in. */
module Int64s {
  const MAX_INT64: int := 0x7FFF_FFFF_FFFF_FFFF
  const MIN_INT64: int := -0x8000_0000_0000_0000

  /** A signed 64-bit integer: every assignment to one is an overflow check. */
  type int64 = x: int | MIN_INT64 <= x <= MAX_INT64 witness 0

  /** A non-negative amount in micro-USD that fits an int64. */
  type money = x: int | 0 <= x <= MAX_INT64 witness 0

  function Min(a: int, b: int): int {
    if a <= b then a else b
  }

  function Max(a: int, b: int): int {
    if a <= b then b else a
  }
}
