/** What every module of the model uses: nullable columns and lookups, times and arithmetic. */
module Common {

  datatype Option<+T> = None | Some(value: T)

  /** A primary key. */
  type Id = string

  /** Milliseconds since the epoch. */
  type Time = int

  const DAY_MS: Time := 24 * 60 * 60 * 1000

  function Max(a: int, b: int): int {
    if a < b then b else a
  }

  function Min(a: int, b: int): int {
    if a < b then a else b
  }

  /** `Math.round` of an exact quotient: to the nearest whole number, halves up. */
  function RoundDiv(a: int, b: int): int
    requires b > 0
  {
    (2 * a + b) / (2 * b)
  }
}
