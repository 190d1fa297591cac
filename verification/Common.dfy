/** What the other modules share: optional values, durations, the smaller and the larger of two. */
module Common {

  datatype Option<+T> = None | Some(value: T)

  // Go's time.Duration and time.Time, in nanoseconds.
  type Time = nat

  const MILLISECOND: Time := 1_000_000
  const SECOND: Time := 1000 * MILLISECOND

  function Min(a: int, b: int): int {
    if a < b then a else b
  }

  function Max(a: int, b: int): int {
    if a < b then b else a
  }
}
