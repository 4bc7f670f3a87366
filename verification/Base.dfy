/** Vocabulary shared by every component: results, instants and durations. */
module Base {

  datatype Option<+T> = None | Some(value: T)

  datatype Result<+T, +E> = Success(value: T) | Failure(error: E)

  /** Instants and durations are whole nanoseconds, as in Go's time package. */
  type Time = int

  const SECOND: Time := 1_000_000_000
  const MINUTE: Time := 60 * SECOND

  function Min(a: int, b: int): int {
    if a < b then a else b
  }
}
