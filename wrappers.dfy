/** Small value wrappers shared by the whole model. */
module Wrappers {

  /** Python's `Optional[T]`: a value or `None`. */
  datatype Option<+T> = None | Some(value: T) {
    function GetOr(default: T): T {
      match this
      case Some(v) => v
      case None => default
    }
  }

  /** A call that either returns a value or raises an exception. */
  datatype Result<+R, +E> = Success(value: R) | Failure(error: E)
}

/** Instants as read from the wall clock (`datetime.now()`). */
module Time {

  /** An instant, in microseconds (the resolution of `datetime`). */
  type Instant = int

  const MicrosPerSecond: int := 1_000_000
}
