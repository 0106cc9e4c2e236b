/** Optional values and results with an error, used by every other module. */
module Wrappers {

  /** A value that may be absent: Go's nil pointer or the second result of a lookup. */
  datatype Option<+T> = None | Some(value: T)

  /** Go's `(value, error)` pair where exactly one of the two is meaningful. */
  datatype Result<+T, +E> = Success(value: T) | Failure(error: E)
}
