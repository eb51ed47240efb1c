/** Plain nil-or-value and value-or-error datatypes for Go's returns. */
module Wrappers {

  /** A Go value that may be nil: a nil `error`, a nil provider. */
  datatype Option<+T> = None | Some(value: T)

  /** A Go `(value, error)` pair where exactly one of the two is meaningful. */
  datatype Result<+T, +E> = Success(value: T) | Failure(error: E)
}
