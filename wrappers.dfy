/** The failure-carrying wrappers the rest of the model uses for Go's `nil`
    values and `(value, error)` returns. */
module Wrappers {

  /** A value that may be absent: Go's nil pointer, nil slice or nil interface. */
  datatype Option<+T> = None | Some(value: T)

  /** A Go `(value, error)` pair in which exactly one side is meaningful. */
  datatype Result<+T, +E> = Success(value: T) | Failure(error: E)
}
