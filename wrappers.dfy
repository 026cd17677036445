/** Failure-compatible result types used throughout the model: a Go value that
    may be nil becomes an Option, a Go `(value, error)` pair becomes a Result. */
module Wrappers {

  datatype Option<+T> = None | Some(value: T)

  datatype Result<+T, +E> = Success(value: T) | Failure(error: E)
}
