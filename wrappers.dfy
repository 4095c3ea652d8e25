/** Go's bare `error` and `(value, error)` returns, as datatypes. */
module Wrappers {

  /** `None` stands for a nil error, `Some(e)` for a non-nil one. */
  datatype Option<+T> = None | Some(value: T)

  /** A value or the error that took its place. */
  datatype Result<+T, +E> = Success(value: T) | Failure(error: E)
}
