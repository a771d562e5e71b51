/** Failure-carrying values used throughout the model. */
module Wrappers {

  /** A value that may be missing (Python's `None`). */
  datatype Option<+T> = None | Some(value: T)

  /** The outcome of an operation that may raise: its value or what it raised. */
  datatype Result<+T, +E> = Success(value: T) | Failure(error: E)
}
