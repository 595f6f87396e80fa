/** Failure-compatible wrappers used across the model. */
module Wrappers {

  /** An optional value: `None` where the source simply does nothing. */
  datatype Option<+T> = None | Some(value: T)

  /** The outcome of a call that may fail with an error value. */
  datatype Result<+T, +E> = Success(value: T) | Failure(error: E)
}
