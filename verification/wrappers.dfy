/** Failure-compatible wrappers used across the model: `Option` stands for a
    reference that may be null, `Result` for an operation that may throw. */
module Wrappers {

  /** A value that may be absent (a null reference in the modelled code). */
  datatype Option<+T> = None | Some(value: T)

  /** The outcome of an operation that either returns a value or raises an error. */
  datatype Result<+R, +E> = Success(value: R) | Failure(error: E)
}
