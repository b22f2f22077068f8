/** Failure-compatible wrappers used throughout the client model. */
module Wrappers {

  /** A value that may be absent: JavaScript's `null`/`undefined` for an optional field. */
  datatype Option<+T> = None | Some(value: T)

  /** The outcome of an operation that may throw: a value, or the error it threw. */
  datatype Result<+T, +E> = Success(value: T) | Failure(error: E)
}
