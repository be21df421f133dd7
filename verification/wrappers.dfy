/** Failure-compatible wrappers shared by the other modules. */
module Wrappers {

  /** A value that may be absent (JavaScript `undefined`). */
  datatype Option<+T> = None | Some(value: T)

  /** The outcome of an operation that may throw: a value or the thrown error. */
  datatype Result<+R, +E> = Success(value: R) | Failure(error: E)
}
