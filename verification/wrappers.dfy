/** Failure-compatible wrappers shared by every module of the model. */
module Wrappers {

  /** A value that may be absent (PHP's `null`). */
  datatype Option<+T> = None | Some(value: T)

  /** A call that either returns a value or raises an error. */
  datatype Result<+T, +E> = Success(value: T) | Failure(error: E)

  /** A call that returns nothing or raises an error. */
  datatype Outcome<+E> = Pass | Fail(error: E)
}
