/** Option and result wrappers shared by every module of the checker model. */
module Wrappers {

  /** A value that may be absent: JavaScript's `undefined`/`null` versus a value. */
  datatype Option<+T> = None | Some(value: T)

  /** The outcome of an operation that either returns a value or throws an error. */
  datatype Result<+T, +E> = Success(value: T) | Failure(error: E)

  /** The outcome of a check that returns nothing or throws an error. */
  datatype Outcome<+E> = Pass | Fail(error: E)
}
