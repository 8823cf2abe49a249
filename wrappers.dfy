/** Failure-carrying results used for the exceptions the configuration raises. */
module Wrappers {

  datatype Option<+T> = None | Some(value: T)

  /** A computation that yields a value or fails with an error. */
  datatype Result<+T, +E> = Success(value: T) | Failure(error: E)

  /** A computation that yields nothing or fails with an error. */
  datatype Outcome<+E> = Pass | Fail(error: E)
}
