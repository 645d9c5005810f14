/** Failure-carrying values used in place of null references and exceptions. */
module Wrappers {

  datatype Option<+T> = None | Some(value: T)

  /** A computation that either yields a value or fails with an error. */
  datatype Result<+T, +E> = Success(value: T) | Failure(error: E)

  /** A computation that yields nothing, or fails with an error. */
  datatype Outcome<+E> = Pass | Fail(error: E)
}
