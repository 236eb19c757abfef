/** Failure-carrying values shared by every module: a value that may be absent, and the outcome
    of an operation that either produces a value or fails with an error. */
module Wrappers {

  datatype Option<+T> = None | Some(value: T)

  datatype Result<+T, +E> = Ok(value: T) | Err(error: E)

  /** Outcome of a check that only passes or fails. */
  datatype Outcome<+E> = Pass | Fail(error: E)
}
