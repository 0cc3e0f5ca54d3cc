/** Failure-carrying return values used in place of the source's `ValueError`s. */
module Wrappers {

  datatype Option<+T> = None | Some(value: T)

  datatype Result<+T, +E> = Ok(value: T) | Err(error: E)

  /** The outcome of a call that returns nothing on success. */
  datatype Outcome<+E> = Pass | Fail(error: E)
}
