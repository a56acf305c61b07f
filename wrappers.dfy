/** Failure-carrying results for the operations that throw in the source. */
module Wrappers {

  datatype Option<+T> = None | Some(value: T)

  /** A value, or the error that was thrown instead of producing it. */
  datatype Result<+T, +E> = Ok(value: T) | Err(error: E)

  /** The outcome of an operation that returns nothing when it succeeds. */
  datatype Outcome<+E> = Pass | Fail(error: E)
}
