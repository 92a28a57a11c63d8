/** Failure-carrying values used in place of JavaScript's thrown exceptions. */
module Wrappers {

  /** A value that may be missing (`undefined` or `null` in the source). */
  datatype Option<+T> = None | Some(value: T)

  /** The outcome of an operation that either returns a value or throws. */
  datatype Result<+T, +E> = Ok(value: T) | Err(error: E)
}
