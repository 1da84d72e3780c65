/** Failure-compatible result types used to model the exceptions and error returns of the source. */
module Wrappers {

  /** A value that may be absent: models an optional output pointer that was NULL. */
  datatype Option<+T> = None | Some(value: T)

  /** The outcome of an operation that returns a value or raises an error. */
  datatype Result<+T, +E> = Ok(value: T) | Err(error: E)

  /** The outcome of an operation that returns nothing or raises an error. */
  datatype Outcome<+E> = Pass | Fail(error: E)
}
