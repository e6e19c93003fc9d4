/** Failure-compatible result types used in place of the exceptions the
    formatter throws. */
module Wrappers {

  /** A value that may be absent: PHP's `null` for an optional colour. */
  datatype Option<+T> = None | Some(value: T)

  /** The result of an operation that either returns a value or throws. */
  datatype Result<+T, +E> = Ok(value: T) | Err(error: E)

  /** The result of a check that returns nothing or throws. */
  datatype Outcome<+E> = Pass | Fail(error: E)
}
