/** The exceptions the matrix code throws, and the results that carry them. */
module Failures {

  /** `out_of_range` (bad element index) and `invalid_argument` (shape mismatch). */
  datatype Error = OutOfRange | InvalidArgument

  /** A value, or the exception thrown instead of producing it. */
  datatype Result<T> = Ok(value: T) | Err(error: Error)

  /** The result of an operation that returns nothing but may throw. */
  datatype Outcome = Pass | Fail(error: Error)
}
