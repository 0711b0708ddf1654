/** The Option and Result datatypes used throughout the model. */
module Wrappers {

  /** An optional value: Go's "zero value or nothing" and nil errors. */
  datatype Option<+T> = None | Some(value: T)

  /** Either a value or an error, as Go's `(T, error)` pairs. */
  datatype Result<+R, +E> = Success(value: R) | Failure(error: E)
}
