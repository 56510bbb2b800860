/** Option and Result, the failure-carrying values used across the model. */
module Wrappers {

  /** A value that may be absent: a missing key, a NaN cell, a caught exception. */
  datatype Option<+T> = None | Some(value: T)

  /** The outcome of an operation that the source lets raise an exception. */
  datatype Result<+T, +E> = Success(value: T) | Failure(error: E)
}
