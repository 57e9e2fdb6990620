/** Option and Result, the failure-carrying values used across the model. */
module Wrappers {

  datatype Option<+T> = None | Some(value: T)

  /** A value, or the error a Python handler would have raised. */
  datatype Result<+R, +E> = Success(value: R) | Failure(error: E)
}
