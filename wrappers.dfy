/** Option and Result, the failure-carrying values used across the model. */
module Wrappers {

  datatype Option<+T> = None | Some(value: T)

  /** The outcome of an operation that the source ends with an exception. */
  datatype Result<+T, +E> = Ok(value: T) | Err(error: E)
}
