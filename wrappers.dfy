/** Failure-compatible wrappers shared by every module of the model. */
module Wrappers {

  datatype Option<+T> = None | Some(value: T)

  /** The outcome of an operation that may fail: a value, or the failure it raised. */
  datatype Result<+T, +E> = Ok(value: T) | Err(error: E)
}
