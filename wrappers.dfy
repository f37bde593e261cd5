/** Failure-aware result types shared by every module of the model. */
module Wrappers {

  /** A value that may be absent: the model's rendering of a Go nil reference or nil slice. */
  datatype Option<+T> = None | Some(value: T)

  /** The outcome of an operation that returns a value or fails with an error. */
  datatype Result<+T, +E> = Ok(value: T) | Err(error: E)
}
