/** Failure-compatible wrappers shared by every module of the model. */
module Wrappers {

  /** Python's `None` or a present value. */
  datatype Option<+T> = None | Some(value: T)

  /** A value, or the error a Python call would have raised instead. */
  datatype Result<+T, +E> = Ok(value: T) | Err(error: E)
}
