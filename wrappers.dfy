/** Failure-compatible wrappers shared by the modules of this model. */
module Wrappers {

  /** A value that may be absent (Python's `None`). */
  datatype Option<+T> = None | Some(value: T)

  /** Either a value or an error (a raised exception in the source). */
  datatype Result<+R, +E> = Ok(value: R) | Err(error: E)
}
