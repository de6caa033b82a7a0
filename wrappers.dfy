/** Failure-compatible wrappers shared by the other modules. */
module Wrappers {

  /** A value that may be absent (a null pointer, a missing context). */
  datatype Option<+T> = None | Some(value: T)

  /** A value, or the error that stopped its computation. */
  datatype Result<+T, +E> = Ok(value: T) | Err(error: E)
}
