/** Failure-compatible wrappers shared by the other modules. */
module Wrappers {

  /** A value that may be absent: the model of a JavaScript `null` result. */
  datatype Option<+T> = None | Some(value: T)

  /** A computation that either produces a value or throws an error. */
  datatype Result<+T, +E> = Ok(value: T) | Err(error: E)
}
