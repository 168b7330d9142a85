/** Failure-carrying wrappers used by every other module. */
module Wrappers {

  /** A value that may be absent (JavaScript `null`/`undefined` at an API boundary). */
  datatype Option<+T> = None | Some(value: T)

  /** Either a value or the error that stopped its computation (a thrown exception). */
  datatype Result<+T, +E> = Ok(value: T) | Err(error: E)
}
