/** Optional values and success/failure results shared by every module. */
module Wrappers {

  /** A value that may be absent (Python `None`, JavaScript `null`/`undefined`). */
  datatype Option<+T> = None | Some(value: T)

  /** The outcome of an operation that may raise: a value, or the error text it raised. */
  datatype Result<+T> = Ok(value: T) | Err(error: string)
}
