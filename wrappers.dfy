/** Option and Result, the two failure-carrying datatypes the model uses. */
module Wrappers {

  /** A value that may be absent: `null`/`undefined` in the client. */
  datatype Option<+T> = None | Some(value: T)

  /** The outcome of an operation that may throw: `Ok` when it returns, `Err` when it throws. */
  datatype Result<+T, +E> = Ok(value: T) | Err(error: E)
}
