/** Option and Result, the two shapes every fallible step of the model returns. */
module Wrappers {

  datatype Option<+T> = None | Some(value: T)

  /** A computation that either yields a value or throws an `Error` carrying `error` as its message. */
  datatype Result<+T> = Ok(value: T) | Err(error: string)
}
