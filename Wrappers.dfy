/** Optional values for absent fields and "not found", and results for calls that may raise. */
module Wrappers {

  datatype Option<+T> = None | Some(value: T)

  /** The value of a call, or the message of the exception it raised. */
  datatype Result<+T> = Ok(value: T) | Err(message: string)
}
