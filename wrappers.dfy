/** Option and Result, the two failure-carrying types the model uses for PHP's null and for thrown exceptions. */
module Wrappers {

  /** A value or PHP's null. */
  datatype Option<+T> = None | Some(value: T)

  /** A value, or the message of the exception that aborted the operation. */
  datatype Result<+T> = Ok(value: T) | Err(message: string)
}
