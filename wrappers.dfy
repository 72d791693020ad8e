/** Option and the binding's `Result<T, &'static str>`. */
module Wrappers {

  datatype Option<+T> = None | Some(value: T)

  /** An operation's outcome: a value, or one of the binding's fixed error messages. */
  datatype Result<+T> = Ok(value: T) | Err(error: string)
}
