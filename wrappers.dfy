/** The optional value and the error-or-value result the model uses where the
    source returns `null` or throws an `Error` carrying a message. */
module Wrappers {

  datatype Option<T> = None | Some(value: T)

  datatype Result<T> = Ok(value: T) | Err(message: string)
}
