/** Option and Result values shared by the client and server models. */
module Wrappers {

  /** A JavaScript value that may be `null` or `undefined`. */
  datatype Option<+T> = None | Some(value: T)

  /** The outcome of an operation that can throw; `Err` carries the error's message. */
  datatype Result<+T> = Ok(value: T) | Err(message: string)
}
