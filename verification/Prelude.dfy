/** Value types shared by the other modules. */
module Prelude {

  datatype Option<+T> = None | Some(value: T)

  /** A computed value, or the message of the exception that the source raises. */
  datatype Result<+T> = Ok(value: T) | Err(message: string)
}
