/** Option and Result: the absent value and the thrown error of the source, as values. */
module Wrappers {

  datatype Option<+T> = None | Some(value: T)

  /** A call that either returns a value or throws an error carrying a message. */
  datatype Result<+T> = Ok(value: T) | Err(message: string)
}
