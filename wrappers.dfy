/** Option and Result values shared by every module of the model.
    A JavaScript `undefined`/`null` becomes `None`; a thrown `Error` becomes
    `Err(message)`, carrying the error's `message` text. */
module Wrappers {

  datatype Option<+T> = None | Some(value: T)

  datatype Result<+T> = Ok(value: T) | Err(message: string)

  /** `()` as the value of an operation that only succeeds or fails. */
  datatype Unit = Unit
}
