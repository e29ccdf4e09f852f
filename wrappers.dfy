/** Failure-carrying values shared by every module of the model. Errors are
    the message of the JavaScript `Error` the source would throw. */
module Wrappers {

  datatype Option<+T> = None | Some(value: T)

  /** A value or the message of the error that replaced it. */
  datatype Result<+T> = Ok(value: T) | Err(error: string)

  /** Completion of an operation that returns nothing: normal, or thrown. */
  datatype Outcome = Pass | Fail(error: string)
}
