/** Failure-carrying values shared by the adapters and the request handlers.
    A Python exception is represented by its message, the text `str(e)` that the
    handlers forward to the client. */
module Wrappers {

  /** `str(e)` of a raised exception. */
  type Message = string

  datatype Option<+T> = None | Some(value: T)

  /** A value, or the exception raised instead of producing it. */
  datatype Result<+T> = Ok(value: T) | Err(error: Message)

  /** A step that either completes or raises. */
  datatype Outcome = Pass | Fail(error: Message)
}
