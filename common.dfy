/** Failure-compatible wrappers shared by the other modules. */
module Common {

  /** A value that may be absent (Python's `None`). */
  datatype Option<+T> = None | Some(value: T)

  /** The outcome of a call into a service that may raise: the value, or the exception's text. */
  datatype Result<+T> = Ok(value: T) | Err(error: string)

  /** A `(question, answer)` pair of a conversation. */
  type Exchange = (string, string)
}
