/** Failure-compatible wrappers shared by every module of the model. */
module Common {

  /** A JavaScript value that may be absent (`undefined` or `null`). */
  datatype Option<+T> = None | Some(value: T)

  /** The outcome of a step that may throw: its value, or the thrown `Error`'s message. */
  datatype Result<+T> = Ok(value: T) | Err(message: string)
}
