/** Failure-carrying wrappers shared by every handler of the site. */
module Results {

  /** An optional value: an absent environment variable, a missing label, ... */
  datatype Option<+T> = None | Some(value: T)

  /** The outcome of a step that may throw: its value, or the message of the thrown `Error`. */
  datatype Result<+T> = Ok(value: T) | Fail(message: string)
}
