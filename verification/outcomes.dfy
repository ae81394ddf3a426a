/** Failure-carrying values used where the app calls code that can fail or be absent. */
module Outcomes {

  /** A value that may be missing (a Swift optional). */
  datatype Option<T> = None | Some(value: T)

  /** The outcome of a call that can throw: the returned value or the error. */
  datatype Result<T, E> = Ok(value: T) | Err(error: E)
}
