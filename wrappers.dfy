/** Failure-compatible wrappers shared by the model. */
module Wrappers {

  /** An optional value: Go's nil error or nil result is None. */
  datatype Option<+T> = None | Some(value: T)

  /** The outcome of a stage that either yields a value or aborts with an error. */
  datatype Result<+T, +E> = Ok(value: T) | Err(error: E)
}
