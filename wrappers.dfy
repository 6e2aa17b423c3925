/** Option and Result, the two wrappers every step uses. */
module Wrappers {

  /** A value that may be absent. */
  datatype Option<+T> = None | Some(value: T)

  /** The outcome of a step: a value, or the error the step raises. */
  datatype Result<+T, +E> = Ok(value: T) | Err(error: E)
}
