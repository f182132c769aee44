/** Option and Result values used to model Python's `None` and raised exceptions. */
module Wrappers {

  /** A Python value that is either `None` or carries a value. */
  datatype Option<+T> = None | Some(value: T)

  /** The outcome of an evaluation that either yields a value or raises an error. */
  datatype Result<+T, +E> = Ok(value: T) | Err(error: E)
}
