/** Option and Result, used for the source's nullable values and thrown exceptions. */
module Wrappers {

  /** A value that may be absent (C#'s `int?`). */
  datatype Option<+T> = None | Some(value: T)

  /** The outcome of an operation that either returns a value or fails. */
  datatype Result<+T, +E> = Ok(value: T) | Err(error: E)
}
