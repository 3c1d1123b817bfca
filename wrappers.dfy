/** Option and Result values used where the source returns None or raises. */
module Wrappers {

  /** A value that may be absent, like a Python `None` or a SQL `NULL`. */
  datatype Option<+T> = None | Some(value: T)

  /** The outcome of an operation that either returns a value or fails. */
  datatype Result<+T, +E> = Ok(value: T) | Err(error: E)
}
