/** `Option` and `Result`, shared by every module of the model. */
module Wrappers {

  /** A value that may be absent (Python's `None`). */
  datatype Option<T> = None | Some(value: T)

  /** The outcome of an operation that may raise: its value, or the exception it raises. */
  datatype Result<T, E> = Ok(value: T) | Err(error: E)
}
