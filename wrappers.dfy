/** Option and Result, the two sum types the account model returns. */
module Wrappers {

  /** A value that may be absent (Rust's `Option<T>`). */
  datatype Option<+T> = None | Some(value: T)

  /** A success value or an error value (Rust's `Result<T, E>`). */
  datatype Result<+T, +E> = Ok(value: T) | Err(error: E)
}
