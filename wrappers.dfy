/** Failure-carrying wrappers shared by the other modules. */
module Wrappers {

  datatype Option<+T> = None | Some(value: T)

  /** Rust's `Result<T, E>`: either a value or the error that stopped the operation. */
  datatype Result<+T, +E> = Ok(value: T) | Err(error: E)
}
