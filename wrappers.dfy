/** Option and Result, the two wrapper types every fallible Rust function of the game returns. */
module Wrappers {

  datatype Option<+T> = None | Some(value: T)

  datatype Result<+T, +E> = Ok(value: T) | Err(error: E)

  /** The `()` of `Result<(), E>`. */
  datatype Unit = Unit
}
