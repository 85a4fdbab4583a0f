/** Option and Result, the two failure-carrying values Rust code returns. */
module Wrappers {

  datatype Option<+T> = None | Some(value: T)

  datatype Result<+T, +E> = Ok(value: T) | Err(error: E)

  /** The empty tuple `()` of Rust, as the success value of an operation that returns nothing. */
  datatype Unit = Unit
}
