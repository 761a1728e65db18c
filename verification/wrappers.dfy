/** Option and Result, the two failure-carrying shapes the modelled code returns. */
module Wrappers {

  /** A value that may be missing, as Rust's `Option`. */
  datatype Option<+T> = None | Some(value: T)

  /** Either a success value or an error value, as Rust's `Result`. */
  datatype Result<+T, +E> = Ok(value: T) | Err(error: E)
}
