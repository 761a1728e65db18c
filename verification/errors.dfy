/** The crate's error value, reduced to the one kind the time-unit decoder produces. */
module Errors {

  /** Rust's `i32`: the integer width used across the FFI boundary. */
  newtype i32 = x: int | -0x8000_0000 <= x < 0x8000_0000

  /** The categories of error. The other kinds of the crate only wrap foreign library
      errors (I/O, storage, JSON, handles) and are not part of this model. */
  datatype ErrorKind =
    | /** Conversion of an integer to a `TimeUnit` failed; carries the rejected value. */
      TimeUnit(value: i32)

  /** The crate's error: a context around one `ErrorKind`, read back through `kind`. */
  datatype Error = Error(kind: ErrorKind)
}
