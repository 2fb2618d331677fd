/** Rust's Option and Result, and the shape in which errors of foreign crates appear here. */
module Prelude {

  datatype Option<+T> = None | Some(value: T) {
    /** Option::unwrap_or */
    function UnwrapOr(default: T): T {
      match this
      case Some(v) => v
      case None => default
    }
  }

  datatype Result<+T, +E> = Ok(value: T) | Err(error: E)

  /** An error value of a crate outside this repository (r2d2, jsonwebtoken, bcrypt,
      actix's BlockingError, uuid). Only its Display text is observable here. */
  datatype ForeignError = ForeignError(text: string)

  /** An octet, as in an HTTP header value. */
  type byte = b: int | 0 <= b < 256
}
