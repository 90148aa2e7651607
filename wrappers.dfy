/** Option and Result, the two Rust standard enums the scoring code leans on. */
module Wrappers {

  /** Rust's `Option<T>`. */
  datatype Option<+T> = None | Some(value: T) {

    /** Rust's `unwrap_or`. */
    function GetOr(default: T): T {
      match this
      case Some(v) => v
      case None => default
    }
  }

  /** Rust's `Result<T, E>`. */
  datatype Result<+T, +E> = Ok(value: T) | Err(error: E)
}
