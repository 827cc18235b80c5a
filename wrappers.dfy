/** Option and Result, the two failure-carrying shapes the client uses. */
module Wrappers {

  datatype Option<+T> = None | Some(value: T) {

    /** The value, or `default` when there is none (Rust's `unwrap_or`). */
    function GetOr(default: T): T {
      match this
      case Some(v) => v
      case None => default
    }
  }

  /** Rust's `Result<T, E>`: `Ok` carries the value, `Err` the error. */
  datatype Result<+T, +E> = Ok(value: T) | Err(error: E)
}
