/** Option and Result, used for every lookup that may miss and every step that may fail. */
module Wrappers {

  datatype Option<+T> = None | Some(value: T) {
    /** The wrapped value, or `default` when there is none (Rust's `unwrap_or`). */
    function GetOr(default: T): T {
      match this
      case Some(v) => v
      case None => default
    }

    /** This option if it holds a value, else `other` (Rust's `Option::or`). */
    function Or(other: Option<T>): Option<T> {
      if Some? then this else other
    }
  }

  datatype Result<+R, +E> = Ok(value: R) | Err(error: E)
}
