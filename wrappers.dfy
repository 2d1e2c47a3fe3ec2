/** Option and Result, the two failure-carrying types of the Rust code
    (`Option<T>` and `Result<T, E>`), with the one combinator the code uses. */
module Wrappers {

  datatype Option<T> = None | Some(value: T) {
    /** Rust's `Option::unwrap_or`. */
    function GetOr(default: T): T {
      match this
      case Some(v) => v
      case None => default
    }
  }

  datatype Result<T, E> = Success(value: T) | Failure(error: E)
}
