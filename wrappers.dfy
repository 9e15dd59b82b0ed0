/** Option and Result, the shapes of Rust's `Option<T>` and `Result<T, E>`. */
module Wrappers {

  datatype Option<+T> = None | Some(value: T) {

    /** `Option::and_then`. */
    function AndThen<U>(f: T -> Option<U>): Option<U>
    {
      match this
      case None => None
      case Some(v) => f(v)
    }

    /** `Option::unwrap_or`. */
    function UnwrapOr(default: T): T
    {
      match this
      case None => default
      case Some(v) => v
    }
  }

  datatype Result<+T, +E> = Ok(value: T) | Err(error: E)
}
