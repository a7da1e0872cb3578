/** Optional values and results, as Rust's Option and Result. */
module Wrappers {

  datatype Option<+T> = None | Some(value: T) {
    /** Rust's unwrap_or: the value, or the given default when absent. */
    function UnwrapOr(default: T): T {
      match this
      case Some(v) => v
      case None => default
    }
  }

  datatype Result<+T, +E> = Ok(value: T) | Err(error: E)
}
