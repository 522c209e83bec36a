// Option and Result, used wherever the source returns None or raises.
module Wrappers {
  datatype Option<T> = None | Some(value: T) {
    /** Python's `x if x is not None else default`. */
    function GetOr(default: T): T {
      match this
      case None => default
      case Some(v) => v
    }
  }

  datatype Result<T, E> = Ok(value: T) | Failure(error: E)
}
