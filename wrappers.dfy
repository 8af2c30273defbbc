/** Option and Result values used wherever the Python code returns None or raises. */
module Wrappers {

  /** Python's `None`-or-value. */
  datatype Option<+T> = None | Some(value: T) {
    function GetOr(default: T): T {
      match this
      case Some(v) => v
      case None => default
    }
  }

  /** A value, or the error a Python function would have raised instead. */
  datatype Result<+R, +E> = Success(value: R) | Failure(error: E)
}
