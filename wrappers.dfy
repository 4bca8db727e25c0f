/** The optional value used wherever the source has `T | null` or an optional
    field, and the result of an operation that can throw. */
module Wrappers {

  datatype Option<+T> = None | Some(value: T) {

    /** `x ?? d` and `x || d` for a value that is never falsy when present. */
    function GetOr(default: T): T
    {
      match this
      case Some(v) => v
      case None => default
    }
  }

  /** A value, or the error an operation throws instead of returning one. */
  datatype Result<+T, +E> = Ok(value: T) | Err(error: E)
}
