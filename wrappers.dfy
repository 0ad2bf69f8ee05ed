/** Option and Result values shared by the backend and frontend models. */
module Wrappers {

  /** A value that may be absent: Python's None, JavaScript's null/undefined. */
  datatype Option<+T> = None | Some(value: T) {

    function GetOr(default: T): T {
      match this
      case Some(v) => v
      case None => default
    }
  }

  /** The outcome of an operation that can raise: a value, or the error it raised. */
  datatype Result<+R, +E> = Ok(value: R) | Err(error: E)
}
