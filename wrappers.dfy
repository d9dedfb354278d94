/** Option and Result values used in place of Python's None and raised exceptions. */
module Wrappers {

  /** A value that may be absent (Python's None). */
  datatype Option<+T> = None | Some(value: T) {
    function GetOr(default: T): T {
      match this
      case Some(v) => v
      case None => default
    }

    /** The value as a list of zero or one elements. */
    function ToSeq(): seq<T> {
      match this
      case Some(v) => [v]
      case None => []
    }
  }

  /** The outcome of a computation that may raise: the value, or the error text. */
  datatype Result<+T> = Ok(value: T) | Err(error: string)
}
