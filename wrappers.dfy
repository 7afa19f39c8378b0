/** Optional and failure-carrying values shared by the modules below. */
module Wrappers {

  /** A value that may be absent: Python's `None` or a missing key. */
  datatype Option<+T> = None | Some(value: T) {

    /** The value, or `default` when absent: Python's `dict.get(key, default)`. */
    function GetOr(default: T): T {
      match this
      case Some(v) => v
      case None => default
    }
  }

  /** The result of a step that may raise: `Err` carries the exception's text. */
  datatype Result<+T, +E> = Ok(value: T) | Err(error: E)
}
