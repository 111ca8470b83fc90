/** Option and Result, used for the source's `T | null`, `T | undefined` and for server replies. */
module Wrappers {

  datatype Option<+T> = None | Some(value: T) {
    /** The value, or `default` when absent. */
    function GetOr(default: T): T {
      match this
      case Some(v) => v
      case None => default
    }
  }

  datatype Result<+T, +E> = Ok(value: T) | Err(error: E)

  /** An action that returns nothing on success and raises `error` on failure. */
  datatype Outcome<+E> = Pass | Fail(error: E)
}
