/** Failure-carrying values used throughout the model: `Option` for a value
    that may be absent (JavaScript `null`/`undefined`), `Result` for an
    operation that either succeeds or reports an error. */
module Wrappers {

  datatype Option<+T> = None | Some(value: T) {
    function GetOr(default: T): T {
      match this
      case Some(v) => v
      case None => default
    }
  }

  datatype Result<+T, +E> = Ok(value: T) | Err(error: E)
}
