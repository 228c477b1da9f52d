/** Optional values and success/failure results shared by every module. */
module Wrappers {

  /** A value that may be absent (a JavaScript `undefined`). */
  datatype Option<+T> = None | Some(value: T) {
    function GetOr(default: T): T {
      match this
      case Some(v) => v
      case None => default
    }
  }

  /** The outcome of a request handler: a payload or an error response. */
  datatype Result<+T, +E> = Ok(value: T) | Err(error: E)
}
