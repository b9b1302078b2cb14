/** Optional values and results shared by every module of the model. */
module Wrappers {

  /** An SQL NULL, a missing key, a failed load: `None`; otherwise `Some(value)`. */
  datatype Option<+T> = None | Some(value: T) {
    function GetOr(default: T): T {
      match this
      case Some(v) => v
      case None => default
    }
  }

  /** The outcome of a request handler: a value, or an error to report. */
  datatype Result<+T, +E> = Ok(value: T) | Err(error: E)
}
