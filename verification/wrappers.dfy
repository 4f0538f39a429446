/** Failure-carrying wrappers shared by every module of the model. */
module Wrappers {

  /** A value that may be absent (Python's `None`). */
  datatype Option<+T> = None | Some(value: T) {
    function GetOr(default: T): T {
      match this
      case Some(v) => v
      case None => default
    }
  }

  /** The outcome of a call into an external service that may raise:
      `Ok` carries the returned value, `Raised` the exception's text. */
  datatype Outcome<+T> = Ok(value: T) | Raised(message: string)
}
