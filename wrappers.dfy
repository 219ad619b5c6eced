/** Option and reply types shared by every module of the model. */
module Wrappers {

  /** A value that may be missing: `undefined`/`null` in the source. */
  datatype Option<+T> = None | Some(value: T) {

    /** The value, or `default` when there is none (the source's `x ?? d`). */
    function GetOr(default: T): (r: T)
      ensures Some? ==> r == value
      ensures None? ==> r == default
    {
      match this
      case Some(v) => v
      case None => default
    }
  }

  /** What a request handler answers: an HTTP status with either a JSON value or an error message. */
  datatype Reply<+T> = Success(status: int, value: T) | Failure(status: int, error: string)

  /** The outcome of a handler's early checks: go on, or answer with an error status and message. */
  datatype Guard = Pass | Stop(status: int, error: string)
}
