/** Failure-carrying values used for the exception exits of the integration. */
module Wrappers {

  datatype Option<+T> = None | Some(value: T) {
    function GetOr(default: T): T {
      match this
      case Some(v) => v
      case None => default
    }
  }

  /** A value or the exception that was raised instead of producing it. */
  datatype Result<+R, +E> = Success(value: R) | Failure(error: E)

  /** Completion of a command that returns nothing: it passed or it raised. */
  datatype Outcome<+E> = Pass | Fail(error: E)
}
