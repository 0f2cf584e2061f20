/** Optional values and results with an error message, used for Python's
    `None` and for exceptions that a call raises. */
module Wrappers {

  datatype Option<+T> = None | Some(value: T) {
    function GetOr(default: T): T {
      match this
      case Some(v) => v
      case None => default
    }
  }

  /** `Failure` carries the text of the exception that the Python code raises. */
  datatype Result<+R> = Success(value: R) | Failure(error: string)
}
