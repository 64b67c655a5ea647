/** Optional values and results with an error message, used for JavaScript's
    `undefined`/`null` and for thrown errors. */
module Wrappers {

  datatype Option<+T> = None | Some(value: T) {
    function GetOr(default: T): T {
      match this
      case Some(v) => v
      case None => default
    }
  }

  /** A computation that either yields a value or throws an error with a message. */
  datatype Result<+T> = Success(value: T) | Failure(message: string)
}
