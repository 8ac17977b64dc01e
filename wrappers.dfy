/** Option and Result, used for JavaScript's null/undefined and for thrown errors. */
module Wrappers {

  datatype Option<+T> = None | Some(value: T) {
    function GetOr(default: T): T {
      match this
      case Some(v) => v
      case None => default
    }
  }

  /** A call that either returns a value or throws an Error carrying a message. */
  datatype Result<+R> = Success(value: R) | Failure(message: string)
}
