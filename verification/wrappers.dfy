/** Option and Result, used wherever a JavaScript value may be `undefined`/`null`
    or an asynchronous call may reject. */
module Wrappers {

  /** A value that may be absent (`undefined` or `null` in the app). */
  datatype Option<+T> = None | Some(value: T) {
    function GetOr(default: T): T {
      match this
      case Some(v) => v
      case None => default
    }
  }

  /** The outcome of an operation that either returns or throws an `Error` with a message. */
  datatype Result<+R, +E> = Success(value: R) | Failure(error: E)
}
