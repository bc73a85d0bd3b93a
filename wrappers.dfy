/** Optional values and success/failure results, used for the JavaScript
    `null`/`undefined` values and thrown errors of the modelled code. */
module Wrappers {

  datatype Option<+T> = None | Some(value: T) {
    function GetOr(default: T): T {
      match this
      case Some(v) => v
      case None => default
    }
  }

  /** The value of an expression that either produces `value` or throws an
      `Error` whose message is `error`. */
  datatype Result<+R> = Success(value: R) | Failure(error: string)

  /** The completion of a statement that returns nothing or throws. */
  datatype Outcome = Pass | Fail(error: string)
}
