/** Optional values and results, for the JavaScript `undefined` and for thrown errors. */
module Wrappers {

  datatype Option<+T> = None | Some(value: T) {
    /** The value, or `default` when there is none (JavaScript's `x === undefined ? d : x`). */
    function GetOr(default: T): T {
      match this
      case Some(v) => v
      case None => default
    }
  }

  /** The result of an operation that either returns a value or throws an error. */
  datatype Result<+R, +E> = Success(value: R) | Failure(error: E)

  /** The result of an operation that returns nothing or throws an error. */
  datatype Outcome<+E> = Pass | Fail(error: E)
}
