/** Optional values and success-or-error results, standing in for JavaScript's
    `undefined`/`NaN`, Java's `Optional` and Java's thrown exceptions. */
module Wrappers {

  datatype Option<+T> = None | Some(value: T) {
    function GetOr(default: T): T {
      match this
      case Some(v) => v
      case None => default
    }
  }

  datatype Result<+R, +E> = Success(value: R) | Failure(error: E)
}
