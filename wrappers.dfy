/** Optional values and results, standing for TypeScript's `T | undefined`
    and for a value-or-thrown-Error. */
module Wrappers {

  /** `T | undefined`: None is `undefined`. */
  datatype Option<+T> = None | Some(value: T) {

    /** The nullish-coalescing operator `this ?? default`. */
    function GetOr(default: T): T {
      match this
      case Some(v) => v
      case None => default
    }
  }

  /** The outcome of an operation that either returns `value` or throws an
      Error whose message is `error`. */
  datatype Result<+R, +E> = Success(value: R) | Failure(error: E)
}
