/** Optional values and success/failure results, standing in for JavaScript's
    `undefined`/`null` and for a thrown error. */
module Wrappers {

  datatype Option<+T> = None | Some(value: T) {

    /** The contained value, or `default` when absent (JavaScript's `??`). */
    function GetOr(default: T): T {
      match this
      case Some(v) => v
      case None => default
    }
  }

  /** `Failure` carries what the JavaScript code would `throw`. */
  datatype Result<+R, +E> = Success(value: R) | Failure(error: E)
}
