/** Option and Result values, used wherever the source returns `undefined`/`null` or throws. */
module Wrappers {

  /** `None` stands for JavaScript's `undefined` (or `null` where the source treats both alike). */
  datatype Option<+T> = None | Some(value: T) {
    function GetOr(default: T): T {
      match this
      case Some(v) => v
      case None => default
    }
  }

  /** A computation that either returns a value or throws an error. */
  datatype Result<+R, +E> = Success(value: R) | Failure(error: E)
}
