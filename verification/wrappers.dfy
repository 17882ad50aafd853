/** Optional values and results shared by every module of the model. */
module Wrappers {

  /** A value that may be absent: JavaScript's `undefined`/`null` for a field or a lookup. */
  datatype Option<+T> = None | Some(value: T) {
    /** `x ?? d` */
    function GetOr(default: T): T {
      match this
      case Some(v) => v
      case None => default
    }
  }

  /** The outcome of an operation that may throw. */
  datatype Result<+R, +E> = Success(value: R) | Failure(error: E)
}
