/** Optional values and results with an error, shared by the client and the server models. */
module Wrappers {

  /** A value that may be absent: a missing JSON key, a null reference. */
  datatype Option<+T> = None | Some(value: T) {
    function GetOr(default: T): T {
      match this
      case Some(v) => v
      case None => default
    }
  }

  /** The outcome of an operation that may raise. */
  datatype Result<+T, +E> = Success(value: T) | Failure(error: E)
}
