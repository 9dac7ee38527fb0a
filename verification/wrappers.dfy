/** Optional values and results with an error, the Dafny counterparts of Go's
    nil pointers and `(value, error)` return pairs. */
module Wrappers {

  /** A value that may be absent (Go's `nil` pointer). */
  datatype Option<+T> = None | Some(value: T) {

    /** The value when present, otherwise `default`. */
    function GetOr(default: T): T {
      match this
      case Some(v) => v
      case None => default
    }
  }

  /** Either a value (`err == nil`) or an error (`value == nil`). */
  datatype Result<+R, +E> = Success(value: R) | Failure(error: E)
}
