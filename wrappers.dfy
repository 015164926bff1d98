/** Optional values and results with an error, used by every other module. */
module Wrappers {

  /** A value that may be absent: the model of a Go pointer field that may be nil. */
  datatype Option<+T> = None | Some(value: T) {
    function GetOr(default: T): T {
      match this
      case Some(v) => v
      case None => default
    }
  }

  /** The outcome of an operation that returns either a value or an error. */
  datatype Result<+R, +E> = Success(value: R) | Failure(error: E)

  /** `sub` occurs as a contiguous part of `s`: what an error-text assertion checks. */
  predicate Contains(s: string, sub: string) {
    sub <= s || (|s| > 0 && Contains(s[1..], sub))
  }
}
