/** Nullable values and thrown errors of the TypeScript sources. */
module Wrappers {

  /** A value that may be `null` or `undefined` (None) in the source. */
  datatype Option<+T> = None | Some(value: T) {
    /** `x ?? d`: the value when present, else the default. */
    function GetOr(default: T): T {
      match this
      case Some(v) => v
      case None => default
    }
  }

  /** The outcome of a step that may throw: Failure carries the error message. */
  datatype Result<+T, +E> = Success(value: T) | Failure(error: E)
}
