/** Failure-compatible wrappers used across the model. */
module Wrappers {

  /** A value that may be absent: TypeScript's `T | undefined` for optional fields. */
  datatype Option<+T> = None | Some(value: T) {

    /** Returns the value, or `default` when absent (TypeScript's `x ?? default`). */
    function GetOr(default: T): T {
      match this
      case Some(v) => v
      case None => default
    }
  }
}
