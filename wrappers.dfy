/** Failure-carrying datatypes shared by the whole model. */
module Wrappers {

  /** A value that may be missing: JavaScript's `null`/`undefined` for a typed slot. */
  datatype Option<+T> = None | Some(value: T) {
    function GetOr(default: T): T {
      match this
      case Some(v) => v
      case None => default
    }
  }

  /** The outcome of a promise that resolves to a value or rejects with an error. */
  datatype Result<+R, +E> = Success(value: R) | Failure(error: E)

  /** The outcome of a promise that resolves to nothing or rejects with an error. */
  datatype Outcome<+E> = Pass | Fail(error: E)
}
