/** The optional value and the success-or-error result shared by every module of the model. */
module Wrappers {

  /** A value that may be absent (JavaScript's `undefined`/`null`, or a missing key). */
  datatype Option<+T> = None | Some(value: T) {

    /** The wrapped value, or `default` when absent. */
    function GetOr(default: T): T {
      match this
      case Some(v) => v
      case None => default
    }
  }

  /** The outcome of an operation that can throw. */
  datatype Result<+R, +E> = Success(value: R) | Failure(error: E)
}
