/** An optional value (an unset environment variable, a missing dictionary
    key) and the outcome of an operation that may raise. */
module Wrappers {

  datatype Option<+T> = None | Some(value: T) {

    /** The value, or `default` when there is none (Python's `os.getenv(key, default)`). */
    function GetOr(default: T): T {
      match this
      case Some(v) => v
      case None => default
    }
  }

  /** `Failure` stands for an exception propagated to the caller. */
  datatype Result<+R, +E> = Success(value: R) | Failure(error: E)
}
