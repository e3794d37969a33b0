/** Optional values and results-or-errors, used for Python's `None` and for raised exceptions. */
module Wrappers {

  /** `None` stands for Python's `None` or for an argument left at its default. */
  datatype Option<+T> = None | Some(value: T) {

    /** The value, or `default` when there is none. */
    function GetOr(default: T): T {
      match this
      case Some(v) => v
      case None => default
    }
  }

  /** The outcome of an operation that either returns a value or raises `error`. */
  datatype Result<+R, +E> = Success(value: R) | Failure(error: E)
}
