/** Optional values, results with an error path, and the engine's error kinds. */
module Outcomes {

  /** A value that may be absent (Python's `Optional[...]` / `None`). */
  datatype Option<+T> = None | Some(value: T) {

    /** The wrapped value, or `default` when absent (the `if x is None: x = default` idiom). */
    function GetOr(default: T): T {
      match this
      case Some(v) => v
      case None => default
    }
  }

  /** Either a value or the error a constructor or lookup raises instead. */
  datatype Result<+T, +E> = Success(value: T) | Failure(error: E)

  /** A deprivation field outside [0, 1]: the `ValueError` raised by `__post_init__`. */
  datatype RangeError = OutOfRange(field: string, value: real)
}
