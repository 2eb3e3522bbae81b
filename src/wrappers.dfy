/** Optional values and results with an error, used for absent payload keys and failed calls. */
module Wrappers {

  /** An optional value: `None` stands for a key the payload does not carry. */
  datatype Option<+T> = None | Some(value: T) {
    /** The value, or `default` when absent: Python's `d.get(key, default)`. */
    function GetOr(default: T): T {
      match this
      case Some(v) => v
      case None => default
    }
  }

  /** The outcome of an operation that may raise. */
  datatype Result<+T, +E> = Success(value: T) | Failure(error: E)
}
