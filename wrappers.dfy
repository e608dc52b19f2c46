/** Optional values and the outcome of a call into an external service. */
module Wrappers {

  /** A value that may be absent: a missing dictionary key or a Python `None`. */
  datatype Option<T> = None | Some(value: T) {

    /** The value, or `default` when absent (Python's `d.get(key, default)`). */
    function GetOr(default: T): T {
      match this
      case Some(v) => v
      case None => default
    }
  }

  /** The outcome of a call that may raise: either it returns a value, or an exception
      escapes it and aborts the caller. */
  datatype Outcome<T> = Returned(value: T) | Raised
}
