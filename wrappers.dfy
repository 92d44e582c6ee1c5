/** Option and Result values used across the model. */
module Wrappers {

  /** A value that may be absent: a missing dictionary key, a `None`. */
  datatype Option<+T> = None | Some(value: T) {

    /** The value, or `default` when absent (Python's `dict.get(key, default)`). */
    function GetOr(default: T): T {
      match this
      case Some(v) => v
      case None => default
    }
  }

  /** The outcome of a call that can raise. */
  datatype Result<+T, +E> = Ok(value: T) | Err(error: E)
}
