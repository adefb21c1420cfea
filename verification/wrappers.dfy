/** Failure-compatible wrappers used across the model: an optional value (a
    Python `None`-able field or a missing dictionary key) and the outcome of an
    operation that can raise. */
module Wrappers {

  datatype Option<+T> = None | Some(value: T) {
    /** The wrapped value, or `default` when absent (Python's `d.get(k, default)`). */
    function GetOr(default: T): T {
      match this
      case Some(v) => v
      case None => default
    }
  }

  /** `Failure` carries the message of the exception the source raises. */
  datatype Result<+T, +E> = Success(value: T) | Failure(error: E)
}
