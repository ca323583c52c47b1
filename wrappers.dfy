/** Option and Result, used for Python's `None`, `dict.get` defaults and raised exceptions. */
module Wrappers {

  datatype Option<+T> = None | Some(value: T) {
    /** The value, or `default` when there is none (Python's `d.get(k, default)`). */
    function GetOr(default: T): T {
      match this
      case Some(v) => v
      case None => default
    }
  }

  /** The outcome of a Python call that either returns a value or raises. */
  datatype Result<+T> = Success(value: T) | Raised(exception: string)
}
