/** Optional values (Python's `Optional[...]` fields and `None`) and results of calls that may raise. */
module Wrappers {

  datatype Option<+T> = None | Some(value: T) {

    /** The value, or `default` when absent (Python's `dict.get(key, default)` shape). */
    function GetOr(default: T): T {
      match this
      case Some(v) => v
      case None => default
    }
  }

  /** A call that either returns a value or raises an exception carrying its text. */
  datatype Result<+T> = Success(value: T) | Failure(message: string)
}
