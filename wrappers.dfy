/** Optional values and results, used wherever the source has None, NULL or an error path. */
module Wrappers {

  /** A value that may be absent: Python's None, SQL's NULL, pandas' NaT. */
  datatype Option<+T> = None | Some(value: T) {
    function GetOr(default: T): T {
      match this
      case Some(v) => v
      case None => default
    }
  }

  /** The outcome of an operation the source can abort with an exception. */
  datatype Result<+T, +E> = Ok(value: T) | Err(error: E)
}
