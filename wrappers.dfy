/** Optional values and error results, for Python's `None` and its raised exceptions. */
module Wrappers {

  datatype Option<+T> = None | Some(value: T) {

    /** dict.get(key, default) */
    function GetOr(default: T): T
    {
      match this
      case Some(v) => v
      case None => default
    }
  }

  datatype Result<+T, +E> = Ok(value: T) | Err(error: E)
}
