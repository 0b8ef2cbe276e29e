/** Optional values and success-or-failure outcomes. */
module Wrappers {

  datatype Option<+T> = None | Some(value: T) {
    /** The wrapped value, or `default` when there is none. */
    function GetOr(default: T): T {
      match this
      case Some(v) => v
      case None => default
    }
  }

  /** What an engine operation returns: a value, or the status it failed with. */
  datatype Result<+T, +E> = Ok(value: T) | Err(error: E)
}
