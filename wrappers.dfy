/** Optional values and results with an error, used for the absent
    parameters of the JavaScript source and for the operations that throw. */
module Wrappers {

  datatype Option<+T> = None | Some(value: T) {
    /** The value if present, `default` otherwise. */
    function GetOr(default: T): T {
      match this
      case Some(v) => v
      case None => default
    }
  }

  datatype Result<+T, +E> = Ok(value: T) | Err(error: E)
}
