/** Optional values and results with an error, shared by the modules of this model. */
module Wrappers {

  /** A value that may be missing: JavaScript's `undefined` on an optional field. */
  datatype Option<+T> = None | Some(value: T) {
    function GetOr(default: T): T {
      match this
      case Some(v) => v
      case None => default
    }
  }

  /** Either a value or the error that stopped its computation. */
  datatype Result<+T, +E> = Ok(value: T) | Err(error: E)
}
