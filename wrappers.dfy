/** Optional values (Java `null` / `Optional`) and results (a value or a raised exception). */
module Wrappers {

  datatype Option<+T> = None | Some(value: T) {
    /** `x == null ? d : x` */
    function GetOr(d: T): T {
      match this
      case Some(v) => v
      case None => d
    }
  }

  datatype Result<+T, +E> = Ok(value: T) | Err(error: E)
}
