/** Optional values and error-carrying results, the model's stand-ins for
    `undefined` fields and for screens that alert and return early. */
module Wrappers {

  datatype Option<+T> = None | Some(value: T) {

    /** `o ?? d` */
    function GetOr(default: T): T {
      match this
      case Some(v) => v
      case None => default
    }
  }

  datatype Result<+R, +E> = Success(value: R) | Failure(error: E)
}
