/** Optional values: the model's stand-in for TypeScript's `null`/`undefined`. */
module Wrappers {

  datatype Option<+T> = None | Some(value: T) {
    function GetOr(default: T): T {
      match this
      case Some(v) => v
      case None => default
    }
  }

  /** Outcome of a request to the remote catalog: a payload or a thrown error. */
  datatype Result<+T> = Success(value: T) | Failure
}
