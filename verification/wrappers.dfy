/** Failure-compatible wrappers shared by the whole model: `Option` for values
    the source represents with `null`/`undefined`, `Result` for thrown errors. */
module Wrappers {

  datatype Option<+T> = None | Some(value: T) {
    function GetOr(default: T): T {
      match this
      case Some(v) => v
      case None => default
    }
  }

  datatype Result<+R, +E> = Success(value: R) | Failure(error: E)
}
