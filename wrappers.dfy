/** Option and Result, used wherever the source returns `undefined` or throws. */
module Wrappers {

  datatype Option<+T> = None | Some(value: T) {
    function GetOr(default: T): T {
      match this
      case Some(v) => v
      case None => default
    }
  }

  /** `Err` carries the message of the error the source throws. */
  datatype Result<+T, +E> = Ok(value: T) | Err(error: E)
}
