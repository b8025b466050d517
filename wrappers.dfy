/** Option and Result, standing for JavaScript's undefined/null and for a thrown error. */
module Wrappers {

  /** `None` is JavaScript's `undefined` or `null`; `Some(v)` a present value. */
  datatype Option<+T> = None | Some(value: T) {
    function GetOr(default: T): T {
      match this
      case Some(v) => v
      case None => default
    }
  }

  /** The outcome of an operation that may throw. */
  datatype Result<+T, +E> = Ok(value: T) | Err(error: E)
}
