/** Option and Result: the nullable references and the checked exceptions of the factory. */
module Wrappers {

  /** A Java reference that may be null. */
  datatype Option<+T> = None | Some(value: T) {
    function GetOr(default: T): T {
      match this
      case Some(v) => v
      case None => default
    }
  }

  /** A call that either returns a value or throws the exception `error`. */
  datatype Result<+T, +E> = Ok(value: T) | Err(error: E)
}
