/** Option, Result and Outcome: the failure-carrying values the model uses in
    place of PHP's nullable values and exceptions. */
module Wrappers {

  datatype Option<+T> = None | Some(value: T) {
    function GetOr(default: T): T {
      match this
      case Some(v) => v
      case None => default
    }
  }

  /** A value, or the exception that the PHP code would have thrown instead. */
  datatype Result<+R, +E> = Ok(value: R) | Err(error: E)

  /** The outcome of a PHP `void` operation that may throw. */
  datatype Outcome<+E> = Pass | Fail(error: E)
}
