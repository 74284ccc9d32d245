/** Option, Result and Outcome: the failure-carrying values the model uses
    in place of Python's None, return-or-raise and raise-or-return-None. */
module Wrappers {

  datatype Option<+T> = None | Some(value: T) {
    /** The wrapped value, or the given default when there is none. */
    function GetOr(default: T): T {
      match this
      case Some(v) => v
      case None => default
    }
  }

  /** A value or the error that was raised instead. */
  datatype Result<+T, +E> = Ok(value: T) | Err(error: E)

  /** Normal return, or the error that was raised (no value on success). */
  datatype Outcome<+E> = Pass | Fail(error: E)
}
