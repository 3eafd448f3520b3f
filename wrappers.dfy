/** Failure-compatible wrappers shared by the modules of the model. */
module Wrappers {

  /** A value that may be missing: JavaScript's `null` / `undefined`. */
  datatype Option<+T> = None | Some(value: T) {
    function GetOr(default: T): T {
      match this
      case Some(v) => v
      case None => default
    }
  }

  /** The outcome of an operation that may throw: a value or an error message. */
  datatype Result<+T, +E> = Ok(value: T) | Err(error: E)

  /**
   * JavaScript's `given || fallback` on a number that may be missing: a
   * missing value and `0` are both falsy and give the fallback.
   */
  function OrFallback(given: Option<int>, fallback: int): (r: int)
    ensures given.Some? && given.value != 0 ==> r == given.value
    ensures given.None? || given.value == 0 ==> r == fallback
  {
    if given.Some? && given.value != 0 then given.value else fallback
  }
}
