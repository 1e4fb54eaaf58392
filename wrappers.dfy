/** Option and Result, the two ways the model reports absence and failure. */
module Wrappers {

  /** A value that may be absent: JavaScript's `undefined`/`null`/`NaN` cases. */
  datatype Option<T> = None | Some(value: T) {
    /** The value when there is one, `default` otherwise. */
    function GetOr(default: T): (r: T)
      ensures this == Some(r) || (this == None && r == default)
    {
      match this
      case Some(v) => v
      case None => default
    }
  }

  /** An operation that either succeeds with a value or fails with an error (a thrown exception). */
  datatype Result<T, E> = Success(value: T) | Failure(error: E)

  /** An operation that either completes or fails with an error and returns nothing. */
  datatype Outcome<E> = Pass | Fail(error: E)
}
