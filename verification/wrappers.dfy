/** Option and Result, the two failure-carrying shapes the model needs. */
module Wrappers {

  /** A JavaScript value that may be `undefined`. */
  datatype Option<+T> = None | Some(value: T) {

    /** The wrapped value, or `default` when there is none. */
    function GetOr(default: T): T {
      if Some? then value else default
    }
  }

  /** An operation that either succeeds with a value or fails with an error. */
  datatype Result<+R, +E> = Success(value: R) | Failure(error: E)
}
