/** Option and Result values shared by the calendar conversion and the render planning. */
module Wrappers {

  /** A value that may be absent: JavaScript's `null` / `undefined` against a present value. */
  datatype Option<+T> = None | Some(value: T) {

    /** The present value, or `default` when there is none. */
    function GetOr(default: T): T {
      match this
      case Some(v) => v
      case None => default
    }
  }

  /** The outcome of an operation that can throw: a value, or the error it stopped with. */
  datatype Result<+R, +E> = Success(value: R) | Failure(error: E)
}
