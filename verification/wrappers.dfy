/** Option and Result types shared by the other modules. */
module Wrappers {

  /** A value that may be absent: a configuration key left out of the document. */
  datatype Option<+T> = None | Some(value: T) {

    /** The carried value, or `default` when there is none. */
    function GetOr(default: T): T
    {
      match this
      case Some(v) => v
      case None => default
    }
  }

  /** The outcome of a step that can fail with an error value. */
  datatype Result<+R, +E> = Success(value: R) | Failure(error: E)
}
