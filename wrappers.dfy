/** The optional-value datatype used throughout the model for a value that may be absent
    (Python's None, a missing dictionary key, JavaScript's undefined), and a result type. */
module Wrappers {
  datatype Option<+T> = None | Some(value: T) {
    function GetOr(default: T): T {
      match this
      case Some(v) => v
      case None => default
    }
  }

  /** The outcome of an operation that can fail with an error value. */
  datatype Result<+T, +E> = Success(value: T) | Failure(error: E)
}
