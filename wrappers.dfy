/** Option, Result and Outcome: the shapes Rust's Option<T>, Result<T, E> and
    "success or an error" take in this model. */
module Wrappers {

  datatype Option<+T> = None | Some(value: T) {
    /** Option::unwrap_or / unwrap_or_default */
    function UnwrapOr(default: T): T {
      match this
      case Some(v) => v
      case None => default
    }
  }

  datatype Result<+T, +E> = Success(value: T) | Failure(error: E)

  /** The outcome of a step that yields nothing but may fail, e.g. a file write. */
  datatype Outcome<+E> = Pass | Fail(error: E)
}
