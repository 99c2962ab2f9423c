/** Option and Result values shared by every module of the model. */
module Wrappers {

  /** A value that may be absent (Python's None, JavaScript's undefined/null). */
  datatype Option<+T> = None | Some(value: T) {
    function GetOr(default: T): T {
      match this
      case Some(v) => v
      case None => default
    }
  }

  /** The outcome of a Python call: a value, or an exception that propagates to the caller.
      The error text names the exception (and its message where the program fixes one). */
  datatype Result<+T> = Ok(value: T) | Raised(error: string) {
    predicate IsFailure() {
      Raised?
    }

    function PropagateFailure<U>(): Result<U>
      requires Raised?
    {
      Raised(error)
    }

    function Extract(): T
      requires Ok?
    {
      value
    }
  }
}
