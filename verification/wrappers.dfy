/** Failure-compatible wrappers used to model Python's missing keys and raised errors. */
module Wrappers {

  /** A value that may be absent, as a dictionary key that may be missing. */
  datatype Option<+T> = None | Some(value: T)

  /** Either a value or the error the Python code would raise instead. */
  datatype Result<+R, +E> = Success(value: R) | Failure(error: E) {

    predicate IsFailure() {
      Failure?
    }

    function PropagateFailure<U>(): Result<U, E>
      requires Failure?
    {
      Failure(error)
    }

    function Extract(): R
      requires Success?
    {
      value
    }
  }
}
