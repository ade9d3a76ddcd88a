/** Failure-carrying result types shared by the model. */
module Wrappers {

  /** A value that may be missing: a dictionary key that is absent, an optional argument. */
  datatype Option<+T> = None | Some(value: T)

  /** Either a computed value or the exception the Python code would raise instead. */
  datatype Result<+R, +E> = Success(value: R) | Failure(error: E) {
    predicate IsFailure() {
      Failure?
    }

    function PropagateFailure<U>(): Result<U, E>
      requires Failure?
    {
      Failure(error)
    }

    function Extract(): R
      requires Success?
    {
      value
    }
  }
}
