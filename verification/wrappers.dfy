/** Failure-compatible result types shared by every module of the model. */
module Wrappers {

  /** An optional value: Go's `(value, ok)` or `(value, err)` pair where the error carries nothing. */
  datatype Option<+T> = None | Some(value: T)

  /** A value or an error: Go's `(value, error)` return pair. */
  datatype Result<+T, +E> = Success(value: T) | Failure(error: E) {

    predicate IsFailure() {
      Failure?
    }

    function PropagateFailure<U>(): Result<U, E>
      requires Failure?
    {
      Failure(error)
    }

    function Extract(): T
      requires Success?
    {
      value
    }
  }
}
