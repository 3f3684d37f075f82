/** Option and Result, the failure-compatible wrappers used for the scripts' error paths. */
module Wrappers {

  datatype Option<+T> = None | Some(value: T)

  /** A value, or the exception that the scripts would raise instead. */
  datatype Result<+T, +E> = Success(value: T) | Failure(error: E) {

    predicate IsFailure() {
      Failure?
    }

    function PropagateFailure<U>(): Result<U, E>
      requires Failure?
    {
      Failure(error)
    }

    function Extract(): T
      requires Success?
    {
      value
    }
  }
}
