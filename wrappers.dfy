/** Failure-compatible result types used for the service's thrown errors. */
module Wrappers {

  datatype Option<+T> = None | Some(value: T)

  /** A value or the error a stage threw; usable with `:-`, which re-throws verbatim. */
  datatype Result<+T, +E> = Success(value: T) | Failure(error: E) {

    predicate IsFailure() {
      Failure?
    }

    function PropagateFailure<U>(): Result<U, E>
      requires Failure?
    {
      Failure(error)
    }

    function Extract(): T
      requires Success?
    {
      value
    }
  }
}
