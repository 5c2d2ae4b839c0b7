/** Failure-compatible result types shared by every module of the model. */
module Wrappers {

  /** A Go pointer or interface value that may be nil. */
  datatype Option<+T> = None | Some(value: T)

  /** A Go `(value, error)` pair: exactly one of the two is meaningful. */
  datatype Result<+T, +E> = Success(value: T) | Failure(error: E) {
    predicate IsFailure() { Failure? }

    function PropagateFailure<U>(): Result<U, E>
      requires Failure?
    {
      Failure(error)
    }

    function Extract(): T
      requires Success?
    {
      value
    }
  }

  /** A Go `error` return value: nil (Pass) or an error (Fail). */
  datatype Outcome<+E> = Pass | Fail(error: E)
}
