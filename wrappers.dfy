/** Option and Result: Python's None and raised exceptions, as values. */
module Wrappers {

  /** A value that may be Python's None. */
  datatype Option<+T> = None | Some(value: T)

  /** The outcome of an operation that may raise: the value, or the exception's message. */
  datatype Result<+T> = Success(value: T) | Failure(error: string) {

    predicate IsFailure() {
      Failure?
    }

    function PropagateFailure<U>(): Result<U>
      requires Failure?
    {
      Failure(error)
    }

    function Extract(): T
      requires Success?
    {
      value
    }
  }
}
