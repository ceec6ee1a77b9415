/** Option and Result, the latter usable with `:-` to propagate a Python exception. */
module Wrappers {

  datatype Option<+T> = None | Some(value: T)

  /** Success carries the value a Python expression produced; Failure the exception it raised. */
  datatype Result<+T, +E> = Success(value: T) | Failure(error: E) {

    predicate IsFailure() {
      Failure?
    }

    function PropagateFailure<U>(): Result<U, E>
      requires Failure?
    {
      Failure(error)
    }

    function Extract(): T
      requires Success?
    {
      value
    }
  }
}
