/** Optional values and results with an error, usable with `:-`. */
module Wrappers {

  /** Kotlin's nullable `T?`: None stands for null. */
  datatype Option<+T> = None | Some(value: T)

  /** The outcome of a call that may throw: Failure carries the exception. */
  datatype Result<+T, +E> = Success(value: T) | Failure(error: E) {

    predicate IsFailure() {
      Failure?
    }

    function PropagateFailure<U>(): Result<U, E>
      requires Failure?
    {
      Failure(error)
    }

    function Extract(): T
      requires Success?
    {
      value
    }
  }
}
