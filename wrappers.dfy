/** Optional values and results of operations that may fail. */
module Wrappers {

  /** A value that may be missing: an unset message field, an absent map key. */
  datatype Option<+T> = None | Some(value: T)

  /**
   * The outcome of a call that either returns a value or throws an error.
   * Failure-compatible: `var x :- call;` stops at the first failure and passes it on.
   */
  datatype Result<+T, +E> = Success(value: T) | Failure(error: E)
  {
    predicate IsFailure() {
      Failure?
    }

    function PropagateFailure<U>(): Result<U, E>
      requires Failure?
    {
      Failure(error)
    }

    function Extract(): T
      requires Success?
    {
      value
    }
  }
}
