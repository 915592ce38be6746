/** Failure-compatible result types shared by every module of the model. */
module Wrappers {

  /** An optional value: `None` stands for a value that could not be produced. */
  datatype Option<+T> = None | Some(value: T)

  /** The outcome of a step that may abort the run with an error. */
  datatype Result<+T, +E> = Success(value: T) | Failure(error: E) {

    predicate IsFailure() {
      Failure?
    }

    function PropagateFailure<U>(): Result<U, E>
      requires Failure?
    {
      Failure(error)
    }

    function Extract(): T
      requires Success?
    {
      value
    }
  }
}
