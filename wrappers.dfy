/** Failure-compatible wrappers shared by every module of the model. */
module Wrappers {

  /** An optional value: JavaScript's NaN/undefined, a missing file, an absent key. */
  datatype Option<+T> = None | Some(value: T)

  /** The outcome of an operation that the source lets raise an exception. */
  datatype Result<+T, +E> = Ok(value: T) | Err(error: E) {

    predicate IsFailure() {
      Err?
    }

    function PropagateFailure<U>(): Result<U, E>
      requires Err?
    {
      Err(error)
    }

    function Extract(): T
      requires Ok?
    {
      value
    }
  }
}
