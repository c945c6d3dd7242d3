/** Option and Result, the failure-compatible wrappers the rest of the model uses. */
module Wrappers {

  /** A Java reference that may be null (`None`), or an optional value. */
  datatype Option<+T> = None | Some(value: T)

  /** A computation that either yields a value or raises a failure. */
  datatype Result<+T, +E> = Ok(value: T) | Err(error: E) {
    predicate IsFailure() { Err? }

    function PropagateFailure<U>(): Result<U, E>
      requires Err?
    {
      Err(error)
    }

    function Extract(): T
      requires Ok?
    {
      value
    }
  }
}
