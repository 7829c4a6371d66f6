/** Option, Result and Outcome: the failure-compatible types that carry the
    program's `?` early exits (used with `:-`). */
module Outcomes {

  datatype Option<+T> = None | Some(value: T)

  /** A value or an error; `:-` on it is Rust's `?`. */
  datatype Result<+T, +E> = Ok(value: T) | Err(error: E) {
    predicate IsFailure() { Err? }

    function PropagateFailure<U>(): Result<U, E>
      requires Err?
    {
      Err(error)
    }

    function Extract(): T
      requires Ok?
    {
      value
    }
  }

  /** The result of a runtime call that returns no value. */
  datatype Outcome<+E> = Pass | Fail(error: E) {
    predicate IsFailure() { Fail? }

    function PropagateFailure<U>(): Result<U, E>
      requires Fail?
    {
      Err(error)
    }
  }
}
