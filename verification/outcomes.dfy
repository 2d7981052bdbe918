/** The two shapes of "maybe a value" used across the model. */
module Outcomes {

  datatype Option<+T> = None | Some(value: T)

  /** What a step that may raise produced: its value, or the text of the
      exception it raised (what Python's `str(e)` shows). Failure-compatible,
      so a sequence of such steps reads like the body of a `try` block. */
  datatype Outcome<+T> = Ok(value: T) | Err(msg: string) {

    predicate IsFailure() {
      Err?
    }

    function PropagateFailure<U>(): Outcome<U>
      requires Err?
    {
      Err(msg)
    }

    function Extract(): T
      requires Ok?
    {
      value
    }
  }
}
