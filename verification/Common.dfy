// Failure-compatible results shared by every component.
module Common {

  datatype Option<+T> = None | Some(value: T)

  /** The outcome of an operation that the program reports through an error value. */
  datatype Result<+T, +E> = Ok(value: T) | Err(error: E) {
    predicate IsFailure() {
      Err?
    }

    function PropagateFailure<U>(): Result<U, E>
      requires Err?
    {
      Err(error)
    }

    function Extract(): T
      requires Ok?
    {
      value
    }
  }
}
