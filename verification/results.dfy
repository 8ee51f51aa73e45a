/** Failure-compatible wrappers shared by the model: `Option` for lookups that may
    find nothing and `Result` for operations that may raise. */
module Results {

  datatype Option<+T> = None | Some(value: T)

  /** `Ok` carries a value; `Err` carries what the Python code would have raised. */
  datatype Result<+T, +E> = Ok(value: T) | Err(error: E) {

    predicate IsFailure() {
      Err?
    }

    function PropagateFailure<U>(): Result<U, E>
      requires Err?
    {
      Err(error)
    }

    function Extract(): T
      requires Ok?
    {
      value
    }
  }
}
