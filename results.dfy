/** Option and Result, the error channel of the model.  `Result` is failure-compatible,
    so a chain of fallible steps reads `var x :- Step(...);` as in Python
    straight-line code where any step may raise. */
module Results {

  datatype Option<+T> = None | Some(value: T)

  datatype Result<+T, +E> = Ok(value: T) | Err(error: E) {

    predicate IsFailure() {
      Err?
    }

    function PropagateFailure<U>(): Result<U, E>
      requires Err?
    {
      Err(error)
    }

    function Extract(): T
      requires Ok?
    {
      value
    }
  }
}
