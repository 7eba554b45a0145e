/** Failure-compatible wrappers shared by the driver and the cleaning step:
    a Python exception raised by a lookup becomes an `Err`, and `:-` stops
    the computation at the first one, as the exception would. */
module Results {

  datatype Option<+T> = None | Some(value: T)

  datatype Result<+T, +E> = Ok(value: T) | Err(error: E) {

    predicate IsFailure() {
      Err?
    }

    function PropagateFailure<U>(): Result<U, E>
      requires Err?
    {
      Err(error)
    }

    function Extract(): T
      requires Ok?
    {
      value
    }
  }
}
