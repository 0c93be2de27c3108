/** Optional values (Python's `Optional[...]`, with `None`) and results that
    either carry a value or the exception a call raises. */
module Wrappers {

  /** A value that may be absent: `None` is Python's `None`. */
  datatype Option<+T> = None | Some(value: T)

  /** The outcome of a call that may raise: `Err` carries the exception. */
  datatype Result<+T, +E> = Ok(value: T) | Err(error: E) {

    predicate IsFailure() {
      Err?
    }

    function PropagateFailure<U>(): Result<U, E>
      requires Err?
    {
      Err(error)
    }

    function Extract(): T
      requires Ok?
    {
      value
    }
  }
}
