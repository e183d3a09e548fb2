/** Option and Result, as the kernel's `Option` and `Result` return types. */
module Wrappers {
  datatype Option<+T> = None | Some(value: T)

  datatype Result<+T, +E> = Ok(value: T) | Err(error: E) {
    predicate IsFailure() {
      Err?
    }

    function PropagateFailure<U>(): Result<U, E>
      requires Err?
    {
      Err(error)
    }

    function Extract(): T
      requires Ok?
    {
      value
    }

    function MapErr<F>(f: E -> F): Result<T, F> {
      match this
      case Ok(v) => Ok(v)
      case Err(e) => Err(f(e))
    }
  }

  /** The success value of an operation that returns nothing. */
  datatype Unit = Unit
}
