/** Option and Result, and the exceptions of the modelled program. */
module Wrappers {

  datatype Option<+T> = None | Some(value: T)

  /** The Python exceptions the modelled code can raise, by class. */
  datatype Error =
    | KeyError(key: string)
    | ValueError(msg: string)
    | TypeError(msg: string)
    | IndexError(msg: string)
    | ZeroDivisionError
    | AttributeError(name: string)

  /** A value, or the exception that interrupted its computation. */
  datatype Result<+T> = Ok(value: T) | Err(error: Error) {

    predicate IsFailure() {
      Err?
    }

    function PropagateFailure<U>(): Result<U>
      requires Err?
    {
      Err(error)
    }

    function Extract(): T
      requires Ok?
    {
      value
    }
  }
}
