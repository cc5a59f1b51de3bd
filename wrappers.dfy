/** Failure-compatible wrappers shared by every module: an optional value and the
    result of an operation that can raise one of the exceptions the simulator uses. */
module Wrappers {

  datatype Option<+T> = None | Some(value: T)

  /** The Python exception classes raised by the modelled code. */
  datatype Error = ValueError | TypeError | KeyError | AttributeError | ZeroDivisionError

  datatype Result<+T> = Ok(value: T) | Err(error: Error) {
    predicate IsFailure() { Err? }

    function PropagateFailure<U>(): Result<U>
      requires Err?
    {
      Err(error)
    }

    function Extract(): T
      requires Ok?
    {
      value
    }
  }
}
