/** Option for Python's Optional values, and Result/Outcome for Python calls that may raise. */
module Wrappers {

  datatype Option<+T> = None | Some(value: T)

  /** What a Python call that returns a value comes to: the value, or an exception whose
      str() is `message`. Failure-compatible, so `:-` propagates the exception. */
  datatype Result<+T> = Ok(value: T) | Raise(message: string) {

    predicate IsFailure() {
      Raise?
    }

    function PropagateFailure<U>(): Result<U>
      requires Raise?
    {
      Raise(message)
    }

    function Extract(): T
      requires Ok?
    {
      value
    }
  }

  /** What a Python procedure that works by side effect comes to: it returned, or it raised. */
  datatype Outcome = Returned | Raised(message: string)
}
