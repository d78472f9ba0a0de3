/** Optional values and the failure-carrying result of every service call.
    The error kinds mirror the exception classes the services throw. */
module Results {

  /** A nullable reference or value (`string?`, `int?`) */
  datatype Option<+T> = None | Some(value: T) {
    function GetOr(default: T): T {
      match this
      case Some(v) => v
      case None => default
    }
  }

  /** The exception classes thrown by the services, each with its message */
  datatype Error =
    | KeyNotFound(message: string)        // KeyNotFoundException
    | InvalidOperation(message: string)   // InvalidOperationException
    | Argument(message: string)           // ArgumentException
    | General(message: string)            // plain Exception

  datatype Result<+T> = Ok(value: T) | Err(error: Error) {
    predicate IsFailure() {
      Err?
    }

    function PropagateFailure<U>(): Result<U>
      requires Err?
    {
      Err(error)
    }

    function Extract(): T
      requires Ok?
    {
      value
    }
  }
}
