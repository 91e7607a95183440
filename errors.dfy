/** The exception kinds the services throw, and a result type that carries them
    instead of throwing. The tests tell these kinds apart, so they stay distinct. */
module Errors {

  datatype Error =
    | KeyNotFound(message: string)        // KeyNotFoundException
    | Argument(message: string)           // ArgumentException
    | InvalidOperation(message: string)   // InvalidOperationException
    | Unauthorized(message: string)       // UnauthorizedAccessException

  datatype Result<+T> = Ok(value: T) | Err(error: Error) {
    predicate IsFailure() { Err? }

    function PropagateFailure<U>(): Result<U>
      requires Err?
    {
      Err(error)
    }

    function Extract(): T
      requires Ok?
    {
      value
    }
  }

  /** The result of an operation that returns nothing (a C# `void` method). */
  type Outcome = Result<()>

  const Done: Outcome := Ok(())

  datatype Option<+T> = None | Some(value: T)
}
