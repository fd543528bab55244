/** Success or refusal. A refusal stands for a thrown error: the database
    transaction that raised it leaves every table as it was. */
module Wrappers {
  datatype Option<+T> = None | Some(value: T)

  datatype Error =
    | BadRequest
    | Conflict
    | NotFound

  datatype Result<+T> = Ok(value: T) | Err(error: Error) {
    predicate IsFailure() { Err? }

    function PropagateFailure<U>(): Result<U>
      requires Err?
    {
      Err(error)
    }

    function Extract(): T
      requires Ok?
    {
      value
    }
  }

  /** The state after a transaction: the new one, or the old one when it was refused. */
  function OrElse<T>(r: Result<T>, before: T): T {
    if r.Ok? then r.value else before
  }

  function Require(condition: bool, error: Error): (r: Result<()>)
  {
    if condition then Ok(()) else Err(error)
  }
}
