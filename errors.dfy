/** Failure-carrying values shared by every module of the model. */
module Errors {

  datatype Option<+T> = None | Some(value: T) {
    function GetOr(default: T): T {
      match this
      case Some(v) => v
      case None => default
    }
  }

  /** What the core raises, as its caller sees it. */
  datatype Error =
    /** A `fastapi.HTTPException` raised by the code itself. */
    | HttpError(status: nat, detail: string)
    /** A request-model (pydantic) validation failure on one field; the framework answers 422. */
    | ValidationError(field: string)
    /**
      An ORM lookup (`Model.get`) that found no row. The code does not catch
      it; the ORM's exception handlers, installed on the application, answer
      it with a 404 carrying the exception's text.
    */
    | DoesNotExist(model: string)

  datatype Result<+T> = Ok(value: T) | Err(error: Error) {
    predicate IsFailure() {
      Err?
    }

    function PropagateFailure<U>(): Result<U>
      requires Err?
    {
      Err(error)
    }

    function Extract(): T
      requires Ok?
    {
      value
    }
  }

  const BadRequest: nat := 400
  const Unauthorized: nat := 401
  const NotFound: nat := 404

  function Min(a: int, b: int): int {
    if a <= b then a else b
  }

  function Max(a: int, b: int): int {
    if a >= b then a else b
  }
}
