/**
  Errors raised by the business and data layers, and the wrappers the model
  uses in place of `undefined`, thrown exceptions and `Promise<void>`.
 */
module Errors {

  /** `T | undefined` */
  datatype Option<+T> = None | Some(value: T) {
    function GetOr(default: T): T {
      match this
      case Some(v) => v
      case None => default
    }
  }

  /** The error classes the core throws. */
  datatype Error =
    | InvalidParameter(message: string)  // src/error/InvalidParameterError
    | Unauthorized(message: string)      // src/error/UnauthorizedError (not part of this model)
    | NotFound(message: string)          // src/error/NotFoundError (not part of this model)
    | InternalServer(message: string)    // src/error/InternalServerError
    | Generic(message: string)           // src/error/GenericError
    | Untyped(message: string)           // thrown by a library or the runtime; carries no status code

  /** The value of an awaited call, or the error it threw. */
  datatype Result<+T> = Ok(value: T) | Err(error: Error) {
    predicate IsFailure() { Err? }
    function PropagateFailure<U>(): Result<U>
      requires Err?
    {
      Err(error)
    }
    function Extract(): T
      requires Ok?
    {
      value
    }
  }

  /** An awaited call that returns nothing (`Promise<void>`), or the error it threw. */
  datatype Outcome = Pass | Fail(error: Error)

  /**
    The status code an error object carries, where this model fixes it: the
    codes of UnauthorizedError and NotFoundError are not part of this model, and
    an `Untyped` error carries none.
   */
  function StatusCode(e: Error): (code: Option<nat>)
    ensures e.InvalidParameter? ==> code == Some(422)
    ensures e.InternalServer? ==> code == Some(500)
    ensures e.Generic? ==> code == Some(400)
    ensures code.Some? <==> e.InvalidParameter? || e.InternalServer? || e.Generic?
  {
    match e
    case InvalidParameter(_) => Some(422)
    case InternalServer(_) => Some(500)
    case Generic(_) => Some(400)
    case _ => None
  }
}
