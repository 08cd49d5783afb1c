/**
  The exceptions the services throw, as values: the HTTP status they map to and
  the `details` list of `{ field, message }` pairs some of them carry.
 */
module Failures {

  datatype FieldError = FieldError(field: string, message: string)

  datatype Failure =
    | BadRequest(details: seq<FieldError>)  // 400, "Validation failed"
    | Conflict(message: string, details: seq<FieldError>)  // 409
    | NotFound(message: string)             // 404
    | Forbidden(message: string)            // 403
    | Unauthorized(message: string)         // 401
    | Rejected(message: string)             // 400 with a plain message and no details
    | StorageError(message: string)         // a write the database refuses

  datatype Result<T> = Ok(value: T) | Fail(failure: Failure)

  /** `e?.response?.details`, empty when the exception carries none. */
  function Details(f: Failure): seq<FieldError>
  {
    match f
    case BadRequest(d) => d
    case Conflict(_, d) => d
    case _ => []
  }

  /** `e?.message`: the text the exception was thrown with. */
  function MessageOf(f: Failure): string
  {
    match f
    case BadRequest(_) => "Validation failed"
    case Conflict(m, _) => m
    case NotFound(m) => m
    case Forbidden(m) => m
    case Unauthorized(m) => m
    case Rejected(m) => m
    case StorageError(m) => m
  }

  function Invalid(field: string, message: string): Failure
  {
    BadRequest([FieldError(field, message)])
  }
}
