/** Values shared by every service: record ids, the optional/failable
    wrappers that stand in for `null` and for thrown HTTP exceptions. */
module Common {

  /** Primary keys are database-generated uuid strings. */
  type Id = string

  /** `T | null` (a query that finds nothing), or an optional DTO field. */
  datatype Option<+T> = None | Some(value: T)

  /** The HTTP exceptions the services throw. `HttpException(msg,
      HttpStatus.BAD_REQUEST)` and `BadRequestException(msg)` both answer
      400 with the message, and both become `BadRequest` here. Their
      response bodies differ (the latter adds `error: "Bad Request"`); that
      field is not modelled. */
  datatype HttpError =
    | BadRequest(message: string)
    | Forbidden

  /** A service call either resolves with a value or throws an HTTP error. */
  datatype Result<+T> = Ok(value: T) | Err(error: HttpError)
}
