/** The exceptions that travel through the request pipeline, one constructor
    per Java exception class the handlers tell apart, and the outcome of a
    call that may throw. */
module Exceptions {
  import opened Values

  datatype Exception =
    | IllegalArgument(message: Option<string>)
    | ConstraintViolation(message: Option<string>)
    | NullPointer(message: Option<string>)
      /** `MethodArgumentTypeMismatchException` for the named request parameter */
    | TypeMismatch(name: string)
      /** `MissingServletRequestParameterException` for the named request parameter */
    | MissingParameter(parameterName: string)
      /** the domain's `NotFoundException` */
    | NotFound(message: Option<string>)
      /** the domain's `ServiceUnavailableException` */
    | ServiceUnavailable(message: Option<string>)
      /** `CallNotPermittedException`, raised by an open circuit breaker */
    | CallNotPermitted
      /** any other runtime failure: a broken database connection, a cache backend error, ... */
    | Technical(message: Option<string>)

  /** A call either returns a value or throws. */
  datatype Result<+T> = Ok(value: T) | Err(error: Exception)
}
