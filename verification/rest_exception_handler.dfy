/** `RestExceptionHandler`: every exception that leaves the controller becomes
    an error response and exactly one metric. Spring picks the handler
    declared for the most specific exception class; `Handle` is that choice. */
module RestExceptionHandler {
  import opened Values
  import opened Exceptions
  import M = Monitoring

  /** An `HttpStatus`: its code and its reason phrase. */
  datatype HttpStatus = HttpStatus(code: int, reasonPhrase: string)

  const OK := HttpStatus(200, "OK")
  const BAD_REQUEST := HttpStatus(400, "Bad Request")
  const NOT_FOUND := HttpStatus(404, "Not Found")
  const INTERNAL_SERVER_ERROR := HttpStatus(500, "Internal Server Error")
  const SERVICE_UNAVAILABLE := HttpStatus(503, "Service Unavailable")

  /** The fixed messages of `ErrorMessage`. */
  datatype ErrorMessage = PriceNotFound | InternalError {
    function Message(): string {
      match this
      case PriceNotFound => "Price not found"
      case InternalError => "Internal error"
    }
  }

  const INVALID_REQUEST_DATA := "Invalid request data"

  /** The JSON error body. */
  datatype ErrorResponse = ErrorResponse(status: int, error: string, message: Option<string>)

  /** A `ResponseEntity<ErrorResponse>`. */
  datatype ErrorEntity = ErrorEntity(body: ErrorResponse, status: HttpStatus)

  /** What a handler produces: the response and the metric it recorded. */
  datatype Handled = Handled(response: ErrorEntity, metric: M.MetricsType)

  /** `buildResponse`: the body repeats the status code and its reason phrase. */
  function BuildResponse(status: HttpStatus, message: Option<string>): (r: ErrorEntity)
    ensures r.status == status
    ensures r.body.status == status.code && r.body.error == status.reasonPhrase
    ensures r.body.message == message
  {
    ErrorEntity(ErrorResponse(status.code, status.reasonPhrase, message), status)
  }

  /** A bad request (illegal argument, constraint violation, null pointer):
      400 with the exception's message, or a default one when it has none. */
  function HandleGeneralBadRequest(exMessage: Option<string>): (h: Handled)
    ensures h.response.status == BAD_REQUEST && h.metric == M.BadRequest
    ensures exMessage.Some? ==> h.response.body.message == exMessage
    ensures exMessage.None? ==> h.response.body.message == Some(INVALID_REQUEST_DATA)
  {
    var message := if exMessage.Some? then exMessage.value else INVALID_REQUEST_DATA;
    Handled(BuildResponse(BAD_REQUEST, Some(message)), M.BadRequest)
  }

  /** A parameter that could not be converted: 400 naming the parameter. */
  function HandleTypeMismatch(name: string): (h: Handled)
    ensures h.response.status == BAD_REQUEST && h.metric == M.BadRequest
    ensures h.response.body.message == Some("Parameter '" + name + "' has an invalid value")
  {
    Handled(BuildResponse(BAD_REQUEST, Some("Parameter '" + name + "' has an invalid value")), M.BadRequest)
  }

  /** A required parameter that is missing: 400 naming the parameter. */
  function HandleMissingParam(parameterName: string): (h: Handled)
    ensures h.response.status == BAD_REQUEST && h.metric == M.BadRequest
    ensures h.response.body.message == Some("Required parameter is missing: " + parameterName)
  {
    Handled(BuildResponse(BAD_REQUEST, Some("Required parameter is missing: " + parameterName)), M.BadRequest)
  }

  /** No price: 404 with the fixed message, whatever the exception says. */
  function HandleNotFound(message: Option<string>): (h: Handled)
    ensures h.response.status == NOT_FOUND && h.metric == M.NotFound
    ensures h.response.body.message == Some(PriceNotFound.Message())
  {
    Handled(BuildResponse(NOT_FOUND, Some(PriceNotFound.Message())), M.NotFound)
  }

  /** The store is unavailable: 503 with the exception's own message. */
  function HandleServiceUnavailable(message: Option<string>): (h: Handled)
    ensures h.response.status == SERVICE_UNAVAILABLE && h.metric == M.Error
    ensures h.response.body.message == message
  {
    Handled(BuildResponse(SERVICE_UNAVAILABLE, message), M.Error)
  }

  /** Anything else: 500 with the fixed message. */
  function HandleGeneric(): (h: Handled)
    ensures h.response.status == INTERNAL_SERVER_ERROR && h.metric == M.Error
    ensures h.response.body.message == Some(InternalError.Message())
  {
    Handled(BuildResponse(INTERNAL_SERVER_ERROR, Some(InternalError.Message())), M.Error)
  }

  /** The handler Spring selects for an exception. */
  function Handle(ex: Exception): (h: Handled)
    // every response is an error response whose body agrees with its status
    ensures h.response.body.status == h.response.status.code
    ensures h.response.body.error == h.response.status.reasonPhrase
    ensures h.response.status in {BAD_REQUEST, NOT_FOUND, SERVICE_UNAVAILABLE, INTERNAL_SERVER_ERROR}
    // the metric is a terminal one other than SUCCESS, and tells the status apart
    ensures h.metric.IsTerminal() && !h.metric.Success?
    ensures h.metric == M.BadRequest <==> h.response.status == BAD_REQUEST
    ensures h.metric == M.NotFound <==> h.response.status == NOT_FOUND
    ensures h.metric == M.Error <==> h.response.status.code >= 500
    // which exceptions land where
    ensures h.response.status == BAD_REQUEST <==>
              ex.IllegalArgument? || ex.ConstraintViolation? || ex.NullPointer? ||
              ex.TypeMismatch? || ex.MissingParameter?
    ensures h.response.status == NOT_FOUND <==> ex.NotFound?
    ensures h.response.status == SERVICE_UNAVAILABLE <==> ex.ServiceUnavailable?
    ensures ex.IllegalArgument? || ex.ConstraintViolation? || ex.NullPointer? ==>
              h.response.body.message == (if ex.message.Some? then ex.message else Some(INVALID_REQUEST_DATA))
    ensures ex.TypeMismatch? ==> h.response.body.message == Some("Parameter '" + ex.name + "' has an invalid value")
    ensures ex.MissingParameter? ==> h.response.body.message == Some("Required parameter is missing: " + ex.parameterName)
    ensures ex.ServiceUnavailable? ==> h.response.body.message == ex.message
    ensures ex.NotFound? ==> h.response.body.message == Some("Price not found")
    ensures ex.CallNotPermitted? || ex.Technical? ==> h.response.body.message == Some("Internal error")
  {
    match ex
    case IllegalArgument(message) => HandleGeneralBadRequest(message)
    case ConstraintViolation(message) => HandleGeneralBadRequest(message)
    case NullPointer(message) => HandleGeneralBadRequest(message)
    case TypeMismatch(name) => HandleTypeMismatch(name)
    case MissingParameter(parameterName) => HandleMissingParam(parameterName)
    case NotFound(message) => HandleNotFound(message)
    case ServiceUnavailable(message) => HandleServiceUnavailable(message)
    case CallNotPermitted => HandleGeneric()
    case Technical(_) => HandleGeneric()
  }
}
