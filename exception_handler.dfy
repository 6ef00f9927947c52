/** `GlobalExceptionHandler`: every fault that leaves a request handler becomes exactly one
    error envelope. Spring sends a `BaseException` (or subclass) to `handleBaseException`
    and every other exception to `handleGenericException`; the two constructors of `Fault`
    stand for those two routes. */
module ExceptionHandler {
  import opened Wrappers
  import opened Http
  import opened Timestamps
  import opened ApiResponseModel
  import opened ApiResponseFactory
  import opened Exceptions

  datatype Fault =
    | Raised(exception: BaseException)
    | Unclassified(message: Option<string>)   // any other exception, by its `getMessage()`

  const InternalServerError := "Internal server error"

  /** The fault's `getMessage()` used as an `Object` payload. */
  function MessagePayload(message: Option<string>): (p: Option<JavaObject>)
    ensures p.None? <==> message.None?
    ensures message.Some? ==> p == Some(JString(message.value))
  {
    match message
    case None => None
    case Some(text) => Some(JString(text))
  }

  /** `handleBaseException`: the exception's status, message and debug payload, marked as a
      failure, at the request's path. The error code is not used. */
  function HandleBaseException(ex: BaseException, request: string, now: LocalDateTime)
    : (r: ResponseEntity<JavaObject>)
    ensures IsEnvelope(r, false, ex.status, ex.message, ex.debugInfo, request, now)
  {
    ErrorStatusMessagePayloadRequest(ex.status, ex.message, ex.debugInfo, Some(request), now)
  }

  /** `handleGenericException`: a fixed message with the fault's own message as payload.
      The overload it calls takes no status and so uses 400, not 500. */
  function HandleGenericException(message: Option<string>, request: string, now: LocalDateTime)
    : (r: ResponseEntity<JavaObject>)
    ensures IsEnvelope(r, false, BAD_REQUEST, Some(InternalServerError), MessagePayload(message), request, now)
  {
    ErrorMessagePayloadRequest(Some(InternalServerError), MessagePayload(message), Some(request), now)
  }

  /** The two handlers as one match over the fault. */
  function Translate(fault: Fault, request: string, now: LocalDateTime): (r: ResponseEntity<JavaObject>)
    ensures !r.body.success
    ensures r.status == r.body.statusCode
    ensures r.body.path == Some(request) && r.body.timestamp == Some(now)
    ensures fault.Raised? ==>
      && r.status == fault.exception.status
      && r.body.message == fault.exception.message
      && r.body.payload == fault.exception.debugInfo
    ensures fault.Unclassified? ==>
      && r.status == 400
      && r.body.message == Some("Internal server error")
      && r.body.payload == MessagePayload(fault.message)
  {
    match fault
    case Raised(ex) => HandleBaseException(ex, request, now)
    case Unclassified(message) => HandleGenericException(message, request, now)
  }

  /** Two exceptions that differ only in their error code translate alike. */
  lemma TranslationIgnoresErrorCode(ex: BaseException, code: Option<string>, request: string, now: LocalDateTime)
    ensures Translate(Raised(ex.(errorCode := code)), request, now) == Translate(Raised(ex), request, now)
  {
  }

  /** An exception of a subclass reaches the client with its kind's status, its message and
      no payload. */
  lemma TaxonomyEnvelope(kind: ErrorKind, message: Option<string>, request: string, now: LocalDateTime)
    ensures var r := Translate(Raised(Raise(kind, message)), request, now);
      && r.status == KindStatus(kind)
      && r.body == StandardApiResponse(None, message, KindStatus(kind), false, Some(request), Some(now))
  {
  }

  /** `ResourceNotFoundException("User 7 not found")` at `/api/users/7`. */
  lemma NotFoundScenario(now: LocalDateTime)
    ensures Translate(Raised(ResourceNotFoundException(Some("User 7 not found"))), "/api/users/7", now)
         == ResponseEntity(404, StandardApiResponse(None, Some("User 7 not found"), 404, false, Some("/api/users/7"), Some(now)))
  {
  }

  /** A fault with message "npe" at `/api/orders`: status 400 with the raw message as payload. */
  lemma UnclassifiedScenario(now: LocalDateTime)
    ensures Translate(Unclassified(Some("npe")), "/api/orders", now)
         == ResponseEntity(400, StandardApiResponse(Some(JString("npe")), Some("Internal server error"), 400, false, Some("/api/orders"), Some(now)))
  {
  }
}
