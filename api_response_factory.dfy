/** `ApiResponseFactory`: one builder, `ResponseBuild`, and twenty-two overloads that fill in
    defaults for it. The clock read `LocalDateTime.now()` is the parameter `now`; the
    request is its request URI, `None` for a null request. Java tells the overloads apart by
    their parameter types; here each has its own name, listing the parameters it takes. */
module ApiResponseFactory {
  import opened Wrappers
  import opened Http
  import opened Timestamps
  import opened ApiResponseModel

  /** The path reported when the response is built without a request. */
  const DefaultPath := "N/A"

  /** Java's `Void`, the payload type of the overloads that take no payload: it is only
      ever present as null. */
  datatype Void = Void

  /** The path a request contributes to the envelope. */
  function RequestPath(request: Option<string>): (path: string)
    ensures request.Some? ==> path == request.value
    ensures request.None? ==> path == DefaultPath
  {
    match request
    case Some(uri) => uri
    case None => DefaultPath
  }

  /** `r` is sent with `status`, and its body holds exactly these values. */
  ghost predicate IsEnvelope<T>(r: ResponseEntity<T>, success: bool, status: HttpStatus, message: Option<string>,
                          payload: Option<T>, path: string, now: LocalDateTime)
  {
    && r.status == status
    && r.body.statusCode == status
    && r.body.success == success
    && r.body.message == message
    && r.body.payload == payload
    && r.body.path == Some(path)
    && r.body.timestamp == Some(now)
  }

  /** `responseBuild`: the envelope reports the status it is sent with; `success` is the
      given flag, or whether the status lies in 200..299 when the flag is null; message and
      payload are copied, null included; the path is the request URI or "N/A". */
  function ResponseBuild<T>(status: HttpStatus, message: Option<string>, payload: Option<T>,
                            request: Option<string>, isSuccess: Option<bool>, now: LocalDateTime)
    : (r: ResponseEntity<T>)
    ensures r.status == status && r.body.statusCode == status
    ensures isSuccess.Some? ==> r.body.success == isSuccess.value
    ensures isSuccess.None? ==> (r.body.success <==> 200 <= status <= 299)
    ensures r.body.message == message && r.body.payload == payload
    ensures request.Some? ==> r.body.path == Some(request.value)
    ensures request.None? ==> r.body.path == Some(DefaultPath)
    ensures r.body.timestamp == Some(now)
  {
    var success := match isSuccess
      case Some(flag) => flag
      case None => Is2xxSuccessful(status);
    ResponseEntity(status, StandardApiResponse(payload, message, status, success, Some(RequestPath(request)), Some(now)))
  }

  // ---------------- success overloads: success is true whatever the status ----------------
  /** `success(...)` with custom status, message, payload and request. */
  function SuccessStatusMessagePayloadRequest<T>(status: HttpStatus, message: Option<string>,
                                                 payload: Option<T>, request: Option<string>, now: LocalDateTime)
    : (r: ResponseEntity<T>)
    ensures IsEnvelope(r, true, status, message, payload, RequestPath(request), now)
  {
    ResponseBuild(status, message, payload, request, Some(true), now)
  }

  /** `success(...)` with custom status, message and payload. */
  function SuccessStatusMessagePayload<T>(status: HttpStatus, message: Option<string>,
                                          payload: Option<T>, now: LocalDateTime)
    : (r: ResponseEntity<T>)
    ensures IsEnvelope(r, true, status, message, payload, DefaultPath, now)
  {
    ResponseBuild(status, message, payload, None, Some(true), now)
  }

  /** `success(...)` with custom status, message and request. */
  function SuccessStatusMessageRequest(status: HttpStatus, message: Option<string>,
                                       request: Option<string>, now: LocalDateTime)
    : (r: ResponseEntity<Void>)
    ensures IsEnvelope(r, true, status, message, None, RequestPath(request), now)
  {
    ResponseBuild(status, message, None, request, Some(true), now)
  }

  /** `success(...)` with custom status, payload and request. */
  function SuccessStatusPayloadRequest<T>(status: HttpStatus, payload: Option<T>,
                                          request: Option<string>, now: LocalDateTime)
    : (r: ResponseEntity<T>)
    ensures IsEnvelope(r, true, status, None, payload, RequestPath(request), now)
  {
    ResponseBuild(status, None, payload, request, Some(true), now)
  }

  /** `success(...)` with a custom message, payload and request; the status is 200. */
  function SuccessMessagePayloadRequest<T>(message: Option<string>, payload: Option<T>,
                                           request: Option<string>, now: LocalDateTime)
    : (r: ResponseEntity<T>)
    ensures IsEnvelope(r, true, OK, message, payload, RequestPath(request), now)
  {
    ResponseBuild(OK, message, payload, request, Some(true), now)
  }

  /** `success(...)` with custom status and message. */
  function SuccessStatusMessage<T>(status: HttpStatus, message: Option<string>, now: LocalDateTime)
    : (r: ResponseEntity<T>)
    ensures IsEnvelope(r, true, status, message, None, DefaultPath, now)
  {
    ResponseBuild(status, message, None, None, Some(true), now)
  }

  /** `success(...)` with custom status and payload. */
  function SuccessStatusPayload<T>(status: HttpStatus, payload: Option<T>, now: LocalDateTime)
    : (r: ResponseEntity<T>)
    ensures IsEnvelope(r, true, status, None, payload, DefaultPath, now)
  {
    ResponseBuild(status, None, payload, None, Some(true), now)
  }

  /** `success(...)` with custom status and request. */
  function SuccessStatusRequest<T>(status: HttpStatus, request: Option<string>, now: LocalDateTime)
    : (r: ResponseEntity<T>)
    ensures IsEnvelope(r, true, status, None, None, RequestPath(request), now)
  {
    ResponseBuild(status, None, None, request, Some(true), now)
  }

  /** `success(...)` with a custom message and payload; the status is 200. */
  function SuccessMessagePayload<T>(message: Option<string>, payload: Option<T>, now: LocalDateTime)
    : (r: ResponseEntity<T>)
    ensures IsEnvelope(r, true, OK, message, payload, DefaultPath, now)
  {
    ResponseBuild(OK, message, payload, None, Some(true), now)
  }

  /** `success(...)` with a custom message and request; the status is 200. */
  function SuccessMessageRequest(message: Option<string>, request: Option<string>,
                                 now: LocalDateTime)
    : (r: ResponseEntity<Void>)
    ensures IsEnvelope(r, true, OK, message, None, RequestPath(request), now)
  {
    ResponseBuild(OK, message, None, request, Some(true), now)
  }

  /** `success(...)` with a custom payload and request; the status is 200. */
  function SuccessPayloadRequest<T>(payload: Option<T>, request: Option<string>, now: LocalDateTime)
    : (r: ResponseEntity<T>)
    ensures IsEnvelope(r, true, OK, None, payload, RequestPath(request), now)
  {
    ResponseBuild(OK, None, payload, request, Some(true), now)
  }

  // ---------------- error overloads: success is false whatever the status ----------------
  /** `error(...)` with custom status, message, payload and request. */
  function ErrorStatusMessagePayloadRequest<T>(status: HttpStatus, message: Option<string>,
                                               payload: Option<T>, request: Option<string>, now: LocalDateTime)
    : (r: ResponseEntity<T>)
    ensures IsEnvelope(r, false, status, message, payload, RequestPath(request), now)
  {
    ResponseBuild(status, message, payload, request, Some(false), now)
  }

  /** `error(...)` with custom status, message and payload. */
  function ErrorStatusMessagePayload<T>(status: HttpStatus, message: Option<string>,
                                        payload: Option<T>, now: LocalDateTime)
    : (r: ResponseEntity<T>)
    ensures IsEnvelope(r, false, status, message, payload, DefaultPath, now)
  {
    ResponseBuild(status, message, payload, None, Some(false), now)
  }

  /** `error(...)` with custom status, message and request. */
  function ErrorStatusMessageRequest(status: HttpStatus, message: Option<string>,
                                     request: Option<string>, now: LocalDateTime)
    : (r: ResponseEntity<Void>)
    ensures IsEnvelope(r, false, status, message, None, RequestPath(request), now)
  {
    ResponseBuild(status, message, None, request, Some(false), now)
  }

  /** `error(...)` with custom status, payload and request. */
  function ErrorStatusPayloadRequest<T>(status: HttpStatus, payload: Option<T>,
                                        request: Option<string>, now: LocalDateTime)
    : (r: ResponseEntity<T>)
    ensures IsEnvelope(r, false, status, None, payload, RequestPath(request), now)
  {
    ResponseBuild(status, None, payload, request, Some(false), now)
  }

  /** `error(...)` with a custom message, payload and request; the status is 400. */
  function ErrorMessagePayloadRequest<T>(message: Option<string>, payload: Option<T>,
                                         request: Option<string>, now: LocalDateTime)
    : (r: ResponseEntity<T>)
    ensures IsEnvelope(r, false, BAD_REQUEST, message, payload, RequestPath(request), now)
  {
    ResponseBuild(BAD_REQUEST, message, payload, request, Some(false), now)
  }

  /** `error(...)` with custom status and message. */
  function ErrorStatusMessage<T>(status: HttpStatus, message: Option<string>, now: LocalDateTime)
    : (r: ResponseEntity<T>)
    ensures IsEnvelope(r, false, status, message, None, DefaultPath, now)
  {
    ResponseBuild(status, message, None, None, Some(false), now)
  }

  /** `error(...)` with custom status and payload. */
  function ErrorStatusPayload<T>(status: HttpStatus, payload: Option<T>, now: LocalDateTime)
    : (r: ResponseEntity<T>)
    ensures IsEnvelope(r, false, status, None, payload, DefaultPath, now)
  {
    ResponseBuild(status, None, payload, None, Some(false), now)
  }

  /** `error(...)` with custom status and request. */
  function ErrorStatusRequest<T>(status: HttpStatus, request: Option<string>, now: LocalDateTime)
    : (r: ResponseEntity<T>)
    ensures IsEnvelope(r, false, status, None, None, RequestPath(request), now)
  {
    ResponseBuild(status, None, None, request, Some(false), now)
  }

  /** `error(...)` with a custom message and payload; the status is 400. */
  function ErrorMessagePayload<T>(message: Option<string>, payload: Option<T>, now: LocalDateTime)
    : (r: ResponseEntity<T>)
    ensures IsEnvelope(r, false, BAD_REQUEST, message, payload, DefaultPath, now)
  {
    ResponseBuild(BAD_REQUEST, message, payload, None, Some(false), now)
  }

  /** `error(...)` with a custom message and request; the status is 400. */
  function ErrorMessageRequest(message: Option<string>, request: Option<string>, now: LocalDateTime)
    : (r: ResponseEntity<Void>)
    ensures IsEnvelope(r, false, BAD_REQUEST, message, None, RequestPath(request), now)
  {
    ResponseBuild(BAD_REQUEST, message, None, request, Some(false), now)
  }

  /** `error(...)` with a custom payload and request; the status is 400. */
  function ErrorPayloadRequest<T>(payload: Option<T>, request: Option<string>, now: LocalDateTime)
    : (r: ResponseEntity<T>)
    ensures IsEnvelope(r, false, BAD_REQUEST, None, payload, RequestPath(request), now)
  {
    ResponseBuild(BAD_REQUEST, None, payload, request, Some(false), now)
  }

  // ---------------- relations between the overloads ----------------

  /** `r` with its `success` flag turned to false. */
  function WithFailure<T>(r: ResponseEntity<T>): ResponseEntity<T> {
    r.(body := r.body.(success := false))
  }

  /** `r` with its `success` flag turned to false and sent, and reported, as 400. */
  function WithFailureAsBadRequest<T>(r: ResponseEntity<T>): ResponseEntity<T> {
    r.(status := BAD_REQUEST, body := r.body.(success := false, statusCode := BAD_REQUEST))
  }

  /** Among the overloads that take a status, a success overload and the error overload with
      the same arguments build the same response except for the `success` flag. */
  lemma SuccessAndErrorDifferOnlyInFlag<T>(status: HttpStatus, message: Option<string>, payload: Option<T>,
                                           request: Option<string>, now: LocalDateTime)
    ensures ErrorStatusMessagePayloadRequest(status, message, payload, request, now)
         == WithFailure(SuccessStatusMessagePayloadRequest(status, message, payload, request, now))
    ensures ErrorStatusMessagePayload(status, message, payload, now)
         == WithFailure(SuccessStatusMessagePayload(status, message, payload, now))
    ensures ErrorStatusMessageRequest(status, message, request, now)
         == WithFailure(SuccessStatusMessageRequest(status, message, request, now))
    ensures ErrorStatusPayloadRequest(status, payload, request, now)
         == WithFailure(SuccessStatusPayloadRequest(status, payload, request, now))
    ensures ErrorStatusMessage<T>(status, message, now)
         == WithFailure(SuccessStatusMessage<T>(status, message, now))
    ensures ErrorStatusPayload(status, payload, now)
         == WithFailure(SuccessStatusPayload(status, payload, now))
    ensures ErrorStatusRequest<T>(status, request, now)
         == WithFailure(SuccessStatusRequest<T>(status, request, now))
  {
  }

  /** Among the overloads without a status, the error overload also differs from the success
      one in its default status: 400 instead of 200. */
  lemma DefaultStatusesDiffer<T>(message: Option<string>, payload: Option<T>,
                                 request: Option<string>, now: LocalDateTime)
    ensures ErrorMessagePayloadRequest(message, payload, request, now)
         == WithFailureAsBadRequest(SuccessMessagePayloadRequest(message, payload, request, now))
    ensures ErrorMessagePayload(message, payload, now)
         == WithFailureAsBadRequest(SuccessMessagePayload(message, payload, now))
    ensures ErrorMessageRequest(message, request, now)
         == WithFailureAsBadRequest(SuccessMessageRequest(message, request, now))
    ensures ErrorPayloadRequest(payload, request, now)
         == WithFailureAsBadRequest(SuccessPayloadRequest(payload, request, now))
    ensures SuccessMessagePayload(message, payload, now).status
         != ErrorMessagePayload(message, payload, now).status
  {
  }

  /** Leaving `isSuccess` null agrees with the success overload on 2xx statuses and with the
      error overload on all others. */
  lemma InferredFlagMatchesOverloads<T>(status: HttpStatus, message: Option<string>, payload: Option<T>,
                                        request: Option<string>, now: LocalDateTime)
    ensures 200 <= status <= 299 ==>
      ResponseBuild(status, message, payload, request, None, now)
      == SuccessStatusMessagePayloadRequest(status, message, payload, request, now)
    ensures !(200 <= status <= 299) ==>
      ResponseBuild(status, message, payload, request, None, now)
      == ErrorStatusMessagePayloadRequest(status, message, payload, request, now)
  {
  }

  /** Every shorter overload is the four-argument one with null, or the default status,
      in place of what it omits. */
  lemma ShortOverloadsFillDefaults<T>(status: HttpStatus, message: Option<string>, payload: Option<T>,
                                      request: Option<string>, now: LocalDateTime)
    ensures SuccessStatusMessagePayload(status, message, payload, now)
         == SuccessStatusMessagePayloadRequest(status, message, payload, None, now)
    ensures SuccessStatusMessageRequest(status, message, request, now)
         == SuccessStatusMessagePayloadRequest<Void>(status, message, None, request, now)
    ensures SuccessStatusPayloadRequest(status, payload, request, now)
         == SuccessStatusMessagePayloadRequest(status, None, payload, request, now)
    ensures SuccessMessagePayloadRequest(message, payload, request, now)
         == SuccessStatusMessagePayloadRequest(OK, message, payload, request, now)
    ensures SuccessStatusMessage<T>(status, message, now)
         == SuccessStatusMessagePayloadRequest(status, message, None, None, now)
    ensures SuccessStatusPayload(status, payload, now)
         == SuccessStatusMessagePayloadRequest(status, None, payload, None, now)
    ensures SuccessStatusRequest<T>(status, request, now)
         == SuccessStatusMessagePayloadRequest(status, None, None, request, now)
    ensures SuccessMessagePayload(message, payload, now)
         == SuccessStatusMessagePayloadRequest(OK, message, payload, None, now)
    ensures SuccessMessageRequest(message, request, now)
         == SuccessStatusMessagePayloadRequest<Void>(OK, message, None, request, now)
    ensures SuccessPayloadRequest(payload, request, now)
         == SuccessStatusMessagePayloadRequest(OK, None, payload, request, now)
    ensures ErrorStatusMessagePayload(status, message, payload, now)
         == ErrorStatusMessagePayloadRequest(status, message, payload, None, now)
    ensures ErrorStatusMessageRequest(status, message, request, now)
         == ErrorStatusMessagePayloadRequest<Void>(status, message, None, request, now)
    ensures ErrorStatusPayloadRequest(status, payload, request, now)
         == ErrorStatusMessagePayloadRequest(status, None, payload, request, now)
    ensures ErrorMessagePayloadRequest(message, payload, request, now)
         == ErrorStatusMessagePayloadRequest(BAD_REQUEST, message, payload, request, now)
    ensures ErrorStatusMessage<T>(status, message, now)
         == ErrorStatusMessagePayloadRequest(status, message, None, None, now)
    ensures ErrorStatusPayload(status, payload, now)
         == ErrorStatusMessagePayloadRequest(status, None, payload, None, now)
    ensures ErrorStatusRequest<T>(status, request, now)
         == ErrorStatusMessagePayloadRequest(status, None, None, request, now)
    ensures ErrorMessagePayload(message, payload, now)
         == ErrorStatusMessagePayloadRequest(BAD_REQUEST, message, payload, None, now)
    ensures ErrorMessageRequest(message, request, now)
         == ErrorStatusMessagePayloadRequest<Void>(BAD_REQUEST, message, None, request, now)
    ensures ErrorPayloadRequest(payload, request, now)
         == ErrorStatusMessagePayloadRequest(BAD_REQUEST, None, payload, request, now)
  {
  }
}
