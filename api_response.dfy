/** `StandardApiResponse`, the envelope every endpoint returns, and the part of Spring's
    `ResponseEntity` that carries it. */
module ApiResponseModel {
  import opened Wrappers
  import opened Http
  import opened Timestamps

  /** The six final fields, set once by the builder and never changed: `statusCode` and
      `success` are primitives, the other four may be null. */
  datatype StandardApiResponse<T> = StandardApiResponse(
    payload: Option<T>,
    message: Option<string>,
    statusCode: int,
    success: bool,
    path: Option<string>,
    timestamp: Option<LocalDateTime>)

  /** The HTTP status the response is sent with, and its body. */
  datatype ResponseEntity<T> = ResponseEntity(status: HttpStatus, body: StandardApiResponse<T>)

  /** The `timestamp` field as it appears on the wire, `null` when it is absent. */
  function RenderedTimestamp<T>(body: StandardApiResponse<T>): (s: Option<string>)
    ensures s.Some? <==> body.timestamp.Some?
    ensures body.timestamp.Some? && 1 <= body.timestamp.value.year <= 9999 ==>
              HasPatternShape(s.value)
              && ParseTimestamp(s.value) == Some(TruncatedToSeconds(body.timestamp.value))
  {
    match body.timestamp
    case None => None
    case Some(t) =>
      if 1 <= t.year <= 9999 then
        FormatRoundTrip(t);
        Some(Format(t))
      else
        Some(Format(t))
  }
}
