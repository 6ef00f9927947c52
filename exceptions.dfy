/** The error taxonomy: `BaseException`, whose message, code, status and debug payload are
    fixed when it is built, and its four subclasses, each of which fixes the code and the
    status. */
module Exceptions {
  import opened Wrappers
  import opened Http

  /** A Java `Object` used as payload: a `String`, or any other object, known here only
      by its identity. */
  datatype JavaObject = JString(text: string) | JOther(identity: nat)

  /** The message kept by `RuntimeException` and the three final fields; a value of this
      type never changes once built. */
  datatype BaseException = BaseException(
    message: Option<string>,
    errorCode: Option<string>,
    status: HttpStatus,
    debugInfo: Option<JavaObject>)

  /** The four-argument constructor. It accepts every combination, null included, and ties
      the code to no particular status; the getters return what it was given. */
  function NewBaseException(message: Option<string>, errorCode: Option<string>, status: HttpStatus,
                            debugInfo: Option<JavaObject>): (e: BaseException)
    ensures e.message == message && e.errorCode == errorCode
    ensures e.status == status && e.debugInfo == debugInfo
  {
    BaseException(message, errorCode, status, debugInfo)
  }

  /** The three-argument constructor: the four-argument one with a null debug payload. */
  function NewBaseExceptionWithoutDebugInfo(message: Option<string>, errorCode: Option<string>,
                                            status: HttpStatus): (e: BaseException)
    ensures e.message == message && e.errorCode == errorCode && e.status == status
    ensures e.debugInfo.None?
  {
    NewBaseException(message, errorCode, status, None)
  }

  /** `ResourceNotFoundException(message)`. */
  function ResourceNotFoundException(message: Option<string>): (e: BaseException)
    ensures e.errorCode == Some("NOT_FOUND") && e.status == 404
    ensures e.message == message && e.debugInfo.None?
  {
    NewBaseExceptionWithoutDebugInfo(message, Some("NOT_FOUND"), NOT_FOUND)
  }

  /** `UnauthorizedException(message)`. */
  function UnauthorizedException(message: Option<string>): (e: BaseException)
    ensures e.errorCode == Some("UNAUTHORIZED") && e.status == 401
    ensures e.message == message && e.debugInfo.None?
  {
    NewBaseExceptionWithoutDebugInfo(message, Some("UNAUTHORIZED"), UNAUTHORIZED)
  }

  /** `AccessDeniedException(message)`. */
  function AccessDeniedException(message: Option<string>): (e: BaseException)
    ensures e.errorCode == Some("FORBIDDEN") && e.status == 403
    ensures e.message == message && e.debugInfo.None?
  {
    NewBaseExceptionWithoutDebugInfo(message, Some("FORBIDDEN"), FORBIDDEN)
  }

  /** `BadRequestException(message)`. */
  function BadRequestException(message: Option<string>): (e: BaseException)
    ensures e.errorCode == Some("BAD_REQUEST") && e.status == 400
    ensures e.message == message && e.debugInfo.None?
  {
    NewBaseExceptionWithoutDebugInfo(message, Some("BAD_REQUEST"), BAD_REQUEST)
  }

  // ---------------- the taxonomy as a tag ----------------

  /** The four subclasses application code raises. */
  datatype ErrorKind = BadRequest | Unauthorized | AccessDenied | NotFound

  /** The fixed code of each kind. */
  function KindCode(kind: ErrorKind): string {
    match kind
    case BadRequest => "BAD_REQUEST"
    case Unauthorized => "UNAUTHORIZED"
    case AccessDenied => "FORBIDDEN"
    case NotFound => "NOT_FOUND"
  }

  /** The fixed status of each kind. */
  function KindStatus(kind: ErrorKind): HttpStatus {
    match kind
    case BadRequest => BAD_REQUEST
    case Unauthorized => UNAUTHORIZED
    case AccessDenied => FORBIDDEN
    case NotFound => NOT_FOUND
  }

  /** The exception the subclass of `kind` builds from `message`. */
  function Raise(kind: ErrorKind, message: Option<string>): (e: BaseException)
    ensures e.errorCode == Some(KindCode(kind)) && e.status == KindStatus(kind)
    ensures e.message == message && e.debugInfo.None?
  {
    match kind
    case BadRequest => BadRequestException(message)
    case Unauthorized => UnauthorizedException(message)
    case AccessDenied => AccessDeniedException(message)
    case NotFound => ResourceNotFoundException(message)
  }

  /** The four subclasses have four different statuses and four different codes, so either
      one identifies the kind. */
  lemma KindsAreDistinguishable(k1: ErrorKind, k2: ErrorKind)
    ensures KindStatus(k1) == KindStatus(k2) <==> k1 == k2
    ensures KindCode(k1) == KindCode(k2) <==> k1 == k2
  {
  }

  /** Every subclass exception is a client error: its status lies in 400..499. */
  lemma KindsAreClientErrors(kind: ErrorKind, message: Option<string>)
    ensures 400 <= Raise(kind, message).status <= 499
  {
  }
}
