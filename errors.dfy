/** The application error classes (src/lib/errors.ts) as one datatype:
    every error has a message, an HTTP status, a machine-readable code and
    an operational flag; each subclass fixes the status and supplies a
    default message and code, and only the validation error carries
    `errors`. JavaScript default parameters apply to an absent argument,
    which is `None` here. */
module AppErrors {
  import opened Wrappers
  import opened JsValues

  datatype ErrorKind =
    | BadRequest
    | Unauthorized
    | Forbidden
    | NotFound
    | Conflict
    | Validation
    | InternalServer
    | ServiceUnavailable

  /** An `AppError`; `kind` is `None` for one built with the base class itself. */
  datatype AppError = AppError(
    kind: Option<ErrorKind>,
    message: string,
    statusCode: int,
    code: string,
    isOperational: bool,
    errors: Option<JsValue>)

  function StatusOf(kind: ErrorKind): int {
    match kind
    case BadRequest => 400
    case Unauthorized => 401
    case Forbidden => 403
    case NotFound => 404
    case Conflict => 409
    case Validation => 422
    case InternalServer => 500
    case ServiceUnavailable => 503
  }

  function DefaultMessage(kind: ErrorKind): string {
    match kind
    case BadRequest => "Bad request"
    case Unauthorized => "Access denied"
    case Forbidden => "Forbidden"
    case NotFound => "Resource not found"
    case Conflict => "Resource already exists"
    case Validation => "Validation failed"
    case InternalServer => "Internal server error"
    case ServiceUnavailable => "Service unavailable"
  }

  function DefaultCode(kind: ErrorKind): string {
    match kind
    case BadRequest => "BAD_REQUEST"
    case Unauthorized => "UNAUTHORIZED"
    case Forbidden => "FORBIDDEN"
    case NotFound => "NOT_FOUND"
    case Conflict => "CONFLICT"
    case Validation => "VALIDATION_ERROR"
    case InternalServer => "INTERNAL_ERROR"
    case ServiceUnavailable => "SERVICE_UNAVAILABLE"
  }

  /** `new AppError(message, statusCode, code, isOperational = true)`. */
  function NewAppError(message: string, statusCode: int, code: string, isOperational: Option<bool>): (e: AppError)
    ensures e.kind.None? && e.errors.None?
    ensures e.message == message && e.statusCode == statusCode && e.code == code
    ensures e.isOperational <==> isOperational != Some(false)
  {
    AppError(None, message, statusCode, code, isOperational.GetOr(true), None)
  }

  /** The subclass constructors: the kind's status, the given or default
      message and code, operational unless it is an internal server error,
      and `errors` kept only by the validation error. */
  function NewError(kind: ErrorKind, message: Option<string>, code: Option<string>, errors: Option<JsValue>)
    : (e: AppError)
    ensures e.kind == Some(kind) && e.statusCode == StatusOf(kind)
    ensures e.message == (if message.Some? then message.value else DefaultMessage(kind))
    ensures e.code == (if code.Some? then code.value else DefaultCode(kind))
    ensures e.isOperational <==> kind != InternalServer
    ensures e.errors == (if kind == Validation then errors else None)
  {
    var base := NewAppError(message.GetOr(DefaultMessage(kind)), StatusOf(kind), code.GetOr(DefaultCode(kind)),
      if kind == InternalServer then Some(false) else None);
    base.(kind := Some(kind), errors := if kind == Validation then errors else None)
  }

  /** Each kind has its own status and its own default code; client errors
      are 4xx and the internal and unavailable errors 5xx. */
  lemma KindsAreDistinct(a: ErrorKind, b: ErrorKind)
    ensures a != b ==> StatusOf(a) != StatusOf(b) && DefaultCode(a) != DefaultCode(b)
    ensures 400 <= StatusOf(a) < 600
    ensures StatusOf(a) >= 500 <==> a == InternalServer || a == ServiceUnavailable
  {
  }

  /** An error whose message and code are left out reads back as its kind's defaults. */
  lemma DefaultsOf(kind: ErrorKind)
    ensures var e := NewError(kind, None, None, None);
      e == AppError(Some(kind), DefaultMessage(kind), StatusOf(kind), DefaultCode(kind), kind != InternalServer, None)
  {
  }
}
