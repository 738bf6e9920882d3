/** The error middleware (src/middleware/errorHandler.ts): a total mapping
    from a thrown value to a status, a `{ error: { code, message, details? } }`
    body and the level it is logged at, plus the 404 handler for unknown
    routes. The log record's other fields are left out. */
module ErrorHandling {
  import opened Wrappers
  import opened Strings
  import opened JsNumbers
  import opened JsValues
  import opened AppErrors

  /** One step of a validation issue's path: an object key or an array index. */
  datatype PathKey = Key(name: string) | Index(position: nat)

  datatype ZodIssue = ZodIssue(path: seq<PathKey>, message: string)

  /** What reaches the handler. */
  datatype Thrown =
    | ZodFailure(issues: seq<ZodIssue>)
    | Application(err: AppError)
    | Unknown(message: string)

  datatype Detail = Detail(field: string, message: string)

  datatype Details = NoDetails | IssueDetails(items: seq<Detail>) | ErrorsDetails(value: JsValue)

  datatype ErrorBody = ErrorBody(code: string, message: string, details: Details)

  datatype LogLevel = LevelInfo | LevelWarn | LevelError

  datatype Handled = Handled(status: int, body: ErrorBody, level: LogLevel)

  function PathKeyText(k: PathKey): string {
    match k
    case Key(name) => name
    case Index(n) => NatToString(n)
  }

  /** `e.path.join(".")`: an empty path gives the empty string. */
  function FieldOf(path: seq<PathKey>): (field: string)
    ensures |path| == 1 ==> field == PathKeyText(path[0])
  {
    if path == [] then ""
    else Join(seq(|path|, i requires 0 <= i < |path| => PathKeyText(path[i])), '.')
  }

  /** A non-empty path whose keys hold no dot can be read back from its field. */
  lemma FieldNamesPath(path: seq<PathKey>)
    requires |path| >= 1
    requires forall i | 0 <= i < |path| :: '.' !in PathKeyText(path[i])
    ensures Split(FieldOf(path), '.') == seq(|path|, i requires 0 <= i < |path| => PathKeyText(path[i]))
  {
    SplitJoin(seq(|path|, i requires 0 <= i < |path| => PathKeyText(path[i])), '.');
  }

  function IssueDetailsOf(issues: seq<ZodIssue>): (r: seq<Detail>)
    ensures |r| == |issues|
    ensures forall i | 0 <= i < |issues| :: r[i] == Detail(FieldOf(issues[i].path), issues[i].message)
  {
    seq(|issues|, i requires 0 <= i < |issues| => Detail(FieldOf(issues[i].path), issues[i].message))
  }

  /** The details an application error carries: only a validation error
      with truthy `errors`. */
  function AppDetails(err: AppError): (d: Details)
    ensures d != NoDetails <==> err.kind == Some(Validation) && err.errors.Some? && Truthy(err.errors.value)
    ensures d != NoDetails ==> d == ErrorsDetails(err.errors.value)
  {
    if err.kind == Some(Validation) && err.errors.Some? && Truthy(err.errors.value) then ErrorsDetails(err.errors.value)
    else NoDetails
  }

  /** `errorHandler`. `nodeEnv` is `process.env.NODE_ENV`. */
  function ErrorHandler(err: Thrown, nodeEnv: Option<string>): (r: Handled)
    ensures err.ZodFailure? ==> r.status == 422 && r.level == LevelWarn
    ensures err.Application? ==>
      r.status == err.err.statusCode && r.body.code == err.err.code && r.body.message == err.err.message
    ensures err.Unknown? ==> r.status == 500 && r.body.details == NoDetails
    ensures r.level == LevelError <==> err.Unknown? || (err.Application? && !err.err.isOperational)
  {
    match err
    case ZodFailure(issues) =>
      Handled(422, ErrorBody("VALIDATION_ERROR", "Validation failed", IssueDetails(IssueDetailsOf(issues))), LevelWarn)
    case Application(e) =>
      Handled(e.statusCode, ErrorBody(e.code, e.message, AppDetails(e)), if e.isOperational then LevelWarn else LevelError)
    case Unknown(message) =>
      Handled(500, ErrorBody("INTERNAL_ERROR", if nodeEnv == Some("production") then "Internal server error" else message,
        NoDetails), LevelError)
  }

  /** A validation failure from the schema library answers 422 and lists each
      issue, in order, by its dotted path and message. */
  lemma ZodFailureResponse(issues: seq<ZodIssue>, nodeEnv: Option<string>)
    ensures var h := ErrorHandler(ZodFailure(issues), nodeEnv);
      && h.status == 422 && h.body.code == "VALIDATION_ERROR" && h.body.message == "Validation failed"
      && h.level == LevelWarn
      && h.body.details.IssueDetails? && |h.body.details.items| == |issues|
      && forall i | 0 <= i < |issues| ::
           h.body.details.items[i].field == FieldOf(issues[i].path) && h.body.details.items[i].message == issues[i].message
  {
  }

  /** An error built by one of the subclasses answers with its kind's status
      and the given (or default) code and message; it is logged as a warning
      unless it is an internal server error. */
  lemma SubclassResponse(kind: ErrorKind, message: Option<string>, code: Option<string>, errors: Option<JsValue>,
                         nodeEnv: Option<string>)
    ensures var h := ErrorHandler(Application(NewError(kind, message, code, errors)), nodeEnv);
      && h.status == StatusOf(kind)
      && h.body.code == (if code.Some? then code.value else DefaultCode(kind))
      && h.body.message == (if message.Some? then message.value else DefaultMessage(kind))
      && (h.level == LevelWarn <==> kind != InternalServer)
      && (h.body.details != NoDetails <==> kind == Validation && errors.Some? && Truthy(errors.value))
  {
  }

  /** An unexpected error answers 500; its own message is shown everywhere
      but in production. */
  lemma UnknownErrorResponse(message: string, nodeEnv: Option<string>)
    ensures var h := ErrorHandler(Unknown(message), nodeEnv);
      && h.status == 500 && h.body.code == "INTERNAL_ERROR" && h.level == LevelError
      && (nodeEnv == Some("production") ==> h.body.message == "Internal server error")
      && (nodeEnv != Some("production") ==> h.body.message == message)
  {
  }

  /** No response the handler gives is a success: every status is 4xx or 5xx
      for the subclasses and for the fallbacks. */
  lemma ErrorStatusesAreErrors(err: Thrown, nodeEnv: Option<string>)
    requires err.Application? ==> err.err.kind.Some? && err.err.statusCode == StatusOf(err.err.kind.value)
    ensures 400 <= ErrorHandler(err, nodeEnv).status < 600
  {
    if err.Application? {
      KindsAreDistinct(err.err.kind.value, err.err.kind.value);
    }
  }

  /** `notFoundHandler`. */
  function NotFoundHandler(httpMethod: string, path: string): (h: Handled)
    ensures h.status == 404 && h.body.code == "NOT_FOUND" && h.level == LevelWarn
    ensures h.body.message == "Route " + httpMethod + " " + path + " not found"
  {
    Handled(404, ErrorBody("NOT_FOUND", "Route " + httpMethod + " " + path + " not found", NoDetails), LevelWarn)
  }
}
