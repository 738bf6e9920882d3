/** The request logger's rules (src/middleware/requestLogger.ts): the level
    a finished request is logged at, the request id it is tagged with, the
    two message formats and what of the request is written to the log. The
    logging library itself is not modelled; `randomUUID()` is a parameter. */
module RequestLogger {
  import opened Wrappers
  import opened Strings
  import opened JsValues
  import opened ErrorHandling

  /** `customLogLevel`: errors and 5xx are errors, other 4xx warnings, the rest info. */
  function CustomLogLevel(statusCode: int, hasError: bool): (level: LogLevel)
    ensures level == LevelError <==> statusCode >= 500 || hasError
    ensures level == LevelWarn <==> 400 <= statusCode < 500 && !hasError
    ensures level == LevelInfo <==> statusCode < 400 && !hasError
  {
    if statusCode >= 500 || hasError then LevelError
    else if statusCode >= 400 then LevelWarn
    else if statusCode >= 300 then LevelInfo
    else LevelInfo
  }

  /** A validation failure answered without the error attached is logged as
      a warning, as the error middleware logs it. */
  lemma ValidationFailureLevelsAgree(issues: seq<ZodIssue>, nodeEnv: Option<string>)
    ensures var h := ErrorHandler(ZodFailure(issues), nodeEnv);
      CustomLogLevel(h.status, false) == h.level == LevelWarn
  {
  }

  /** The id an incoming request already carries: `req.id ?? headers["x-request-id"]`. */
  function ExistingId(reqId: Option<string>, headerId: Option<string>): (existing: Option<string>)
    ensures reqId.Some? ==> existing == reqId
    ensures reqId.None? ==> existing == headerId
  {
    if reqId.Some? then reqId else headerId
  }

  /** The header name the fresh id is sent back under. */
  const RequestIdHeader: string := "X-Request-Id"

  /** The response headers `genReqId` may set. */
  class ResponseHeaders {
    var headers: map<string, string>

    constructor ()
      ensures headers == map[]
    {
      headers := map[];
    }

    /** `genReqId`: an existing non-empty id is kept and no header is set;
        otherwise `freshId` is used and also sent back as `X-Request-Id`. */
    method GenReqId(reqId: Option<string>, headerId: Option<string>, freshId: string) returns (id: string)
      modifies this
      ensures var existing := ExistingId(reqId, headerId);
        if existing.Some? && existing.value != "" then id == existing.value && headers == old(headers)
        else id == freshId && headers == old(headers)[RequestIdHeader := freshId]
    {
      var existing := ExistingId(reqId, headerId);
      if existing.Some? && existing.value != "" {
        return existing.value;
      }
      id := freshId;
      headers := headers[RequestIdHeader := id];
    }
  }

  /** `customSuccessMessage`. */
  function SuccessMessage(httpMethod: string, url: string): string {
    httpMethod + " " + url + " completed"
  }

  /** `customErrorMessage`. */
  function ErrorMessage(httpMethod: string, url: string, errorMessage: string): string {
    httpMethod + " " + url + " failed: " + errorMessage
  }

  /** The two messages for one request share their `<METHOD> <url> ` start
      and differ right after it, so a failure is never logged as a success. */
  lemma MessagesDiffer(httpMethod: string, url: string, errorMessage: string)
    ensures var p := httpMethod + " " + url + " ";
      && IsPrefix(p, SuccessMessage(httpMethod, url)) && IsPrefix(p, ErrorMessage(httpMethod, url, errorMessage))
      && SuccessMessage(httpMethod, url) != ErrorMessage(httpMethod, url, errorMessage)
  {
    var p := httpMethod + " " + url + " ";
    assert SuccessMessage(httpMethod, url) == p + "completed";
    assert ErrorMessage(httpMethod, url, errorMessage) == p + "failed: " + errorMessage;
    assert SuccessMessage(httpMethod, url)[|p|] == 'c';
    assert ErrorMessage(httpMethod, url, errorMessage)[|p|] == 'f';
  }

  datatype IncomingRequest = IncomingRequest(
    id: string,
    httpMethod: string,
    url: string,
    query: map<string, string>,
    params: map<string, string>,
    body: JsValue)

  datatype LoggedRequest = LoggedRequest(
    id: string,
    httpMethod: string,
    url: string,
    query: map<string, string>,
    params: map<string, string>)

  /** The `req` serializer: the body, which may hold a password, is left out. */
  function SerializeReq(req: IncomingRequest): (r: LoggedRequest)
    ensures r.id == req.id && r.httpMethod == req.httpMethod && r.url == req.url
    ensures r.query == req.query && r.params == req.params
  {
    LoggedRequest(req.id, req.httpMethod, req.url, req.query, req.params)
  }

  /** Two requests that differ only in their bodies are logged alike. */
  lemma BodyNeverLogged(req: IncomingRequest, body: JsValue)
    ensures SerializeReq(req.(body := body)) == SerializeReq(req)
  {
  }
}
