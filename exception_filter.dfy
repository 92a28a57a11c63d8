/**
 * GlobalExceptionFilter (src/common/filters/global-exception.filter.ts): the
 * total mapping from anything thrown to an HTTP status, an error name, a message
 * and optional details, and the choice of log level.
 *
 * `NODE_ENV` is a parameter. The timestamp, the random correlation id, the
 * stack text itself and the log output are not modelled.
 */
module ExceptionFilter {
  import opened Wrappers
  import opened Exceptions

  const UnexpectedMessage := "An unexpected error occurred"

  datatype NodeEnv = Development | OtherEnv

  /** What parseException returns as `details`. */
  datatype Details =
    | NoDetails                                  // undefined
    | BodyDetails(body: Body)                    // the HttpException's response object
    | ErrorDetails(name: string, stackShown: bool)  // `{ name, stack? }` of a non-HTTP Error
    | ValueDetails(value: JsValue)               // the thrown non-Error value itself

  predicate DetailsTruthy(d: Details) {
    match d
    case NoDetails => false
    case BodyDetails(_) => true
    case ErrorDetails(_, _) => true
    case ValueDetails(v) => Truthy(v)
  }

  datatype ParsedException = ParsedException(statusCode: int, error: string, message: Message, details: Details)

  /** The response body; `details` is `None` when the key is left out. */
  datatype ErrorResponse = ErrorResponse(
    statusCode: int,
    error: string,
    message: Message,
    path: string,
    details: Option<Details>)

  datatype LogLevel = ErrorLevel | WarnLevel

  /** What the filter does with one exception: the status it sends, the body, and the log level. */
  datatype Reply = Reply(status: int, body: ErrorResponse, level: LogLevel)

  const ErrorNames: map<int, string> := map[
    400 := "BadRequest",
    401 := "Unauthorized",
    403 := "Forbidden",
    404 := "NotFound",
    409 := "Conflict",
    422 := "UnprocessableEntity",
    429 := "TooManyRequests",
    500 := "InternalServerError",
    502 := "BadGateway",
    503 := "ServiceUnavailable",
    504 := "GatewayTimeout"]

  /** getErrorName: the tabled name, or 'HttpException' for any other code. */
  function GetErrorName(status: int): (name: string)
    ensures name != ""
    ensures status in ErrorNames ==> name == ErrorNames[status]
    ensures status !in ErrorNames ==> name == "HttpException"
  {
    // `errorNames[status] || 'HttpException'`; every tabled name is non-empty
    if status in ErrorNames && ErrorNames[status] != "" then ErrorNames[status] else "HttpException"
  }

  /** parseException */
  function ParseException(t: Thrown, env: NodeEnv): (p: ParsedException)
    ensures p.error != ""
    ensures IsHttpException(t) ==> p.statusCode == GetStatus(t)
    ensures IsHttpException(t) && GetResponse(t).ObjectResponse? ==>
              && p.details == BodyDetails(GetResponse(t).body)
              && p.error == (if GetResponse(t).body.error.Some? && GetResponse(t).body.error.value != ""
                             then GetResponse(t).body.error.value else GetErrorName(GetStatus(t)))
              && p.message == (if GetResponse(t).body.message.None? || GetResponse(t).body.message == Some(Line(""))
                               then Line(ErrorMessage(t)) else GetResponse(t).body.message.value)
    ensures IsHttpException(t) && GetResponse(t).ScalarResponse? ==>
              p == ParsedException(GetStatus(t), GetErrorName(GetStatus(t)), Line(ErrorMessage(t)), NoDetails)
    ensures t.PlainError? ==>
              p == ParsedException(InternalServerError, "InternalServerError", Line(UnexpectedMessage),
                                   ErrorDetails(t.name, env == Development))
    ensures t.NonError? ==>
              p == ParsedException(InternalServerError, "UnknownError", Line(UnexpectedMessage),
                                   if env == Development then ValueDetails(t.value) else NoDetails)
  {
    if IsHttpException(t) then
      var status := GetStatus(t);
      match GetResponse(t)
      case ObjectResponse(body) =>
        var error := if body.error.Some? && body.error.value != "" then body.error.value else GetErrorName(status);
        // `(responseObj.message) || exception.message`: a missing or empty string falls back; a list never does
        var message := if body.message.None? || body.message == Some(Line("")) then Line(ErrorMessage(t))
                       else body.message.value;
        ParsedException(status, error, message, BodyDetails(body))
      case ScalarResponse(_) =>
        ParsedException(status, GetErrorName(status), Line(ErrorMessage(t)), NoDetails)
    else if t.PlainError? then
      ParsedException(InternalServerError, "InternalServerError", Line(UnexpectedMessage),
                      ErrorDetails(t.name, env == Development))
    else
      ParsedException(InternalServerError, "UnknownError", Line(UnexpectedMessage),
                      if env == Development then ValueDetails(t.value) else NoDetails)
  }

  /** logError: error level for server errors (>= 500), warn level otherwise. */
  function LogLevelFor(statusCode: int): (level: LogLevel)
    ensures level == ErrorLevel <==> statusCode >= 500
  {
    if statusCode >= 500 then ErrorLevel else WarnLevel
  }

  /** catch: the status sent is the parsed one; details appear only in development and only when truthy. */
  function Catch(t: Thrown, env: NodeEnv, path: string): (r: Reply)
    ensures r.status == r.body.statusCode == ParseException(t, env).statusCode
    ensures r.body.error == ParseException(t, env).error && r.body.message == ParseException(t, env).message
    ensures r.body.path == path
    ensures r.body.details.Some? <==> env == Development && DetailsTruthy(ParseException(t, env).details)
    ensures r.body.details.Some? ==> r.body.details.value == ParseException(t, env).details
    ensures r.level == ErrorLevel <==> r.status >= 500
  {
    var p := ParseException(t, env);
    var details := if env == Development && DetailsTruthy(p.details) then Some(p.details) else None;
    Reply(p.statusCode, ErrorResponse(p.statusCode, p.error, p.message, path, details), LogLevelFor(p.statusCode))
  }

  /** Each application exception reaches the client with its class's status, error code and message, its body as details. */
  lemma AppExceptionParsed(e: AppException, env: NodeEnv)
    ensures ParseException(App(e), env)
         == ParsedException(Status(e), ErrorCode(e), Line(BodyMessage(e)), BodyDetails(ResponseBody(e)))
  {
  }

  /** The names getErrorName tables, and its fallback. */
  lemma ErrorNameTable(status: int)
    ensures GetErrorName(400) == "BadRequest" && GetErrorName(401) == "Unauthorized"
    ensures GetErrorName(403) == "Forbidden" && GetErrorName(404) == "NotFound"
    ensures GetErrorName(409) == "Conflict" && GetErrorName(422) == "UnprocessableEntity"
    ensures GetErrorName(429) == "TooManyRequests" && GetErrorName(500) == "InternalServerError"
    ensures GetErrorName(502) == "BadGateway" && GetErrorName(503) == "ServiceUnavailable"
    ensures GetErrorName(504) == "GatewayTimeout"
    ensures status !in {400, 401, 403, 404, 409, 422, 429, 500, 502, 503, 504} ==> GetErrorName(status) == "HttpException"
  {
  }
}
