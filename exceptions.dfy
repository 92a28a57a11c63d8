/**
 * The application's exception classes (src/common/exceptions/index.ts) and the
 * values a JavaScript `throw` can carry through the request pipeline.
 *
 * Every class extends NestJS's HttpException, which keeps the status and the
 * response body given to `super`, sets `name` to the class name and sets
 * `message` to the body's `message` when that is a string.
 */
module Exceptions {
  import opened Wrappers

  // HTTP status codes used by the five classes
  const BadRequest := 400
  const NotFound := 404
  const UnprocessableEntity := 422
  const TooManyRequests := 429
  const InternalServerError := 500
  const BadGateway := 502

  const ExternalApiName := "ExternalApiException"
  const AiValidationName := "AiValidationException"
  const InvalidFlightSearchName := "InvalidFlightSearchException"
  const RateLimitName := "RateLimitException"
  const ConversationNotFoundName := "ConversationNotFoundException"

  const RateLimitMessage := "Too many requests. Please try again later."

  /** A thrown JavaScript value that is not an Error instance. */
  datatype JsValue =
    | Undefined
    | Null
    | Boolean(b: bool)
    | Number(n: int)
    | Text(s: string)
    | Object(name: Option<string>)  // a plain object; `name` is its string `name` property, if any

  /** JavaScript truthiness of a non-Error value. */
  predicate Truthy(v: JsValue) {
    match v
    case Undefined => false
    case Null => false
    case Boolean(b) => b
    case Number(n) => n != 0
    case Text(s) => s != ""
    case Object(_) => true
  }

  /** A response body's `message`: one string, or the list of strings a validation pipe produces. */
  datatype Message = Line(text: string) | Lines(lines: seq<string>)

  /** An HttpException response body that is an object; only the keys this application reads or writes. */
  datatype Body = Body(
    statusCode: Option<int>,
    error: Option<string>,
    message: Option<Message>,
    provider: Option<string>,
    field: Option<string>,
    retryAfter: Option<int>)

  /** What an HttpException's `getResponse()` returns: an object, or a non-object such as a string. */
  datatype Response = ObjectResponse(body: Body) | ScalarResponse(text: string)

  /** The five exception classes, each given by its constructor arguments. */
  datatype AppException =
    | ExternalApi(provider: string, originalError: Thrown, messageArg: Option<string>)
    | AiValidation(message: string, rawOutput: Option<Thrown>)
    | InvalidFlightSearch(message: string, field: Option<string>)
    | RateLimit(retryAfter: Option<int>)
    | ConversationNotFound(conversationId: string)

  /** Anything the pipeline can throw. */
  datatype Thrown =
    | App(exception: AppException)
      /** An HttpException of another class (for instance one raised by a validation pipe). */
    | OtherHttp(name: string, message: string, status: int, response: Response)
      /** An Error that is not an HttpException (a TypeError, a SyntaxError, a database error, ...). */
    | PlainError(name: string, message: string)
      /** A thrown value that is not an Error at all. */
    | NonError(value: JsValue)

  /** The status each class passes to `super` as its second argument. */
  function Status(e: AppException): (s: int)
    ensures e.ExternalApi? ==> s == 502
    ensures e.AiValidation? ==> s == 422
    ensures e.InvalidFlightSearch? ==> s == 400
    ensures e.RateLimit? ==> s == 429
    ensures e.ConversationNotFound? ==> s == 404
    ensures 400 <= s < 600
    ensures s >= 500 <==> e.ExternalApi?
  {
    match e
    case ExternalApi(_, _, _) => BadGateway
    case AiValidation(_, _) => UnprocessableEntity
    case InvalidFlightSearch(_, _) => BadRequest
    case RateLimit(_) => TooManyRequests
    case ConversationNotFound(_) => NotFound
  }

  /** The `statusCode` key each class writes in its body, separately from the status it passes. */
  function BodyStatusCode(e: AppException): int {
    match e
    case ExternalApi(_, _, _) => BadGateway
    case AiValidation(_, _) => UnprocessableEntity
    case InvalidFlightSearch(_, _) => BadRequest
    case RateLimit(_) => TooManyRequests
    case ConversationNotFound(_) => NotFound
  }

  /** The `error` string each class puts in its body. */
  function ErrorCode(e: AppException): string {
    match e
    case ExternalApi(_, _, _) => "ExternalApiError"
    case AiValidation(_, _) => "AiValidationError"
    case InvalidFlightSearch(_, _) => "InvalidFlightSearch"
    case RateLimit(_) => "RateLimitExceeded"
    case ConversationNotFound(_) => "ConversationNotFound"
  }

  /** The class name, which NestJS stores as the exception's `name`. */
  function ClassName(e: AppException): string {
    match e
    case ExternalApi(_, _, _) => ExternalApiName
    case AiValidation(_, _) => AiValidationName
    case InvalidFlightSearch(_, _) => InvalidFlightSearchName
    case RateLimit(_) => RateLimitName
    case ConversationNotFound(_) => ConversationNotFoundName
  }

  /** The body's `message`; ExternalApiException falls back with `||`, so an empty message is replaced too. */
  function BodyMessage(e: AppException): (m: string)
    ensures e.ExternalApi? && e.messageArg.Some? && e.messageArg.value != "" ==> m == e.messageArg.value
    ensures e.ExternalApi? && (e.messageArg.None? || e.messageArg == Some("")) ==> m == "External API error: " + e.provider
    ensures e.ExternalApi? ==> m != ""
    ensures e.AiValidation? ==> m == e.message
    ensures e.InvalidFlightSearch? ==> m == e.message
    ensures e.RateLimit? ==> m == RateLimitMessage
    ensures e.ConversationNotFound? ==> m == "Conversation " + e.conversationId + " not found"
  {
    match e
    case ExternalApi(provider, _, message) =>
      if message.Some? && message.value != "" then message.value else "External API error: " + provider
    case AiValidation(message, _) => message
    case InvalidFlightSearch(message, _) => message
    case RateLimit(_) => RateLimitMessage
    case ConversationNotFound(id) => "Conversation " + id + " not found"
  }

  /** The response body each constructor hands to `super`. */
  function ResponseBody(e: AppException): (b: Body)
    ensures b.statusCode == Some(Status(e))
    ensures b.error == Some(ErrorCode(e)) && b.message == Some(Line(BodyMessage(e)))
    ensures b.provider == (if e.ExternalApi? then Some(e.provider) else None)
    ensures b.field == (if e.InvalidFlightSearch? then e.field else None)
    ensures b.retryAfter == (if e.RateLimit? then e.retryAfter else None)
  {
    var status := Some(BodyStatusCode(e));
    var error := Some(ErrorCode(e));
    var message := Some(Line(BodyMessage(e)));
    match e
    case ExternalApi(provider, _, _) => Body(status, error, message, Some(provider), None, None)
    case AiValidation(_, _) => Body(status, error, message, None, None, None)
    case InvalidFlightSearch(_, field) => Body(status, error, message, None, field, None)
    case RateLimit(retryAfter) => Body(status, error, message, None, None, retryAfter)
    case ConversationNotFound(_) => Body(status, error, message, None, None, None)
  }

  /** `instanceof HttpException` */
  predicate IsHttpException(t: Thrown) {
    t.App? || t.OtherHttp?
  }

  /** `instanceof Error` */
  predicate IsError(t: Thrown) {
    !t.NonError?
  }

  /** `instanceof AiValidationException` */
  predicate IsAiValidation(t: Thrown) {
    t.App? && t.exception.AiValidation?
  }

  /** `instanceof InvalidFlightSearchException` */
  predicate IsInvalidFlightSearch(t: Thrown) {
    t.App? && t.exception.InvalidFlightSearch?
  }

  /** `getStatus()` of an HttpException. */
  function GetStatus(t: Thrown): int
    requires IsHttpException(t)
  {
    if t.App? then Status(t.exception) else t.status
  }

  /** `getResponse()` of an HttpException. */
  function GetResponse(t: Thrown): Response
    requires IsHttpException(t)
  {
    if t.App? then ObjectResponse(ResponseBody(t.exception)) else t.response
  }

  /** The `message` property of an Error. */
  function ErrorMessage(t: Thrown): string
    requires IsError(t)
  {
    match t
    case App(e) => BodyMessage(e)
    case OtherHttp(_, message, _, _) => message
    case PlainError(_, message) => message
  }

  /**
   * How HttpException derives `message` from its response: a string response is
   * the message, and so is an object response's string `message`.
   */
  predicate MessageFromResponse(t: Thrown)
    requires IsHttpException(t)
  {
    match GetResponse(t)
    case ScalarResponse(text) => ErrorMessage(t) == text
    case ObjectResponse(body) => body.message.Some? && body.message.value.Line? ==> ErrorMessage(t) == body.message.value.text
  }

  /** The five application classes follow that rule: their `message` is their body's message. */
  lemma AppMessageFromResponse(e: AppException)
    ensures MessageFromResponse(App(e))
    ensures ErrorMessage(App(e)) == BodyMessage(e)
  {
  }

  /** The thrown value's `name` property, when it is an object that has a string `name`. */
  function NameOf(t: Thrown): (n: Option<string>)
    ensures IsError(t) ==> n.Some?
    ensures t.App? ==> n == Some(ClassName(t.exception))
  {
    match t
    case App(e) => Some(ClassName(e))
    case OtherHttp(name, _, _, _) => Some(name)
    case PlainError(name, _) => Some(name)
    case NonError(v) => if v.Object? then v.name else None
  }

  /** An exception's class is recognised by name: only AiValidationException carries that name among the five. */
  lemma ClassNamesDistinct(e: AppException)
    ensures ClassName(e) == AiValidationName <==> e.AiValidation?
  {
  }
}
