/**
 * End-to-end classification: how the failures of each stage of the chat
 * handler reach the client once the global exception filter has mapped them.
 * Parser rejections are client errors (400), language-model failures are 422,
 * flight-provider failures are 502.
 */
module Pipeline {
  import opened Wrappers
  import opened Exceptions
  import opened FlightTypes
  import opened OpenAi
  import opened FlightQueryParser
  import opened Duffel
  import opened ExceptionFilter

  /** A failed or empty completion, or unparseable content, surfaces from parse as an AiValidationException, never as InvalidFlightSearch. */
  lemma AiFailureNotConflated(
    query: string,
    clock: Clock,
    complete: CompletionRequest -> CompletionOutcome,
    jsonParse: string -> JsonOutcome<Payload>)
    requires var answer := complete(CompletionRequestFor(ParserParams(query, clock)));
             || answer.CompletionFailed?
             || answer.content.None? || answer.content.value == ""
             || jsonParse(answer.content.value).JsonFailed?
    ensures Parse(query, clock, complete, jsonParse).Err?
    ensures IsAiValidation(Parse(query, clock, complete, jsonParse).error)
    ensures !IsInvalidFlightSearch(Parse(query, clock, complete, jsonParse).error)
  {
  }

  /** Every parse failure is answered with 422 when the model call failed and 400 otherwise, logged as a warning. */
  lemma ParseFailureReply(
    query: string,
    clock: Clock,
    complete: CompletionRequest -> CompletionOutcome,
    jsonParse: string -> JsonOutcome<Payload>,
    env: NodeEnv,
    path: string)
    requires Parse(query, clock, complete, jsonParse).Err?
    ensures var reply := Catch(Parse(query, clock, complete, jsonParse).error, env, path);
            && reply.level == WarnLevel
            && (Generated(query, clock, complete, jsonParse).Err? ==>
                  reply.status == UnprocessableEntity && reply.body.error == "AiValidationError")
            && (Generated(query, clock, complete, jsonParse).Ok? ==>
                  reply.status == BadRequest && reply.body.error == "InvalidFlightSearch")
  {
  }

  /** Every flight-search failure is answered with 502 ExternalApiError "Flight search failed", logged as an error. */
  lemma SearchFailureReply(answer: OffersOutcome, env: NodeEnv, path: string)
    requires answer.OffersFailed?
    ensures var reply := Catch(SearchOutcome(answer).error, env, path);
            && reply.status == BadGateway
            && reply.body.error == "ExternalApiError"
            && reply.body.message == Line(SearchFailedMessage)
            && reply.level == ErrorLevel
            && (env == Development ==> reply.body.details.value.body.provider == Some(ProviderName))
            && (env == OtherEnv ==> reply.body.details == None)
  {
  }

  /**
   * A past departure reaches the client as 400 with the departure message in every
   * environment; the field `departureDate` is sent, in details, only in development.
   */
  lemma PastDepartureReply(
    query: string,
    clock: Clock,
    complete: CompletionRequest -> CompletionOutcome,
    jsonParse: string -> JsonOutcome<Payload>,
    q: ParsedFlightQuery,
    env: NodeEnv,
    path: string)
    requires Generated(query, clock, complete, jsonParse) == Ok(QueryPayload(q))
    requires Before(q.departureDate, DayText(clock.today))
    ensures var reply := Catch(Parse(query, clock, complete, jsonParse).error, env, path);
            && reply.status == BadRequest
            && reply.body.message == Line(DepartureInPastMessage)
            && (reply.body.details.Some? <==> env == Development)
            && (reply.body.details.Some? ==> reply.body.details.value.body.field == Some("departureDate"))
  {
  }
}
