/**
 * OpenAiRepository.generateStructuredOutput (src/repositories/openai.repository.ts):
 * one chat-completion request with a strict JSON-schema response format, and the
 * normalisation of every failure into an AiValidationException.
 *
 * The completion call and `JSON.parse` are parameters: `complete` is what the
 * provider answers to a request, `jsonParse` is what parsing a content string
 * gives. Latency and token-usage logging are not modelled.
 */
module OpenAi {
  import opened Wrappers
  import opened Exceptions

  const DefaultModel := "gpt-4o-mini"
  const DefaultTemperature: real := 0.7
  const ResponseFormatName := "response"
  const EmptyResponseMessage := "OpenAI returned empty response"
  const GenericFailureMessage := "Failed to generate structured output from OpenAI"

  /** A JSON Schema, as far as the request carries one. */
  datatype SchemaType =
    | StringType
    | NullableStringType
    | IntegerType(minimum: int, maximum: int, default: Option<int>)
    | NullableIntegerType
    | EnumType(values: seq<string>)
    | ObjectType(properties: seq<Property>, required: seq<string>, additionalProperties: bool)

  datatype Property = Property(name: string, schema: SchemaType)

  /**
   * A closed schema, as strict structured output demands: every object lists all
   * its properties as required and forbids additional ones, at every depth.
   */
  predicate Closed(t: SchemaType) {
    match t
    case ObjectType(properties, required, additionalProperties) =>
      && !additionalProperties
      && (forall i | 0 <= i < |properties| :: properties[i].name in required && Closed(properties[i].schema))
    case _ => true
  }

  datatype Role = SystemRole | UserRole

  datatype ChatMessage = ChatMessage(role: Role, content: string)

  datatype ResponseFormat = JsonSchemaFormat(name: string, strict: bool, schema: SchemaType)

  /** The argument of `chat.completions.create`. */
  datatype CompletionRequest = CompletionRequest(
    model: string,
    temperature: real,
    messages: seq<ChatMessage>,
    responseFormat: ResponseFormat)

  /** The parameters of generateStructuredOutput; `None` is an omitted (or null) argument. */
  datatype StructuredOutputParams = StructuredOutputParams(
    model: Option<string>,
    systemPrompt: string,
    userPrompt: string,
    schema: SchemaType,
    temperature: Option<real>)

  /**
   * What the completion call does: it resolves with the first choice's message
   * content (`None` when there is no choice, message or content, or the content
   * is null), or it rejects with a thrown value.
   */
  datatype CompletionOutcome = Completed(content: Option<string>) | CompletionFailed(error: Thrown)

  /** What `JSON.parse` does with a string: returns a value, or throws (a SyntaxError). */
  datatype JsonOutcome<+T> = JsonParsed(value: T) | JsonFailed(error: Thrown)

  /** The request sent to the provider: defaults filled in, system then user message, strict schema. */
  function CompletionRequestFor(p: StructuredOutputParams): (r: CompletionRequest)
    ensures r.messages == [ChatMessage(SystemRole, p.systemPrompt), ChatMessage(UserRole, p.userPrompt)]
    ensures r.responseFormat == JsonSchemaFormat(ResponseFormatName, true, p.schema)
  {
    CompletionRequest(
      // `||`: an empty model id is replaced as well as a missing one
      if p.model.Some? && p.model.value != "" then p.model.value else DefaultModel,
      // `??`: only a missing (null/undefined) temperature is replaced
      if p.temperature.Some? then p.temperature.value else DefaultTemperature,
      [ChatMessage(SystemRole, p.systemPrompt), ChatMessage(UserRole, p.userPrompt)],
      JsonSchemaFormat(ResponseFormatName, true, p.schema))
  }

  /** The catch block: AiValidationException passes through, everything else is wrapped in one. */
  function NormaliseFailure(error: Thrown): (e: Thrown)
    ensures IsAiValidation(e)
    ensures IsAiValidation(error) ==> e == error
    ensures !IsAiValidation(error) && IsError(error) ==>
              e == App(AiValidation(ErrorMessage(error), Some(error)))
    ensures !IsError(error) ==> e == App(AiValidation(GenericFailureMessage, Some(error)))
  {
    if IsAiValidation(error) then error
    else
      var message := if IsError(error) then ErrorMessage(error) else GenericFailureMessage;
      App(AiValidation(message, Some(error)))
  }

  /**
   * The failure the try block raises, if any, before the catch block sees it:
   * a rejected call, an empty content, or a failed `JSON.parse`.
   */
  function Attempt<T>(outcome: CompletionOutcome, jsonParse: string -> JsonOutcome<T>): Result<T, Thrown> {
    match outcome
    case CompletionFailed(error) => Err(error)
    case Completed(content) =>
      if content.None? || content.value == "" then
        Err(App(AiValidation(EmptyResponseMessage, None)))
      else
        match jsonParse(content.value)
        case JsonParsed(v) => Ok(v)
        case JsonFailed(error) => Err(error)
  }

  /** generateStructuredOutput: the parsed content of a non-empty answer, or an AiValidationException. */
  function GenerateStructuredOutput<T>(
    p: StructuredOutputParams,
    complete: CompletionRequest -> CompletionOutcome,
    jsonParse: string -> JsonOutcome<T>): (r: Result<T, Thrown>)
    ensures r.Err? ==> IsAiValidation(r.error)
    ensures r.Ok? <==>
              && complete(CompletionRequestFor(p)).Completed?
              && complete(CompletionRequestFor(p)).content.Some?
              && complete(CompletionRequestFor(p)).content.value != ""
              && jsonParse(complete(CompletionRequestFor(p)).content.value).JsonParsed?
    ensures r.Ok? ==> r.value == jsonParse(complete(CompletionRequestFor(p)).content.value).value
  {
    match Attempt(complete(CompletionRequestFor(p)), jsonParse)
    case Ok(v) => Ok(v)
    case Err(error) => Err(NormaliseFailure(error))
  }

  /** The model id defaults to gpt-4o-mini when it is missing or empty, and is kept otherwise. */
  lemma ModelDefault(p: StructuredOutputParams)
    ensures p.model == None || p.model == Some("") ==> CompletionRequestFor(p).model == DefaultModel
    ensures p.model.Some? && p.model.value != "" ==> CompletionRequestFor(p).model == p.model.value
  {
  }

  /** The temperature defaults to 0.7 only when missing; any given value, 0 included, is kept. */
  lemma TemperatureDefault(p: StructuredOutputParams)
    ensures p.temperature == None ==> CompletionRequestFor(p).temperature == DefaultTemperature
    // `??` rather than `||`: a given 0 is a value, so it is kept and not replaced by 0.7
    ensures p.temperature.Some? ==> CompletionRequestFor(p).temperature == p.temperature.value
  {
  }

  /** A missing or empty content fails with "OpenAI returned empty response", not re-wrapped by the catch. */
  lemma EmptyContentFails<T>(
    p: StructuredOutputParams,
    complete: CompletionRequest -> CompletionOutcome,
    jsonParse: string -> JsonOutcome<T>)
    requires complete(CompletionRequestFor(p)) == Completed(None)
          || complete(CompletionRequestFor(p)) == Completed(Some(""))
    ensures GenerateStructuredOutput(p, complete, jsonParse) == Err(App(AiValidation(EmptyResponseMessage, None)))
  {
  }

  /** A rejected call or a failed parse that throws an Error is reported with that Error's message, the Error kept as raw output. */
  lemma ThrownErrorKeepsMessage<T>(
    p: StructuredOutputParams,
    complete: CompletionRequest -> CompletionOutcome,
    jsonParse: string -> JsonOutcome<T>,
    error: Thrown)
    requires IsError(error) && !IsAiValidation(error)
    requires complete(CompletionRequestFor(p)) == CompletionFailed(error)
          || (&& complete(CompletionRequestFor(p)).Completed?
              && complete(CompletionRequestFor(p)).content.Some?
              && complete(CompletionRequestFor(p)).content.value != ""
              && jsonParse(complete(CompletionRequestFor(p)).content.value) == JsonFailed(error))
    ensures GenerateStructuredOutput(p, complete, jsonParse) == Err(App(AiValidation(ErrorMessage(error), Some(error))))
  {
  }

  /** A thrown non-Error value is reported with the generic message, the value kept as raw output. */
  lemma ThrownValueGetsGenericMessage<T>(
    p: StructuredOutputParams,
    complete: CompletionRequest -> CompletionOutcome,
    jsonParse: string -> JsonOutcome<T>,
    v: JsValue)
    requires complete(CompletionRequestFor(p)) == CompletionFailed(NonError(v))
    ensures GenerateStructuredOutput(p, complete, jsonParse)
         == Err(App(AiValidation(GenericFailureMessage, Some(NonError(v)))))
  {
  }
}
