/**
 * FlightQueryParser.parse (src/repositories/flight-query-parser.ts): one
 * structured-output call with a closed schema, the two date checks, and the
 * classification of every failure.
 *
 * Dates are day numbers. The caller's clock is a parameter: `today` is the day
 * number of today's local midnight and `isoDate` the calendar date the prompt
 * is anchored to.
 */
module FlightQueryParser {
  import opened Wrappers
  import opened Exceptions
  import opened FlightTypes
  import opened OpenAi

  const DepartureInPastMessage := "Departure date must be in the future"
  const ReturnNotAfterDepartureMessage := "Return date must be after departure date"
  const ParseFailedMessage := "Failed to parse flight query"
  const ParserTemperature: real := 0.3

  datatype Clock = Clock(today: int, isoDate: string)

  /** What `JSON.parse` can give for content the provider constrained to the schema: the query, or `null`. */
  datatype Payload = NullPayload | QueryPayload(query: ParsedFlightQuery)

  /** The TypeError that reading `result.departureDate` raises when the parsed content is `null`. */
  const NullAccessError := PlainError("TypeError", "Cannot read properties of null (reading 'departureDate')")

  /** The passenger counts: at least one adult, at most nine of each kind. */
  const PassengersSchema: SchemaType :=
    ObjectType(
      [ Property("adults", IntegerType(1, 9, None)),
        Property("children", IntegerType(0, 9, Some(0))),
        Property("infants", IntegerType(0, 9, Some(0))) ],
      ["adults", "children", "infants"],
      false)

  const CabinClassSchema: SchemaType := EnumType(["economy", "premium_economy", "business", "first"])

  /** The schema of ParsedFlightQuery sent with the request: optional fields are nullable but required. */
  const FlightQuerySchema: SchemaType :=
    ObjectType(
      [ Property("origin", StringType),
        Property("destination", StringType),
        Property("departureDate", StringType),
        Property("returnDate", NullableStringType),
        Property("passengers", PassengersSchema),
        Property("cabinClass", CabinClassSchema),
        Property("maxStops", NullableIntegerType) ],
      ["origin", "destination", "departureDate", "returnDate", "passengers", "cabinClass", "maxStops"],
      false)

  /** The system prompt, anchored to the current calendar date. */
  function SystemPrompt(isoDate: string): string {
    PromptRules + isoDate + PromptExamples
  }

  const PromptRules :=
    "Extract flight search parameters from natural language queries.\n\n"
    + "Rules:\n- Use 3-letter IATA airport codes\n- Dates in YYYY-MM-DD format\n"
    + "- Default: 1 adult, economy class\n- Dates relative to: "

  const PromptExamples :=
    "\n\nExamples:\n- \"NYC to London\" \U{2192} origin: JFK, destination: LHR\n"
    + "- \"tomorrow\" \U{2192} +1 day from today\n- \"next week\" \U{2192} +7 days from today"

  /** The parameters parse passes to generateStructuredOutput. */
  function ParserParams(query: string, clock: Clock): (p: StructuredOutputParams)
    ensures p.userPrompt == query && p.schema == FlightQuerySchema
    ensures p.model == None && p.temperature == Some(ParserTemperature)
  {
    StructuredOutputParams(None, SystemPrompt(clock.isoDate), query, FlightQuerySchema, Some(ParserTemperature))
  }

  /** The validation inside the try block, on the value generateStructuredOutput returned. */
  function Validate(payload: Payload, today: int): (r: Result<ParsedFlightQuery, Thrown>)
    ensures r.Ok? <==>
              && payload.QueryPayload?
              && !Before(payload.query.departureDate, DayText(today))
              && !(IsPresent(payload.query.returnDate)
                   && NotAfter(payload.query.returnDate.value, payload.query.departureDate))
    ensures r.Ok? ==> payload == QueryPayload(r.value)
    ensures payload.NullPayload? ==> r == Err(NullAccessError)
    ensures payload.QueryPayload? && Before(payload.query.departureDate, DayText(today)) ==>
              r == Err(App(InvalidFlightSearch(DepartureInPastMessage, Some("departureDate"))))
    ensures payload.QueryPayload? && !Before(payload.query.departureDate, DayText(today)) && r.Err? ==>
              r == Err(App(InvalidFlightSearch(ReturnNotAfterDepartureMessage, Some("returnDate"))))
  {
    match payload
    case NullPayload => Err(NullAccessError)
    case QueryPayload(result) =>
      if Before(result.departureDate, DayText(today)) then
        Err(App(InvalidFlightSearch(DepartureInPastMessage, Some("departureDate"))))
      else if IsPresent(result.returnDate) && NotAfter(result.returnDate.value, result.departureDate) then
        Err(App(InvalidFlightSearch(ReturnNotAfterDepartureMessage, Some("returnDate"))))
      else
        Ok(result)
  }

  /** The catch block: the two classified failures pass through, any other becomes a generic InvalidFlightSearch. */
  function Classify(error: Thrown): (e: Thrown)
    ensures IsInvalidFlightSearch(e) || NameOf(e) == Some(AiValidationName)
    ensures IsInvalidFlightSearch(error) || NameOf(error) == Some(AiValidationName) ==> e == error
    ensures !IsInvalidFlightSearch(error) && NameOf(error) != Some(AiValidationName) ==>
              e == App(InvalidFlightSearch(ParseFailedMessage, None))
  {
    if IsInvalidFlightSearch(error) then error
    else if NameOf(error) == Some(AiValidationName) then error
    else App(InvalidFlightSearch(ParseFailedMessage, None))
  }

  /** What the structured-output call returns to parse. */
  function Generated(
    query: string,
    clock: Clock,
    complete: CompletionRequest -> CompletionOutcome,
    jsonParse: string -> JsonOutcome<Payload>): Result<Payload, Thrown>
  {
    GenerateStructuredOutput(ParserParams(query, clock), complete, jsonParse)
  }

  /** parse: the provider's query, unchanged, or an InvalidFlightSearchException or AiValidationException. */
  function Parse(
    query: string,
    clock: Clock,
    complete: CompletionRequest -> CompletionOutcome,
    jsonParse: string -> JsonOutcome<Payload>): (r: Result<ParsedFlightQuery, Thrown>)
    ensures r.Err? ==> IsInvalidFlightSearch(r.error) || IsAiValidation(r.error)
    ensures r.Ok? <==> Generated(query, clock, complete, jsonParse).Ok?
                       && Validate(Generated(query, clock, complete, jsonParse).value, clock.today).Ok?
    ensures r.Ok? ==> Generated(query, clock, complete, jsonParse) == Ok(QueryPayload(r.value))
    ensures Generated(query, clock, complete, jsonParse).Err? ==>
              r == Err(Generated(query, clock, complete, jsonParse).error)
    ensures Generated(query, clock, complete, jsonParse) == Ok(NullPayload) ==>
              r == Err(App(InvalidFlightSearch(ParseFailedMessage, None)))
    ensures (Generated(query, clock, complete, jsonParse).Ok?
             && Generated(query, clock, complete, jsonParse).value.QueryPayload?) ==>
              r == Validate(Generated(query, clock, complete, jsonParse).value, clock.today)
  {
    var attempt :=
      match Generated(query, clock, complete, jsonParse)
      case Ok(payload) => Validate(payload, clock.today)
      case Err(error) => Err(error);
    match attempt
    case Ok(result) => Ok(result)
    case Err(error) => Err(Classify(error))
  }

  /** The request parse sends: default model, temperature 0.3, system prompt then the user's query. */
  lemma ParserRequestShape(query: string, clock: Clock)
    ensures var r := CompletionRequestFor(ParserParams(query, clock));
            && r.model == DefaultModel
            && r.temperature == ParserTemperature
            && r.messages == [ChatMessage(SystemRole, SystemPrompt(clock.isoDate)), ChatMessage(UserRole, query)]
            && r.responseFormat == JsonSchemaFormat(ResponseFormatName, true, FlightQuerySchema)
  {
  }

  /** The schema is closed, and its cabin-class enumeration lists exactly the four cabin classes. */
  lemma FlightQuerySchemaClosed()
    ensures Closed(FlightQuerySchema)
    ensures forall c: CabinClass :: CabinClassName(c) in CabinClassSchema.values
    ensures CabinClassSchema.values
         == [CabinClassName(Economy), CabinClassName(PremiumEconomy), CabinClassName(Business), CabinClassName(First)]
  {
    assert Closed(PassengersSchema) by {
      var props := PassengersSchema.properties;
      forall i | 0 <= i < |props|
        ensures props[i].name in PassengersSchema.required && Closed(props[i].schema)
      {
        assert i == 0 || i == 1 || i == 2;
      }
    }
    var props := FlightQuerySchema.properties;
    forall i | 0 <= i < |props|
      ensures props[i].name in FlightQuerySchema.required && Closed(props[i].schema)
    {
      assert i == 0 || i == 1 || i == 2 || i == 3 || i == 4 || i == 5 || i == 6;
    }
  }

  /** A departure on today's day is accepted: the check is a strict `<`. */
  lemma DepartureTodayAccepted(q: ParsedFlightQuery, today: int)
    requires q.departureDate == DayText(today) && !IsPresent(q.returnDate)
    ensures Validate(QueryPayload(q), today) == Ok(q)
  {
  }

  /** A missing or empty return date skips the return check: only the departure check can fail. */
  lemma AbsentReturnSkipsCheck(q: ParsedFlightQuery, today: int)
    requires q.returnDate == None || q.returnDate == Some(EmptyText)
    ensures Validate(QueryPayload(q), today).Ok? <==> !Before(q.departureDate, DayText(today))
  {
  }

  /** An unparseable return date is never rejected by the return check: only the departure check decides. */
  lemma UnparseableReturnNeverRejected(q: ParsedFlightQuery, today: int)
    requires q.returnDate == Some(MalformedText)
    ensures Validate(QueryPayload(q), today).Ok? <==> !Before(q.departureDate, DayText(today))
  {
  }

  /** An unparseable departure date (Invalid Date) is never rejected by either check. */
  lemma UnparseableDepartureNeverRejected(q: ParsedFlightQuery, today: int)
    requires !q.departureDate.DayText?
    ensures Validate(QueryPayload(q), today) == Ok(q)
  {
  }

  /** When both checks would fail, the departure check runs first and names `departureDate`. */
  lemma DepartureCheckFirst(q: ParsedFlightQuery, today: int)
    requires Before(q.departureDate, DayText(today))
    requires IsPresent(q.returnDate) && NotAfter(q.returnDate.value, q.departureDate)
    ensures Validate(QueryPayload(q), today).error.exception.field == Some("departureDate")
  {
  }

  /**
   * Worked case: with today at day `t`, a one-way query departing a week later
   * is returned as it is; departing the day before fails on `departureDate`.
   */
  lemma OneWayExample(
    query: string,
    clock: Clock,
    complete: CompletionRequest -> CompletionOutcome,
    jsonParse: string -> JsonOutcome<Payload>,
    q: ParsedFlightQuery)
    requires Generated(query, clock, complete, jsonParse) == Ok(QueryPayload(q))
    requires q.returnDate == None
    ensures q.departureDate == DayText(clock.today + 7) ==> Parse(query, clock, complete, jsonParse) == Ok(q)
    ensures q.departureDate == DayText(clock.today - 1) ==>
              Parse(query, clock, complete, jsonParse)
              == Err(App(InvalidFlightSearch(DepartureInPastMessage, Some("departureDate"))))
  {
  }
}
