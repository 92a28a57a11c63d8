# Flight-search chat pipeline: a Dafny model

This project models the decision logic of a conversational flight-search backend. A chat request carries a free-text query. A language model turns it into a `ParsedFlightQuery`, which has to pass two date checks. The query then drives an offer search at the Duffel flight API, the search is written to a history table, and the handler answers with the query and the results. Whatever goes wrong on the way is raised as one of five exception classes, and a global exception filter maps it to an HTTP status, an error name, a message and optional details.

Every remote call is a parameter of the model:
- `complete`: the OpenAI chat completion.
- `jsonParse`: `JSON.parse`.
- `duffel`: creating the offer request and listing its offers.
- `store`: the history insert.

Each parameter answers with a value or a thrown value, so the model can state which request each service receives. The clock (`Clock`: today's day number and the calendar date the prompt is anchored to), `NODE_ENV`, the search id and the measured search time are parameters too.

Modules, one per source file:
- `Exceptions` (`src/common/exceptions/index.ts`): the five classes as a datatype of their constructor arguments, their statuses, bodies and names. It also has `Thrown`, which covers everything a `throw` can carry: an application exception, another HttpException, a plain Error, or a non-Error value.
- `FlightTypes` (`src/types/chat-response.ts`): the parsed query and the flight result.
  - Dates are `DateText`: a day number, the empty string, or malformed text. As with JavaScript's Invalid Date, every comparison involving malformed text is false.
- `OpenAi`: `generateStructuredOutput`. It builds the request with its defaults, and turns every failure into one `AiValidationException`.
- `FlightQueryParser`: `parse`. It holds the prompt and the closed schema, then runs the departure check, then the return check, then classifies failures.
- `Duffel`: `searchFlights`.
  - `BuildOfferRequest` is imperative: it has the three counting loops that push passengers, the conditional return slice and the assigned `maxConnections`.
  - The offer transform is made of functions: the first 20 offers, flattened segments, a digits-only duration and the summed stops.
- `ExceptionFilter`: `parseException`, `getErrorName`, the details gating in `catch` and the log level.
- `ChatController`: a class whose `Chat` method runs parse, then search, then save. It appends to `savedSearches` only when all three succeed.
- `Pipeline`: end-to-end lemmas. Parser rejections reach the client as 400, model failures as 422 and provider failures as 502.

The date checks compare JavaScript `Date` values, and every comparison with an Invalid Date is false:
- The parser's own message (src/repositories/flight-query-parser.ts:104) says a return date must be after departure. An unparseable return date still never fails the return check (`UnparseableReturnNeverRejected`).
- An unparseable departure passes both checks (`UnparseableDepartureNeverRejected`).
- The departure is parsed as a UTC date and compared with local midnight. The model uses day numbers, so this offset is not captured.

Two behaviours of the NestJS `HttpException` base class are assumed for the five application classes, since its source is not part of this model:
- `name` is the class name.
- `message` is the body's `message` when that is a string (`AppMessageFromResponse`).

For any other HttpException, `name`, `message`, status and response are free parameters. `MessageFromResponse` states the same rule for them, but it is not required anywhere.

## Model

| member | source | states |
|---|---|---|
| `Exceptions.Status` | src/common/exceptions/index.ts:6-90 | the status each class passes to `super`: ExternalApi 502, AiValidation 422, InvalidFlightSearch 400, RateLimit 429, ConversationNotFound 404; all are 4xx or 5xx, and only ExternalApiException is a server error |
| `Exceptions.BodyMessage` | src/common/exceptions/index.ts:13-86 | ExternalApiException's message is the given one unless it is missing or empty, then "External API error: " + provider, so it is never empty; AiValidation and InvalidFlightSearch keep their given message; RateLimitException has the fixed "Too many requests. Please try again later."; ConversationNotFound says "Conversation " + id + " not found" |
| `Exceptions.ResponseBody` | src/common/exceptions/index.ts:12-88 | the `statusCode` each class writes in its body (`BodyStatusCode`) equals the status it passes to `super` (`Status`); error and message are the class's; provider, field and retryAfter appear exactly in their own class |
| `Exceptions.NameOf` | src/repositories/flight-query-parser.ts:125-126 | every Error has a name; an application exception's name is its class name |
| `Exceptions.AppMessageFromResponse` | src/common/exceptions/index.ts:12-88 | each application exception's `message` is its body's string message, as HttpException derives it |
| `Exceptions.ClassNamesDistinct` | src/repositories/flight-query-parser.ts:125-129 | among the five classes, only AiValidationException carries the name 'AiValidationException' |
| `OpenAi.CompletionRequestFor` | src/repositories/openai.repository.ts:41-56 | the request has exactly two messages, system prompt then user prompt, and a strict json_schema format named 'response' carrying the given schema |
| `OpenAi.ModelDefault` | src/repositories/openai.repository.ts:42 | the model id is 'gpt-4o-mini' when missing or empty (`||`), the given id otherwise |
| `OpenAi.TemperatureDefault` | src/repositories/openai.repository.ts:43 | the temperature is 0.7 only when missing (`??`); any given value, 0 included, is kept |
| `OpenAi.NormaliseFailure` | src/repositories/openai.repository.ts:96-106 | the result is always an AiValidationException; one passes through unchanged; any other Error gives its message with the Error as rawOutput; a non-Error gives the generic message |
| `OpenAi.GenerateStructuredOutput` | src/repositories/openai.repository.ts:31-108 | every failure is an AiValidationException; success happens exactly when the call answered with non-empty content that parsed, and returns that parsed value |
| `OpenAi.EmptyContentFails` | src/repositories/openai.repository.ts:59-63 | missing or empty content fails with "OpenAI returned empty response", not re-wrapped |
| `OpenAi.ThrownErrorKeepsMessage` | src/repositories/openai.repository.ts:101-106 | an Error thrown by the call or by JSON parsing becomes AiValidation with that Error's message and the Error as rawOutput |
| `OpenAi.ThrownValueGetsGenericMessage` | src/repositories/openai.repository.ts:101-106 | a thrown non-Error becomes AiValidation "Failed to generate structured output from OpenAI" carrying the value |
| `FlightQueryParser.ParserParams` | src/repositories/flight-query-parser.ts:81-86 | parse passes the query as the user prompt, the flight-query schema, temperature 0.3 and no model |
| `FlightQueryParser.ParserRequestShape` | src/repositories/flight-query-parser.ts:81-86 | the request parse causes: model 'gpt-4o-mini', temperature 0.3, system prompt then query, strict schema |
| `FlightQueryParser.FlightQuerySchemaClosed` | src/repositories/flight-query-parser.ts:38-78 | the schema is closed at both levels (every property required, no additional properties); its cabin enumeration is exactly the four cabin classes' names, in order |
| `FlightQueryParser.Validate` | src/repositories/flight-query-parser.ts:88-108 | accepts exactly when departure is not before today and no present return date is on or before departure; returns the object unchanged; a past departure fails on `departureDate` first, else a bad return fails on `returnDate`; a null payload raises a TypeError |
| `FlightQueryParser.Classify` | src/repositories/flight-query-parser.ts:120-137 | InvalidFlightSearch, and anything named 'AiValidationException', pass through unchanged; anything else becomes InvalidFlightSearch "Failed to parse flight query" with no field |
| `FlightQueryParser.Parse` | src/repositories/flight-query-parser.ts:22-138 | failures are only InvalidFlightSearch or AiValidation; success exactly when generation succeeded and validation passed, returning the provider's object unchanged; generation failures pass through; a null payload gives the generic failure |
| `FlightQueryParser.DepartureTodayAccepted` | src/repositories/flight-query-parser.ts:91-93 | a departure on today's day is accepted, since the comparison is strict |
| `FlightQueryParser.AbsentReturnSkipsCheck` | src/repositories/flight-query-parser.ts:100 | with a null or empty return date only the departure check decides |
| `FlightQueryParser.UnparseableReturnNeverRejected` | src/repositories/flight-query-parser.ts:100-107 | with an Invalid Date return date, only the departure check decides |
| `FlightQueryParser.UnparseableDepartureNeverRejected` | src/repositories/flight-query-parser.ts:89-102 | an Invalid Date departure passes both checks |
| `FlightQueryParser.DepartureCheckFirst` | src/repositories/flight-query-parser.ts:93-108 | when both checks would fail, the reported field is `departureDate` |
| `FlightQueryParser.OneWayExample` | src/repositories/flight-query-parser.ts:88-119 | a one-way query a week ahead is returned as it is; one dated yesterday fails on `departureDate` |
| `Duffel.PassengerList` | src/repositories/duffel.repository.ts:49-68 | length is adults + children + infants (missing or negative counts add none); all adults first, then age 10 per child, then age 1 per infant |
| `Duffel.RequestSlices` | src/repositories/duffel.repository.ts:71-90 | one slice when the return date is falsy, two when truthy; the second swaps origin and destination and departs on the return date |
| `Duffel.MaxConnections` | src/repositories/duffel.repository.ts:93-96 | absent exactly when maxStops is null; otherwise maxStops clamped to 0..2 |
| `Duffel.BuildOfferRequest` | src/repositories/duffel.repository.ts:48-96 | the loops and assignments build exactly the request of the functions above |
| `Duffel.DigitsOnly` | src/repositories/duffel.repository.ts:123 | the non-digit removal yields only digits, no longer than the input, and leaves a digits-only text unchanged |
| `Duffel.DigitsOnlyAppend` | src/repositories/duffel.repository.ts:123 | removing non-digits distributes over concatenation |
| `Duffel.NoDigitsEmpty` | src/repositories/duffel.repository.ts:123 | a text without digits reduces to the empty string |
| `Duffel.NoDigitsNoDuration` | src/repositories/duffel.repository.ts:123 | a duration with no digit counts 0 (`parseInt` gives NaN, `|| 0`) |
| `Duffel.IsoDurationReadAsDigits` | src/repositories/duffel.repository.ts:122-125 | a duration `"PT" + h + "H" + m + "M"` contributes the decimal number written by the digits of h then m, not a count of minutes |
| `Duffel.TwoAndAHalfHoursCountAs230` | src/repositories/duffel.repository.ts:122-125 | a duration of "PT2H30M" contributes 230 to totalDuration |
| `Duffel.StopsAreConnections` | src/repositories/duffel.repository.ts:126 | stops equals the total segment count minus the number of slices |
| `Duffel.FlatSegmentsAppend` | src/repositories/duffel.repository.ts:121 | segments are the in-order concatenation of slice segments |
| `Duffel.TotalDurationAppend` | src/repositories/duffel.repository.ts:122-125 | the total duration is the sum of the slices' durations |
| `Duffel.ToFlightResult` | src/repositories/duffel.repository.ts:115-127 | id and currency copied; segments flattened; stops = segments - slices; totalDuration the non-negative digits-only sum |
| `Duffel.TransformOffers` | src/repositories/duffel.repository.ts:115 | min(20, offers) results, result i transformed from offer i |
| `Duffel.SearchFailure` | src/repositories/duffel.repository.ts:138-153 | any failure becomes ExternalApiException('Duffel', error, 'Flight search failed'): status 502, provider in the body |
| `Duffel.SearchOutcome` | src/repositories/duffel.repository.ts:106-153 | results exactly when the provider listed offers, transformed from them; otherwise the wrapped failure |
| `Duffel.SearchFlights` | src/repositories/duffel.repository.ts:35-154 | the provider receives exactly the request built from the query, and the outcome is SearchOutcome of its answer |
| `ExceptionFilter.GetErrorName` | src/common/filters/global-exception.filter.ts:106-122 | the tabled name for the 11 listed codes, 'HttpException' for every other; never empty |
| `ExceptionFilter.ErrorNameTable` | src/common/filters/global-exception.filter.ts:107-121 | the name for each of the 11 codes, and the fallback |
| `ExceptionFilter.ParseException` | src/common/filters/global-exception.filter.ts:51-101 | an HttpException keeps its status; with an object body, error is body.error or getErrorName, message is body.message (a string or a list) unless missing or empty, then the exception's message, and details is the body; with a non-object body, (status, getErrorName, message, no details); a plain Error gives 500 InternalServerError, a non-Error 500 UnknownError; the error name is never empty |
| `ExceptionFilter.LogLevelFor` | src/common/filters/global-exception.filter.ts:142-163 | error level exactly when the status is at least 500, warn otherwise |
| `ExceptionFilter.Catch` | src/common/filters/global-exception.filter.ts:23-46 | the status sent equals the body's statusCode; details appear exactly in development when truthy |
| `ExceptionFilter.AppExceptionParsed` | src/common/filters/global-exception.filter.ts:58-71 | parseException gives each application exception its class's status, error code and message, and its body as details (sent to the client only in development) |
| `ChatController.ChatResponseFor` | src/controllers/chat.controller.ts:73-82 | the response carries the parsed query and results unchanged, and resultsCount equals the number of results |
| `ChatController.HistoryRecordFor` | src/controllers/chat.controller.ts:85-99 | origin, destination, cabin and departure copied; return date only when truthy; resultsCount is the number of results; passengers is adults + children + infants, a missing count counting 0 |
| `ChatController.HistoryCountsRequestedPassengers` | src/controllers/chat.controller.ts:95-98 | for non-negative counts, the history head count equals the passenger list sent to the search |
| `ChatController.ChatController.Chat` | src/controllers/chat.controller.ts:51-121 | parse runs first, the search gets exactly the parsed query, the save runs only after both succeed; any failure is re-thrown unchanged and nothing is saved; a response is returned only after the save completes, with its record appended |
| `Pipeline.AiFailureNotConflated` | src/repositories/openai.repository.ts:59-106 | a failed call, empty content or unparseable content makes parse fail with AiValidation, never InvalidFlightSearch |
| `Pipeline.ParseFailureReply` | src/repositories/flight-query-parser.ts:120-137 | parse failures reach the client as 422 AiValidationError if the model call failed and as 400 InvalidFlightSearch otherwise, logged as warnings |
| `Pipeline.SearchFailureReply` | src/repositories/duffel.repository.ts:138-153 | search failures reach the client as 502 ExternalApiError "Flight search failed", logged as errors, with the provider in development details |
| `Pipeline.PastDepartureReply` | src/repositories/flight-query-parser.ts:93-98 | in every environment a past departure reaches the client as 400 with the departure message; only in development do details appear, carrying the field `departureDate` |

## Left out

- The OpenAI and Duffel SDK calls and the database insert: they are remote I/O. Each is a parameter giving the answer or the thrown value. Duffel's two calls (create the offer request, then list its offers sorted by total amount) are one parameter, and their order is the provider's.
- `JSON.parse` and the provider's schema enforcement: the parse outcome is a parameter. Its value is either the query or `null`. Other JSON values (numbers, arrays) are not modelled, since the provider constrains content to the schema.
- What the language model extracts from the prompt: it is non-deterministic. The prompt is constant text with the current date inserted.
- JavaScript `Date` semantics and time zones: dates are day numbers, and a date string is abstracted to the day it names, "" or malformed text.
- `parseFloat(offer.total_amount)`: it is floating point. The price keeps the provider's amount text.
- Counts and `maxStops` are integers. Fractional JSON numbers, and `parseInt` precision above 2^53 in durations, are not modelled.
- A completion response without a `choices` array: the resulting TypeError is not modelled. `Completed(None)` stands for a missing choice, message or content.
- The `description` strings of the flight-query schema's properties: only the language model reads them, and they change no check. `FlightQuerySchema` and the request it is sent in omit them.
- The `arrival_time` and `departure_time` fields of request slices are not modelled: they are always null.
- Logging, latency from `Date.now`, `randomUUID`, ISO timestamps, and the stack text: these only serve observability and are nondeterministic. The stack is a flag saying whether it is shown.
- The repositories' constructors, which check that an API key is configured: this is configuration, not request logic.
- The search-history repository, its entity, the migrations and the data source: their queries run in the database. The history table is the controller's `savedSearches` sequence.
- The search-history controller: it only reads a limit and forwards it to the database layer.
- The chat request's class-validator decorators: the non-empty, at most 500 characters rule is the precondition `ValidChatRequest`.
- Application bootstrap, the module wiring, the app service and the lint configuration: these are framework wiring.
- `error-response.ts` and `chat-response.ts`: they hold no logic and are used only as record shapes.
- Concurrency between requests: every handler call is independent.
- The total duration is summed from the first slice, as `reduce` does, but without floating-point rounding.
