/**
 * ChatController.chat (src/controllers/chat.controller.ts): parse the query,
 * search flights with exactly the parsed query, build the response, save the
 * history record, and only then answer. Any failure is re-thrown unchanged.
 *
 * The search-history table is the controller's `savedSearches` sequence; what
 * the database does with an insert is the parameter `store`. The search id,
 * the measured search time and the clock are parameters; the timestamp is not
 * modelled.
 */
module ChatController {
  import opened Wrappers
  import opened Exceptions
  import opened FlightTypes
  import opened OpenAi
  import opened FlightQueryParser
  import opened Duffel

  const MaxQueryLength := 500

  datatype ChatRequest = ChatRequest(query: string, userId: Option<string>)

  /** The request-body checks the framework applies before the handler runs: a non-empty query of at most 500 characters. */
  predicate ValidChatRequest(request: ChatRequest) {
    0 < |request.query| <= MaxQueryLength
  }

  datatype Metadata = Metadata(searchId: string, resultsCount: int, searchTime: int)

  datatype ChatResponse = ChatResponse(parsedQuery: ParsedFlightQuery, results: seq<FlightResult>, metadata: Metadata)

  /** The row handed to the search-history repository. */
  datatype HistoryRecord = HistoryRecord(
    userId: Option<string>,
    query: string,
    origin: string,
    destination: string,
    departureDate: DateText,
    returnDate: Option<DateText>,
    resultsCount: int,
    searchTimeMs: int,
    cabinClass: CabinClass,
    passengers: int)

  /** What the database does with one insert. */
  datatype SaveOutcome = Saved | SaveFailed(error: Thrown)

  /** `n || 0` on an optional count. */
  function OrZero(n: Option<int>): int {
    if n.Some? then n.value else 0
  }

  /** The response: the parsed query and the results as they came, and their number. */
  function ChatResponseFor(q: ParsedFlightQuery, results: seq<FlightResult>, searchId: string, searchTime: int)
    : (r: ChatResponse)
    ensures r.parsedQuery == q && r.results == results
    ensures r.metadata == Metadata(searchId, |results|, searchTime)
  {
    ChatResponse(q, results, Metadata(searchId, |results|, searchTime))
  }

  /** The history record: copied fields, the return date only when present, the total head count. */
  function HistoryRecordFor(request: ChatRequest, q: ParsedFlightQuery, results: seq<FlightResult>, searchTime: int)
    : (r: HistoryRecord)
    ensures r.userId == request.userId && r.query == request.query
    ensures r.origin == q.origin && r.destination == q.destination && r.cabinClass == q.cabinClass
    ensures r.departureDate == q.departureDate
    ensures r.returnDate == if IsPresent(q.returnDate) then q.returnDate else None
    ensures r.resultsCount == |results| && r.searchTimeMs == searchTime
    ensures r.passengers == q.passengers.adults + OrZero(q.passengers.children) + OrZero(q.passengers.infants)
  {
    HistoryRecord(
      request.userId,
      request.query,
      q.origin,
      q.destination,
      q.departureDate,
      if IsPresent(q.returnDate) then q.returnDate else None,
      |results|,
      searchTime,
      q.cabinClass,
      q.passengers.adults + OrZero(q.passengers.children) + OrZero(q.passengers.infants))
  }

  /**
   * For counts the schema admits (none negative), the history's head count is
   * the number of passengers sent to the flight search.
   */
  lemma HistoryCountsRequestedPassengers(
    request: ChatRequest, q: ParsedFlightQuery, results: seq<FlightResult>, searchTime: int)
    requires q.passengers.adults >= 0
    requires q.passengers.children.Some? ==> q.passengers.children.value >= 0
    requires q.passengers.infants.Some? ==> q.passengers.infants.value >= 0
    ensures HistoryRecordFor(request, q, results, searchTime).passengers == |PassengerList(q.passengers)|
  {
  }

  class ChatController {
    /** The search-history table, in insertion order. */
    var savedSearches: seq<HistoryRecord>

    constructor ()
      ensures savedSearches == []
    {
      savedSearches := [];
    }

    /** chat: parse, then search with the parsed query, then save; a response only once the save has completed. */
    method Chat(
      request: ChatRequest,
      clock: Clock,
      searchId: string,
      searchTime: int,
      complete: CompletionRequest -> CompletionOutcome,
      jsonParse: string -> JsonOutcome<Payload>,
      duffel: OfferRequest -> OffersOutcome,
      store: HistoryRecord -> SaveOutcome)
      returns (r: Result<ChatResponse, Thrown>)
      requires ValidChatRequest(request)
      modifies this
      ensures var parsed := Parse(request.query, clock, complete, jsonParse);
              parsed.Err? ==> r == Err(parsed.error) && savedSearches == old(savedSearches)
      ensures var parsed := Parse(request.query, clock, complete, jsonParse);
              parsed.Ok? ==>
                var searched := SearchOutcome(duffel(OfferRequestFor(parsed.value)));
                searched.Err? ==> r == Err(searched.error) && savedSearches == old(savedSearches)
      ensures var parsed := Parse(request.query, clock, complete, jsonParse);
              parsed.Ok? ==>
                var searched := SearchOutcome(duffel(OfferRequestFor(parsed.value)));
                searched.Ok? ==>
                  var record := HistoryRecordFor(request, parsed.value, searched.value, searchTime);
                  && (store(record).SaveFailed? ==> r == Err(store(record).error) && savedSearches == old(savedSearches))
                  && (store(record).Saved? ==>
                        && r == Ok(ChatResponseFor(parsed.value, searched.value, searchId, searchTime))
                        && savedSearches == old(savedSearches) + [record])
      ensures r.Ok? <==> savedSearches != old(savedSearches)
    {
      var parsed := Parse(request.query, clock, complete, jsonParse);
      if parsed.Err? {
        r := Err(parsed.error);
        return;
      }
      var parsedQuery := parsed.value;

      var searched := SearchFlights(parsedQuery, duffel);
      if searched.Err? {
        r := Err(searched.error);
        return;
      }
      var results := searched.value;

      var response := ChatResponseFor(parsedQuery, results, searchId, searchTime);
      var record := HistoryRecordFor(request, parsedQuery, response.results, searchTime);
      var saved := store(record);
      if saved.SaveFailed? {
        r := Err(saved.error);
        return;
      }
      savedSearches := savedSearches + [record];
      r := Ok(response);
    }
  }
}
