/**
 * DuffelRepository.searchFlights (src/repositories/duffel.repository.ts): build
 * the offer request from a parsed query, hand it to the provider, and turn the
 * listed offers into at most twenty flight results.
 *
 * The two provider calls (create the offer request, then list its offers sorted
 * by total amount) are one parameter `duffel`: what the provider answers to a
 * request. Logging and latency are not modelled.
 */
module Duffel {
  import opened Wrappers
  import opened Exceptions
  import opened FlightTypes

  const ChildAge := 10
  const InfantAge := 1
  const MaxResults := 20
  const ProviderName := "Duffel"
  const SearchFailedMessage := "Flight search failed"

  /** A passenger of the offer request: adults by type, children and infants by an assumed age. */
  datatype RequestPassenger = AdultPassenger | PassengerOfAge(age: nat)

  datatype RequestSlice = RequestSlice(origin: string, destination: string, departureDate: DateText)

  datatype OfferRequest = OfferRequest(
    slices: seq<RequestSlice>,
    passengers: seq<RequestPassenger>,
    cabinClass: CabinClass,
    maxConnections: Option<int>)

  datatype OfferSlice = OfferSlice(duration: Option<string>, segments: seq<Segment>)

  datatype Offer = Offer(id: string, totalAmount: string, totalCurrency: string, slices: seq<OfferSlice>)

  /** The provider's answer: the offers in the order it sorted them, or a thrown value. */
  datatype OffersOutcome = OffersListed(offers: seq<Offer>) | OffersFailed(error: Thrown)

  /** How often `for (let i = 0; i < n; i++)` runs. */
  function Times(n: int): nat {
    if n < 0 then 0 else n
  }

  /** How many passengers an optional count adds; a missing count (falsy) adds none. */
  function OptionalTimes(n: Option<int>): nat {
    if n.Some? then Times(n.value) else 0
  }

  function Repeat<T>(x: T, n: nat): (r: seq<T>)
    ensures |r| == n && forall k | 0 <= k < n :: r[k] == x
  {
    seq(n, _ => x)
  }

  /** The passenger list: all adults, then one child of age 10 per child, then one infant of age 1 per infant. */
  function PassengerList(p: Passengers): (r: seq<RequestPassenger>)
    ensures |r| == Times(p.adults) + OptionalTimes(p.children) + OptionalTimes(p.infants)
    ensures forall k | 0 <= k < |r| ::
              r[k] == if k < Times(p.adults) then AdultPassenger
                      else if k < Times(p.adults) + OptionalTimes(p.children) then PassengerOfAge(ChildAge)
                      else PassengerOfAge(InfantAge)
  {
    Repeat(AdultPassenger, Times(p.adults))
    + Repeat(PassengerOfAge(ChildAge), OptionalTimes(p.children))
    + Repeat(PassengerOfAge(InfantAge), OptionalTimes(p.infants))
  }

  /** One outbound slice, and a return slice with the airports swapped when a return date is present. */
  function RequestSlices(q: ParsedFlightQuery): (r: seq<RequestSlice>)
    ensures |r| == if IsPresent(q.returnDate) then 2 else 1
    ensures r[0] == RequestSlice(q.origin, q.destination, q.departureDate)
    ensures |r| == 2 ==> r[1] == RequestSlice(q.destination, q.origin, q.returnDate.value)
  {
    [RequestSlice(q.origin, q.destination, q.departureDate)]
    + if IsPresent(q.returnDate) then [RequestSlice(q.destination, q.origin, q.returnDate.value)] else []
  }

  /** `max_connections`: absent when `maxStops` is null or undefined, else `maxStops` clamped to 0..2. */
  function MaxConnections(maxStops: Option<int>): (r: Option<int>)
    ensures r.None? <==> maxStops.None?
    ensures r.Some? ==> 0 <= r.value <= 2
    ensures r.Some? && 0 <= maxStops.value <= 2 ==> r.value == maxStops.value
    ensures r.Some? && maxStops.value < 0 ==> r.value == 0
    ensures r.Some? && maxStops.value > 2 ==> r.value == 2
  {
    if maxStops.None? then None
    else
      var atLeastZero := if maxStops.value < 0 then 0 else maxStops.value;
      Some(if atLeastZero < 2 then atLeastZero else 2)
  }

  /** The offer request searchFlights sends for a parsed query. */
  function OfferRequestFor(q: ParsedFlightQuery): OfferRequest {
    OfferRequest(RequestSlices(q), PassengerList(q.passengers), q.cabinClass, MaxConnections(q.maxStops))
  }

  /** The builders of searchFlights: counting loops that push passengers, then the slices, then the connections. */
  method BuildOfferRequest(q: ParsedFlightQuery) returns (request: OfferRequest)
    ensures request == OfferRequestFor(q)
  {
    var passengers: seq<RequestPassenger> := [];
    var adults := Times(q.passengers.adults);
    var i := 0;
    while i < q.passengers.adults
      invariant 0 <= i <= adults
      invariant passengers == Repeat(AdultPassenger, i)
    {
      passengers := passengers + [AdultPassenger];
      i := i + 1;
    }
    var children := OptionalTimes(q.passengers.children);
    if q.passengers.children.Some? && q.passengers.children.value != 0 {
      var j := 0;
      while j < q.passengers.children.value
        invariant 0 <= j <= children
        invariant passengers == Repeat(AdultPassenger, adults) + Repeat(PassengerOfAge(ChildAge), j)
      {
        passengers := passengers + [PassengerOfAge(ChildAge)];
        j := j + 1;
      }
    }
    var infants := OptionalTimes(q.passengers.infants);
    ghost var before := passengers;
    assert before == Repeat(AdultPassenger, adults) + Repeat(PassengerOfAge(ChildAge), children);
    if q.passengers.infants.Some? && q.passengers.infants.value != 0 {
      var k := 0;
      while k < q.passengers.infants.value
        invariant 0 <= k <= infants
        invariant passengers == before + Repeat(PassengerOfAge(InfantAge), k)
      {
        passengers := passengers + [PassengerOfAge(InfantAge)];
        k := k + 1;
      }
    }
    assert passengers == before + Repeat(PassengerOfAge(InfantAge), infants);

    var slices := [RequestSlice(q.origin, q.destination, q.departureDate)];
    if IsPresent(q.returnDate) {
      slices := slices + [RequestSlice(q.destination, q.origin, q.returnDate.value)];
    }

    var maxConnections: Option<int> := None;
    if q.maxStops.Some? {
      var n := q.maxStops.value;
      maxConnections := Some(if 2 < (if 0 < n then n else 0) then 2 else (if 0 < n then n else 0));
    }

    request := OfferRequest(slices, passengers, q.cabinClass, maxConnections);
  }

  predicate IsDigit(c: char) {
    '0' <= c <= '9'
  }

  predicate AllDigits(s: string) {
    forall i | 0 <= i < |s| :: IsDigit(s[i])
  }

  /** `s.replace(/[^\d]/g, '')`: the digits of `s`, in order. */
  function DigitsOnly(s: string): (d: string)
    ensures AllDigits(d) && |d| <= |s|
    ensures AllDigits(s) ==> d == s
  {
    if s == [] then []
    else (if IsDigit(s[0]) then [s[0]] else []) + DigitsOnly(s[1..])
  }

  /** The decimal value of a string of digits, most significant first. */
  function DecimalValue(d: string): nat
    requires AllDigits(d)
  {
    if d == [] then 0 else 10 * DecimalValue(d[..|d| - 1]) + (d[|d| - 1] as int - '0' as int)
  }

  /**
   * One slice's contribution to totalDuration: `parseInt` of its digits, or 0
   * when the duration is missing or empty (falsy) or has no digit (NaN `|| 0`).
   */
  function SliceDuration(s: OfferSlice): nat {
    match s.duration
    case None => 0
    case Some(text) => if text == "" then 0 else DecimalValue(DigitsOnly(text))
  }

  function TotalDuration(slices: seq<OfferSlice>): nat {
    if slices == [] then 0 else SliceDuration(slices[0]) + TotalDuration(slices[1..])
  }

  /** `flatMap` of the slices' segments. */
  function FlatSegments(slices: seq<OfferSlice>): seq<Segment> {
    if slices == [] then [] else slices[0].segments + FlatSegments(slices[1..])
  }

  /** The sum over slices of (segment count - 1). */
  function Stops(slices: seq<OfferSlice>): int {
    if slices == [] then 0 else |slices[0].segments| - 1 + Stops(slices[1..])
  }

  /** Stops counts the connections: all segments less one per slice. */
  lemma {:induction false} StopsAreConnections(slices: seq<OfferSlice>)
    ensures Stops(slices) == |FlatSegments(slices)| - |slices|
  {
    if slices != [] {
      StopsAreConnections(slices[1..]);
    }
  }

  /** Flattening keeps slice order: the segments of a concatenation are the concatenated segments. */
  lemma {:induction false} FlatSegmentsAppend(a: seq<OfferSlice>, b: seq<OfferSlice>)
    ensures FlatSegments(a + b) == FlatSegments(a) + FlatSegments(b)
  {
    if a == [] {
      assert a + b == b;
    } else {
      assert (a + b)[1..] == a[1..] + b;
      FlatSegmentsAppend(a[1..], b);
    }
  }

  /** The total duration is additive over slices. */
  lemma {:induction false} TotalDurationAppend(a: seq<OfferSlice>, b: seq<OfferSlice>)
    ensures TotalDuration(a + b) == TotalDuration(a) + TotalDuration(b)
  {
    if a == [] {
      assert a + b == b;
    } else {
      assert (a + b)[1..] == a[1..] + b;
      TotalDurationAppend(a[1..], b);
    }
  }

  /** Removing non-digits works piecewise: the digits of a concatenation are the concatenated digits. */
  lemma {:induction false} DigitsOnlyAppend(a: string, b: string)
    ensures DigitsOnly(a + b) == DigitsOnly(a) + DigitsOnly(b)
  {
    if a == [] {
      assert a + b == b;
    } else {
      assert (a + b)[1..] == a[1..] + b;
      DigitsOnlyAppend(a[1..], b);
    }
  }

  /** A duration text without any digit contributes 0. */
  lemma {:induction false} NoDigitsNoDuration(text: string)
    requires forall i | 0 <= i < |text| :: !IsDigit(text[i])
    ensures SliceDuration(OfferSlice(Some(text), [])) == 0
  {
    NoDigitsEmpty(text);
  }

  lemma {:induction false} NoDigitsEmpty(text: string)
    requires forall i | 0 <= i < |text| :: !IsDigit(text[i])
    ensures DigitsOnly(text) == []
  {
    if text != [] {
      NoDigitsEmpty(text[1..]);
    }
  }

  /**
   * An ISO 8601 duration is read by its digits alone: "PT" + h + "H" + m + "M" counts as the
   * decimal number written by the digits of h followed by those of m, not as
   * h * 60 + m minutes.
   */
  lemma IsoDurationReadAsDigits(h: string, m: string)
    requires AllDigits(h) && AllDigits(m)
    ensures AllDigits(h + m)
    ensures SliceDuration(OfferSlice(Some("PT" + h + "H" + m + "M"), [])) == DecimalValue(h + m)
  {
    var a := "PT" + h;
    var b := a + "H";
    var c := b + m;
    NoDigitsEmpty("PT");
    NoDigitsEmpty("H");
    NoDigitsEmpty("M");
    calc {
      DigitsOnly(c + "M");
      { DigitsOnlyAppend(c, "M"); assert DigitsOnly(c) + [] == DigitsOnly(c); }
      DigitsOnly(c);
      { DigitsOnlyAppend(b, m); }
      DigitsOnly(b) + m;
      { DigitsOnlyAppend(a, "H"); assert DigitsOnly(a) + [] == DigitsOnly(a); }
      DigitsOnly(a) + m;
      { DigitsOnlyAppend("PT", h); assert [] + h == h; }
      h + m;
    }
  }

  /** "PT2H30M" (two and a half hours) counts as 230. */
  lemma TwoAndAHalfHoursCountAs230()
    ensures SliceDuration(OfferSlice(Some("PT" + "2" + "H" + "30" + "M"), [])) == 230
  {
    IsoDurationReadAsDigits("2", "30");
    assert "2" + "30" == "230";
    assert "230"[..2] == "23" && "23"[..1] == "2" && "2"[..0] == [];
    assert DecimalValue("2") == 2;
    assert DecimalValue("23") == 23;
  }

  /** One flight result per offer: id and currency copied, segments flattened, durations and stops summed. */
  function ToFlightResult(offer: Offer): (r: FlightResult)
    ensures r.id == offer.id && r.price == Price(offer.totalAmount, offer.totalCurrency)
    ensures r.segments == FlatSegments(offer.slices)
    ensures r.stops == |r.segments| - |offer.slices|
    ensures r.totalDuration == TotalDuration(offer.slices) && r.totalDuration >= 0
  {
    StopsAreConnections(offer.slices);
    FlightResult(
      offer.id,
      Price(offer.totalAmount, offer.totalCurrency),
      FlatSegments(offer.slices),
      TotalDuration(offer.slices),
      Stops(offer.slices))
  }

  /** `offers.slice(0, 20).map(...)`: at most twenty results, the first offers in provider order. */
  function TransformOffers(offers: seq<Offer>): (r: seq<FlightResult>)
    ensures |r| == if |offers| < MaxResults then |offers| else MaxResults
    ensures forall i | 0 <= i < |r| :: r[i] == ToFlightResult(offers[i])
  {
    var kept := if |offers| < MaxResults then offers else offers[..MaxResults];
    seq(|kept|, i requires 0 <= i < |kept| => ToFlightResult(kept[i]))
  }

  /** The catch block: every failure becomes ExternalApiException('Duffel', error, 'Flight search failed'). */
  function SearchFailure(error: Thrown): (e: Thrown)
    ensures e.App? && e.exception.ExternalApi? && e.exception.originalError == error
    ensures Status(e.exception) == BadGateway
    ensures ResponseBody(e.exception).provider == Some(ProviderName)
    ensures BodyMessage(e.exception) == SearchFailedMessage
  {
    App(ExternalApi(ProviderName, error, Some(SearchFailedMessage)))
  }

  /** What searchFlights returns for the provider's answer. */
  function SearchOutcome(answer: OffersOutcome): (r: Result<seq<FlightResult>, Thrown>)
    ensures r.Ok? <==> answer.OffersListed?
    ensures r.Ok? ==> r.value == TransformOffers(answer.offers)
    ensures r.Err? ==> r.error == SearchFailure(answer.error)
  {
    match answer
    case OffersListed(offers) => Ok(TransformOffers(offers))
    case OffersFailed(error) => Err(SearchFailure(error))
  }

  /** searchFlights: build the request, ask the provider, transform its offers or wrap its failure. */
  method SearchFlights(q: ParsedFlightQuery, duffel: OfferRequest -> OffersOutcome)
    returns (r: Result<seq<FlightResult>, Thrown>)
    ensures r == SearchOutcome(duffel(OfferRequestFor(q)))
  {
    var request := BuildOfferRequest(q);
    match duffel(request)
    case OffersListed(offers) =>
      r := Ok(TransformOffers(offers));
    case OffersFailed(error) =>
      r := Err(SearchFailure(error));
  }
}
