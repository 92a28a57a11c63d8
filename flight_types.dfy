/**
 * The request-scoped shapes of src/types/chat-response.ts: the parsed query the
 * language model emits and the flight results built from the provider's offers.
 */
module FlightTypes {
  import opened Wrappers

  /**
   * A date string as `new Date(...)` reads it. `DayText(d)` is a `YYYY-MM-DD`
   * string naming day number `d`; `EmptyText` is "" (falsy); `MalformedText` is
   * any other non-empty string, which yields an Invalid Date (NaN), so every
   * comparison involving it is false.
   */
  datatype DateText = EmptyText | DayText(day: int) | MalformedText

  /** `if (x)` on an optional date string: false for null, undefined and "". */
  predicate IsPresent(d: Option<DateText>) {
    d.Some? && !d.value.EmptyText?
  }

  /** `a < b` on two `Date` values; false whenever either is Invalid Date. */
  predicate Before(a: DateText, b: DateText) {
    a.DayText? && b.DayText? && a.day < b.day
  }

  /** `a <= b` on two `Date` values; false whenever either is Invalid Date. */
  predicate NotAfter(a: DateText, b: DateText) {
    a.DayText? && b.DayText? && a.day <= b.day
  }

  datatype CabinClass = Economy | PremiumEconomy | Business | First

  /** The JSON spelling of a cabin class. */
  function CabinClassName(c: CabinClass): string {
    match c
    case Economy => "economy"
    case PremiumEconomy => "premium_economy"
    case Business => "business"
    case First => "first"
  }

  /** Counts as the model emits them; `children` and `infants` may be missing (null). */
  datatype Passengers = Passengers(adults: int, children: Option<int>, infants: Option<int>)

  /** ParsedFlightQuery: missing optional fields are `None` (null or undefined in the source). */
  datatype ParsedFlightQuery = ParsedFlightQuery(
    origin: string,
    destination: string,
    departureDate: DateText,
    returnDate: Option<DateText>,
    passengers: Passengers,
    cabinClass: CabinClass,
    maxStops: Option<int>)

  /** A segment of an offer slice, passed through from the provider untouched. */
  datatype Segment = Segment(id: string, origin: string, destination: string)

  /**
   * An offer's price. The source turns `total_amount` into a float with
   * `parseFloat`; the model keeps the provider's decimal text instead.
   */
  datatype Price = Price(amountText: string, currency: string)

  datatype FlightResult = FlightResult(
    id: string,
    price: Price,
    segments: seq<Segment>,
    totalDuration: int,
    stops: int)
}
