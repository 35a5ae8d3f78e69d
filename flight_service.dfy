/** `flightService`: the cached destination lookup, which passes provider
    errors on to its caller, and the default filling of a flight search. */
module FlightService {
  import opened Wrappers
  import opened Types
  import JsString
  import JsNumber
  import opened LocationLookup

  /** `searchDestinations(query)`. A cached key answers at once and nothing
      else happens. Otherwise the previous request is aborted and a new one
      is sent with the raw query; an answer is cached under the key (a
      missing list as `[]`) and returned, a rejection is passed on and
      nothing is cached. */
  method SearchDestinations(lookup: LookupCache<FlightDestination>, query: string,
                            response: Response<seq<FlightDestination>>)
    returns (r: Result<seq<FlightDestination>, string>)
    requires lookup.Valid()
    modifies lookup
    ensures lookup.Valid()
    ensures CacheKey(query) in old(lookup.cache) ==>
      r == Success(old(lookup.cache)[CacheKey(query)]) && unchanged(lookup)
    ensures CacheKey(query) !in old(lookup.cache) ==>
      lookup.controllers == old(lookup.controllers) + 1 &&
      lookup.requests == old(lookup.requests) + [query] &&
      match response
      case Answered(data) =>
        r == Success(data.GetOr([])) && lookup.cache == old(lookup.cache)[CacheKey(query) := data.GetOr([])]
      case Rejected(reason) =>
        r == Failure(reason) && lookup.cache == old(lookup.cache)
    ensures r.Success? ==> CacheKey(query) in lookup.cache && lookup.cache[CacheKey(query)] == r.value
    ensures forall k | k in old(lookup.cache) :: k in lookup.cache
  {
    var hit := lookup.Cached(query);
    if hit.Some? {
      return Success(hit.value);
    }
    lookup.Send(query);
    match response
    case Answered(data) =>
      lookup.Store(CacheKey(query), data.GetOr([]));
      r := Success(data.GetOr([]));
    case Rejected(reason) =>
      r := Failure(reason);
  }

  /** The query `searchFlights` sends to the provider. */
  datatype FlightRequest = FlightRequest(
    fromId: string,
    toId: string,
    departDate: string,
    returnDate: string,
    stops: string,
    pageNo: int,
    adults: int,
    children: string,
    sort: string,
    cabinClass: string,
    currencyCode: string)

  /** `searchFlights(params)`: the required fields pass through, the others
      fall back to their defaults when absent or empty. */
  function FlightRequestOf(p: FlightSearchParams): (r: FlightRequest)
    ensures r.fromId == p.fromId && r.toId == p.toId && r.departDate == p.departDate
    ensures JsString.Defaulted(p.returnDate, "", r.returnDate)
    ensures JsString.Defaulted(p.stops, "none", r.stops)
    ensures JsNumber.Defaulted(p.pageNo, 1, r.pageNo)
    ensures JsNumber.Defaulted(p.adults, 1, r.adults)
    ensures JsString.Defaulted(p.children, "", r.children)
    ensures JsString.Defaulted(p.sort, "BEST", r.sort)
    ensures JsString.Defaulted(p.cabinClass, "ECONOMY", r.cabinClass)
    ensures JsString.Defaulted(p.currencyCode, "USD", r.currencyCode)
    ensures r.pageNo != 0 && r.adults != 0
  {
    FlightRequest(
      p.fromId, p.toId, p.departDate,
      JsString.OrString(p.returnDate, ""),
      JsString.OrString(p.stops, "none"),
      JsNumber.OrInt(p.pageNo, 1),
      JsNumber.OrInt(p.adults, 1),
      JsString.OrString(p.children, ""),
      JsString.OrString(p.sort, "BEST"),
      JsString.OrString(p.cabinClass, "ECONOMY"),
      JsString.OrString(p.currencyCode, "USD"))
  }
}
