/** `hotelService`: the cached destination lookup, which answers `[]` on any
    provider error, and the default filling of a hotel search. */
module HotelService {
  import opened Wrappers
  import opened Types
  import JsString
  import JsNumber
  import opened LocationLookup

  /** `searchDestinations(query)`. A cached key answers at once and nothing
      else happens. Otherwise the previous request is aborted and a new one
      is sent with the raw query; an answer is cached under the key (a
      missing list as `[]`) and returned, a rejection yields `[]` and nothing
      is cached. */
  method SearchDestinations(lookup: LookupCache<HotelDestination>, query: string,
                            response: Response<seq<HotelDestination>>)
    returns (r: seq<HotelDestination>)
    requires lookup.Valid()
    modifies lookup
    ensures lookup.Valid()
    ensures CacheKey(query) in old(lookup.cache) ==>
      r == old(lookup.cache)[CacheKey(query)] && unchanged(lookup)
    ensures CacheKey(query) !in old(lookup.cache) ==>
      lookup.controllers == old(lookup.controllers) + 1 &&
      lookup.requests == old(lookup.requests) + [query] &&
      match response
      case Answered(data) =>
        r == data.GetOr([]) && lookup.cache == old(lookup.cache)[CacheKey(query) := r]
      case Rejected(_) =>
        r == [] && lookup.cache == old(lookup.cache)
    ensures forall k | k in old(lookup.cache) :: k in lookup.cache
  {
    var hit := lookup.Cached(query);
    if hit.Some? {
      return hit.value;
    }
    lookup.Send(query);
    match response
    case Answered(data) =>
      lookup.Store(CacheKey(query), data.GetOr([]));
      r := data.GetOr([]);
    case Rejected(_) =>
      r := [];
  }

  /** The query `searchHotels` sends to the provider. */
  datatype HotelRequest = HotelRequest(
    destId: JsNumber.JsInt,
    searchType: string,
    arrivalDate: string,
    departureDate: string,
    adults: int,
    childrenAge: string,
    roomQty: int,
    pageNumber: int,
    priceMin: int,
    priceMax: int,
    sortBy: string,
    categoriesFilter: string,
    units: string,
    temperatureUnit: string,
    languageCode: string,
    currencyCode: string,
    location: string)

  /** `searchHotels(params)`: the required fields pass through, the others
      fall back to their defaults when absent, empty, zero or NaN. */
  function HotelRequestOf(p: HotelSearchParams): (r: HotelRequest)
    ensures r.destId == p.destId && r.searchType == p.searchType
    ensures r.arrivalDate == p.arrivalDate && r.departureDate == p.departureDate
    ensures JsNumber.Defaulted(p.adults, 1, r.adults)
    ensures JsString.Defaulted(p.childrenAge, "", r.childrenAge)
    ensures JsNumber.Defaulted(p.roomQty, 1, r.roomQty)
    ensures JsNumber.Defaulted(p.pageNumber, 1, r.pageNumber)
    ensures JsNumber.Defaulted(p.priceMin, 0, r.priceMin)
    ensures JsNumber.Defaulted(p.priceMax, 0, r.priceMax)
    ensures JsString.Defaulted(p.sortBy, "", r.sortBy)
    ensures JsString.Defaulted(p.categoriesFilter, "", r.categoriesFilter)
    ensures JsString.Defaulted(p.units, "metric", r.units)
    ensures JsString.Defaulted(p.temperatureUnit, "c", r.temperatureUnit)
    ensures JsString.Defaulted(p.languageCode, "en-us", r.languageCode)
    ensures JsString.Defaulted(p.currencyCode, "USD", r.currencyCode)
    ensures JsString.Defaulted(p.location, "US", r.location)
    ensures r.adults != 0 && r.roomQty != 0 && r.pageNumber != 0
  {
    HotelRequest(
      p.destId, p.searchType, p.arrivalDate, p.departureDate,
      JsNumber.OrInt(p.adults, 1),
      JsString.OrString(p.childrenAge, ""),
      JsNumber.OrInt(p.roomQty, 1),
      JsNumber.OrInt(p.pageNumber, 1),
      JsNumber.OrInt(p.priceMin, 0),
      JsNumber.OrInt(p.priceMax, 0),
      JsString.OrString(p.sortBy, ""),
      JsString.OrString(p.categoriesFilter, ""),
      JsString.OrString(p.units, "metric"),
      JsString.OrString(p.temperatureUnit, "c"),
      JsString.OrString(p.languageCode, "en-us"),
      JsString.OrString(p.currencyCode, "USD"),
      JsString.OrString(p.location, "US"))
  }
}
