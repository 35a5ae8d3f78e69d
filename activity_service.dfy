/** `activityService`: the cached attraction-location lookup, which maps the
    provider's destination records before caching them and answers `[]` on
    any provider error, and the default filling of an attraction search. */
module ActivityService {
  import opened Wrappers
  import opened Types
  import JsString
  import JsNumber
  import opened LocationLookup

  /** A destination record as the provider sends it; only the fields the
      mapping reads. */
  datatype ProviderDestination = ProviderDestination(id: string, cityName: string, country: string, cc1: Option<string>)

  /** The provider's answer body: its `destinations` list may be missing. */
  datatype LocationBody = LocationBody(destinations: Option<seq<ProviderDestination>>)

  function ToLocation(d: ProviderDestination): (l: AttractionLocation)
    ensures l.id == d.id && l.name == d.cityName && l.country == d.country && l.region == d.cc1
  {
    AttractionLocation(d.id, d.cityName, d.country, d.cc1)
  }

  /** `destinations.map(...)`: one location per record, in the same order. */
  function ToLocations(ds: seq<ProviderDestination>): (r: seq<AttractionLocation>)
    ensures |r| == |ds|
    ensures forall i | 0 <= i < |ds| :: r[i] == ToLocation(ds[i])
  {
    if ds == [] then [] else [ToLocation(ds[0])] + ToLocations(ds[1..])
  }

  /** `response.data?.destinations || []`, mapped. */
  function LocationsOf(data: Option<LocationBody>): (r: seq<AttractionLocation>)
    ensures data.None? || data.value.destinations.None? ==> r == []
    ensures data.Some? && data.value.destinations.Some? ==> r == ToLocations(data.value.destinations.value)
  {
    match data
    case None => []
    case Some(body) => ToLocations(body.destinations.GetOr([]))
  }

  /** `searchLocations(query)`. A cached key answers at once and nothing
      else happens. Otherwise the previous request is aborted and a new one
      is sent with the raw query; an answer is mapped, and the mapped list
      is cached under the key and returned; a rejection yields `[]` and
      nothing is cached. */
  method SearchLocations(lookup: LookupCache<AttractionLocation>, query: string,
                         response: Response<LocationBody>)
    returns (r: seq<AttractionLocation>)
    requires lookup.Valid()
    modifies lookup
    ensures lookup.Valid()
    ensures CacheKey(query) in old(lookup.cache) ==>
      r == old(lookup.cache)[CacheKey(query)] && unchanged(lookup)
    ensures CacheKey(query) !in old(lookup.cache) ==>
      lookup.controllers == old(lookup.controllers) + 1 &&
      lookup.requests == old(lookup.requests) + [query] &&
      match response
      case Answered(data) =>
        r == LocationsOf(data) && lookup.cache == old(lookup.cache)[CacheKey(query) := r]
      case Rejected(_) =>
        r == [] && lookup.cache == old(lookup.cache)
    ensures forall k | k in old(lookup.cache) :: k in lookup.cache
  {
    var hit := lookup.Cached(query);
    if hit.Some? {
      return hit.value;
    }
    lookup.Send(query);
    match response
    case Answered(data) =>
      var locations := LocationsOf(data);
      lookup.Store(CacheKey(query), locations);
      r := locations;
    case Rejected(_) =>
      r := [];
  }

  /** The query `searchActivities` sends to the provider. */
  datatype AttractionRequest = AttractionRequest(
    id: string,
    startDate: string,
    endDate: string,
    sortBy: string,
    page: int,
    currencyCode: string,
    languageCode: string)

  /** `searchActivities(params)`: `id` passes through, the others fall back
      to their defaults when absent or empty. */
  function AttractionRequestOf(p: AttractionSearchParams): (r: AttractionRequest)
    ensures r.id == p.id
    ensures JsString.Defaulted(p.startDate, "", r.startDate)
    ensures JsString.Defaulted(p.endDate, "", r.endDate)
    ensures JsString.Defaulted(p.sortBy, "trending", r.sortBy)
    ensures JsNumber.Defaulted(p.page, 1, r.page)
    ensures JsString.Defaulted(p.currencyCode, "USD", r.currencyCode)
    ensures JsString.Defaulted(p.languageCode, "en-us", r.languageCode)
    ensures r.page != 0
  {
    AttractionRequest(
      p.id,
      JsString.OrString(p.startDate, ""),
      JsString.OrString(p.endDate, ""),
      JsString.OrString(p.sortBy, "trending"),
      JsNumber.OrInt(p.page, 1),
      JsString.OrString(p.currencyCode, "USD"),
      JsString.OrString(p.languageCode, "en-us"))
  }
}
