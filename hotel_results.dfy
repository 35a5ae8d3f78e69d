/** The hotel results page: it reads the search back from the query string,
    runs it once, builds hotels from the provider's properties, and lets the
    user add a hotel to the itinerary. */
module HotelResults {
  import opened Wrappers
  import opened Types
  import opened JsNumber
  import JsString
  import opened UrlParams
  import opened HotelService
  import opened HotelSearch
  import opened Itinerary
  import opened LocationLookup

  const MissingParamsError: string := "Missing required search parameters"

  // ------------------------------------------------------ parameters

  /** The gate of the search: the four required fields are non-empty. */
  predicate HasRequired(query: Entries) {
    JsString.Truthy(Get(query, "dest_id")) && JsString.Truthy(Get(query, "search_type")) &&
    JsString.Truthy(Get(query, "arrival_date")) && JsString.Truthy(Get(query, "departure_date"))
  }

  /** The condition under which the page reports missing parameters: it
      checks three of the four required fields and not `search_type`. */
  predicate ReportsMissing(query: Entries) {
    !JsString.Truthy(Get(query, "dest_id")) || !JsString.Truthy(Get(query, "arrival_date")) ||
    !JsString.Truthy(Get(query, "departure_date"))
  }

  /** `price ? Number.parseInt(price) : undefined` */
  function OptionalNumber(text: Option<string>): (r: Option<JsInt>)
    ensures r.Some? <==> JsString.Truthy(text)
    ensures r.Some? ==> r.value == ParseInt(text.value)
  {
    if JsString.Truthy(text) then Some(ParseInt(text.value)) else None
  }

  /** The search the page runs for `query`, `None` unless the gate holds. */
  function ParseHotelParams(query: Entries): (r: Option<HotelSearchParams>)
    ensures r.Some? <==> HasRequired(query)
    ensures r.Some? ==>
      r.value.destId == ParseInt(Get(query, "dest_id").value) &&
      Some(r.value.searchType) == Get(query, "search_type") &&
      Some(r.value.arrivalDate) == Get(query, "arrival_date") &&
      Some(r.value.departureDate) == Get(query, "departure_date")
    ensures r.Some? && JsString.Truthy(Get(query, "adults")) ==> r.value.adults == Some(ParseInt(Get(query, "adults").value))
    ensures r.Some? && !JsString.Truthy(Get(query, "adults")) ==> r.value.adults == Some(Int(1))
    ensures r.Some? && JsString.Truthy(Get(query, "children_age")) ==> r.value.childrenAge == Get(query, "children_age")
    ensures r.Some? && !JsString.Truthy(Get(query, "children_age")) ==> r.value.childrenAge == None
    ensures r.Some? && JsString.Truthy(Get(query, "room_qty")) ==> r.value.roomQty == Some(ParseInt(Get(query, "room_qty").value))
    ensures r.Some? && !JsString.Truthy(Get(query, "room_qty")) ==> r.value.roomQty == Some(Int(1))
    ensures r.Some? && JsString.Truthy(Get(query, "page_number")) ==> r.value.pageNumber == Some(ParseInt(Get(query, "page_number").value))
    ensures r.Some? && !JsString.Truthy(Get(query, "page_number")) ==> r.value.pageNumber == Some(Int(1))
    ensures r.Some? && JsString.Truthy(Get(query, "price_min")) ==> r.value.priceMin == Some(ParseInt(Get(query, "price_min").value))
    ensures r.Some? && !JsString.Truthy(Get(query, "price_min")) ==> r.value.priceMin == None
    ensures r.Some? && JsString.Truthy(Get(query, "price_max")) ==> r.value.priceMax == Some(ParseInt(Get(query, "price_max").value))
    ensures r.Some? && !JsString.Truthy(Get(query, "price_max")) ==> r.value.priceMax == None
    ensures r.Some? && JsString.Truthy(Get(query, "sort_by")) ==> r.value.sortBy == Get(query, "sort_by")
    ensures r.Some? && !JsString.Truthy(Get(query, "sort_by")) ==> r.value.sortBy == None
    ensures r.Some? && JsString.Truthy(Get(query, "categories_filter")) ==> r.value.categoriesFilter == Get(query, "categories_filter")
    ensures r.Some? && !JsString.Truthy(Get(query, "categories_filter")) ==> r.value.categoriesFilter == None
    ensures r.Some? && JsString.Truthy(Get(query, "units")) ==> r.value.units == Get(query, "units")
    ensures r.Some? && !JsString.Truthy(Get(query, "units")) ==> r.value.units == Some("metric")
    ensures r.Some? && JsString.Truthy(Get(query, "temperature_unit")) ==> r.value.temperatureUnit == Get(query, "temperature_unit")
    ensures r.Some? && !JsString.Truthy(Get(query, "temperature_unit")) ==> r.value.temperatureUnit == Some("c")
    ensures r.Some? && JsString.Truthy(Get(query, "languagecode")) ==> r.value.languageCode == Get(query, "languagecode")
    ensures r.Some? && !JsString.Truthy(Get(query, "languagecode")) ==> r.value.languageCode == Some("en-us")
    ensures r.Some? && JsString.Truthy(Get(query, "currency_code")) ==> r.value.currencyCode == Get(query, "currency_code")
    ensures r.Some? && !JsString.Truthy(Get(query, "currency_code")) ==> r.value.currencyCode == Some("USD")
    ensures r.Some? && JsString.Truthy(Get(query, "location")) ==> r.value.location == Get(query, "location")
    ensures r.Some? && !JsString.Truthy(Get(query, "location")) ==> r.value.location == Some("US")
  {
    if !HasRequired(query) then None
    else
      Some(HotelSearchParams(
        ParseInt(Get(query, "dest_id").value),
        Get(query, "search_type").value,
        Get(query, "arrival_date").value,
        Get(query, "departure_date").value,
        Some(ParseIntOr(Get(query, "adults"), 1)),
        JsString.OrAbsent(Get(query, "children_age")),
        Some(ParseIntOr(Get(query, "room_qty"), 1)),
        Some(ParseIntOr(Get(query, "page_number"), 1)),
        OptionalNumber(Get(query, "price_min")),
        OptionalNumber(Get(query, "price_max")),
        JsString.OrAbsent(Get(query, "sort_by")),
        JsString.OrAbsent(Get(query, "categories_filter")),
        Some(JsString.OrString(Get(query, "units"), "metric")),
        Some(JsString.OrString(Get(query, "temperature_unit"), "c")),
        Some(JsString.OrString(Get(query, "languagecode"), "en-us")),
        Some(JsString.OrString(Get(query, "currency_code"), "USD")),
        Some(JsString.OrString(Get(query, "location"), "US"))))
  }

  /** The search the form describes, handed straight to the service. */
  function FormParams(d: HotelDestination, f: HotelForm): HotelSearchParams
    requires JsString.Truthy(f.arrivalDate) && JsString.Truthy(f.departureDate)
  {
    HotelSearchParams(Int(d.destId), d.searchType, f.arrivalDate.value, f.departureDate.value,
                      f.adults, f.childrenAge, f.roomQty, f.pageNumber, f.priceMin, f.priceMax,
                      f.sortBy, f.categoriesFilter, f.units, f.temperatureUnit, f.languageCode,
                      f.currencyCode, f.location)
  }

  /** A price the form holds is not negative. */
  predicate NotNegative(o: Option<JsInt>) {
    o.None? || o.value.NaN? || o.value.value >= 0
  }

  lemma PriceRoundTrip(o: Option<JsInt>)
    requires NotNegative(o)
    ensures OrInt(OptionalNumber(if Positive(o) then Some(ToString(o.value)) else None), 0) == OrInt(o, 0)
  {
    if Positive(o) {
      ParseIntOfToString(o.value);
    }
  }

  /** Navigating from the search page with a non-empty search type and no
      negative price makes the results page send the provider the request
      the form describes. */
  lemma SearchRoundTrip(d: HotelDestination, f: HotelForm)
    requires JsString.Truthy(f.arrivalDate) && JsString.Truthy(f.departureDate)
    requires d.searchType != "" && NotNegative(f.priceMin) && NotNegative(f.priceMax)
    ensures ParseHotelParams(HotelQuery(d, f)).Some?
    ensures HotelRequestOf(ParseHotelParams(HotelQuery(d, f)).value) == HotelRequestOf(FormParams(d, f))
  {
    QueryRequired(d, f);
    QueryNumbers(d, f);
    QuerySelects(d, f);
    QueryStrings(d, f);
    QueryPrices(d, f);
    ParseIntOfToString(Int(d.destId));
    NumberTextRoundTrip(f.adults);
    NumberTextRoundTrip(f.roomQty);
    NumberTextRoundTrip(f.pageNumber);
    PriceRoundTrip(f.priceMin);
    PriceRoundTrip(f.priceMax);
    var p := ParseHotelParams(HotelQuery(d, f)).value;
    var e := FormParams(d, f);
    assert p.destId == e.destId;
    var rp := HotelRequestOf(p);
    var re := HotelRequestOf(e);
    assert rp.adults == re.adults && rp.roomQty == re.roomQty && rp.pageNumber == re.pageNumber;
    assert rp.priceMin == re.priceMin && rp.priceMax == re.priceMax;
  }

  /** A negative minimum price typed into the form is not written to the
      query, so the provider is asked with 0. */
  lemma NegativePriceDropped(d: HotelDestination, f: HotelForm)
    requires JsString.Truthy(f.arrivalDate) && JsString.Truthy(f.departureDate)
    requires d.searchType != "" && f.priceMin.Some? && f.priceMin.value.Int? && f.priceMin.value.value < 0
    ensures ParseHotelParams(HotelQuery(d, f)).Some?
    ensures HotelRequestOf(ParseHotelParams(HotelQuery(d, f)).value).priceMin == 0
    ensures HotelRequestOf(FormParams(d, f)).priceMin == f.priceMin.value.value
  {
    QueryRequired(d, f);
    QueryPrices(d, f);
  }

  // ---------------------------------------------- the search-type gap

  /** A query with the three fields the error branch checks but no
      `search_type`: the page neither searches nor reports an error. */
  lemma SearchTypeGap()
    ensures var q: Entries := [("dest_id", "1"), ("arrival_date", "2025-01-01"), ("departure_date", "2025-01-02")];
      ParseHotelParams(q).None? && !ReportsMissing(q)
  {
    var q: Entries := [("dest_id", "1"), ("arrival_date", "2025-01-01"), ("departure_date", "2025-01-02")];
    GetAbsent(q, "search_type");
    GetAt(q, "dest_id", 0);
    GetAt(q, "arrival_date", 1);
    GetAt(q, "departure_date", 2);
  }

  /** The search page itself produces such a query for a destination whose
      `search_type` is empty. */
  lemma EmptySearchTypeStalls(d: HotelDestination, f: HotelForm)
    requires JsString.Truthy(f.arrivalDate) && JsString.Truthy(f.departureDate) && d.searchType == ""
    ensures ParseHotelParams(HotelQuery(d, f)).None? && !ReportsMissing(HotelQuery(d, f))
  {
    QueryRequired(d, f);
  }

  // ------------------------------------------------------- transform

  /** One property as the provider describes it. */
  datatype Property = Property(
    id: int,
    name: string,
    wishlistName: Option<string>,
    reviewScore: Option<real>,
    reviewCount: Option<int>,
    grossPrice: Money,
    photoUrls: Option<seq<string>>,
    facilities: Option<seq<string>>,
    propertyClass: Option<int>)

  /** A search hit: the property and its accessibility label. */
  datatype HotelHit = HotelHit(property: Property, accessibilityLabel: string)

  /** The body `searchHotels` resolves with. */
  datatype HotelsBody = HotelsBody(hotels: Option<seq<HotelHit>>)

  /** The hotel shown for one hit: the address and location fall back to
      the name and "Location", missing scores and class to 0, and the stay
      dates are the searched ones. */
  function HotelOf(hit: HotelHit, arrival: string, departure: string): (h: Hotel)
    ensures h.id == IntToString(hit.property.id) && h.name == hit.property.name
    ensures h.address == JsString.OrString(hit.property.wishlistName, hit.property.name)
    ensures h.location == JsString.OrString(hit.property.wishlistName, "Location")
    ensures h.rating == hit.property.reviewScore.GetOr(0.0) && h.reviews == hit.property.reviewCount.GetOr(0)
    ensures h.propertyClass == hit.property.propertyClass.GetOr(0)
    ensures h.checkIn == arrival && h.checkOut == departure
    ensures h.price == hit.property.grossPrice && h.images == hit.property.photoUrls
    ensures h.facilities == hit.property.facilities && h.accessibilityLabel == hit.accessibilityLabel
  {
    var p := hit.property;
    Hotel(
      IntToString(p.id), p.name, JsString.OrString(p.wishlistName, p.name),
      p.reviewScore.GetOr(0.0), p.reviewCount.GetOr(0), p.grossPrice, p.photoUrls,
      arrival, departure, p.facilities, hit.accessibilityLabel,
      JsString.OrString(p.wishlistName, "Location"), p.propertyClass.GetOr(0))
  }

  /** `results.data?.hotels?.map(...) || []` */
  function HotelsOf(body: Option<HotelsBody>, arrival: string, departure: string): (r: seq<Hotel>)
    ensures body.None? || body.value.hotels.None? ==> r == []
    ensures body.Some? && body.value.hotels.Some? ==>
      |r| == |body.value.hotels.value| &&
      forall i | 0 <= i < |r| :: r[i] == HotelOf(body.value.hotels.value[i], arrival, departure)
  {
    if body.Some? && body.value.hotels.Some? then
      var hits := body.value.hotels.value;
      seq(|hits|, i requires 0 <= i < |hits| => HotelOf(hits[i], arrival, departure))
    else []
  }

  /** Every hotel of one search carries that search's stay dates. */
  lemma HotelsShareStay(body: Option<HotelsBody>, arrival: string, departure: string)
    ensures forall h | h in HotelsOf(body, arrival, departure) :: h.checkIn == arrival && h.checkOut == departure
  {
    var r := HotelsOf(body, arrival, departure);
    forall h | h in r
      ensures h.checkIn == arrival && h.checkOut == departure
    {
      var i :| 0 <= i < |r| && r[i] == h;
      assert h == HotelOf(body.value.hotels.value[i], arrival, departure);
    }
  }

  // ----------------------------------------------------------- labels

  /** The word beside a hotel's score. */
  function RatingLabel(rating: real): (s: string)
    ensures rating >= 9.0 ==> s == "Superb"
    ensures 8.0 <= rating < 9.0 ==> s == "Very good"
    ensures 7.0 <= rating < 8.0 ==> s == "Good"
    ensures rating < 7.0 ==> s == "Pleasant"
  {
    if rating >= 9.0 then "Superb"
    else if rating >= 8.0 then "Very good"
    else if rating >= 7.0 then "Good"
    else "Pleasant"
  }

  /** The labels in increasing order of praise. */
  function LabelRank(s: string): nat {
    if s == "Superb" then 3 else if s == "Very good" then 2 else if s == "Good" then 1 else 0
  }

  /** A higher score never gets a lesser label. */
  lemma RatingLabelMonotone(a: real, b: real)
    requires a <= b
    ensures LabelRank(RatingLabel(a)) <= LabelRank(RatingLabel(b))
  {
  }

  /** How many stars `[...Array(propertyClass || 0)]` draws; `None` where
      the array constructor rejects a negative length. */
  function StarCount(propertyClass: int): (n: Option<nat>)
    ensures n.Some? <==> propertyClass >= 0
    ensures n.Some? ==> n.value == propertyClass
  {
    if propertyClass >= 0 then Some(propertyClass) else None
  }

  // ------------------------------------------------------- itinerary

  /** `isHotelInItinerary` */
  predicate IsHotelInItinerary(items: seq<ItineraryItem>, h: Hotel) {
    exists i | 0 <= i < |items| ::
      items[i].data.HotelData? &&
      (items[i].data.hotel.id == h.id ||
       (items[i].data.hotel.name == h.name && items[i].data.hotel.address == h.address &&
        items[i].data.hotel.checkIn == h.checkIn))
  }

  function HotelItem(h: Hotel, id: string, dateAdded: string): (item: ItineraryItem)
    ensures item.Type() == HotelType && item.data == HotelData(h)
  {
    ItineraryItem(id, HotelData(h), dateAdded)
  }

  /** The page's test agrees with the store's duplicate rule. */
  lemma InItineraryIsDuplicate(items: seq<ItineraryItem>, h: Hotel, id: string, dateAdded: string)
    ensures IsHotelInItinerary(items, h) <==> HasDuplicateOf(items, HotelItem(h, id, dateAdded))
  {
    var item := HotelItem(h, id, dateAdded);
    if IsHotelInItinerary(items, h) {
      var i :| 0 <= i < |items| && items[i].data.HotelData? &&
        (items[i].data.hotel.id == h.id ||
         (items[i].data.hotel.name == h.name && items[i].data.hotel.address == h.address &&
          items[i].data.hotel.checkIn == h.checkIn));
      assert IsDuplicate(items[i], item);
    }
    if HasDuplicateOf(items, item) {
      var i :| 0 <= i < |items| && IsDuplicate(items[i], item);
      assert items[i].data.HotelData?;
    }
  }

  function HotelAddedToast(h: Hotel): (t: Toast)
    ensures t.title == "Hotel Added! \U{1F3E8}" && t.duration == ToastDuration
    ensures t.description == h.name + " has been added to your itinerary."
  {
    Toast("Hotel Added! \U{1F3E8}", h.name + " has been added to your itinerary.", ToastDuration)
  }

  // ------------------------------------------------------------ page

  class HotelResultsPage {
    const query: Entries
    var hotels: seq<Hotel>
    var isLoading: bool
    var error: Option<string>
    var hasSearched: bool

    constructor(query: Entries)
      ensures this.query == query
      ensures hotels == [] && isLoading && error == None && !hasSearched
    {
      this.query := query;
      hotels := [];
      isLoading := true;
      error := None;
      hasSearched := false;
    }

    /** The mount effect as written: search when the four required fields
        are there; report missing parameters only when one of the three it
        checks is missing. With just `search_type` missing, nothing changes
        and the page stays loading. */
    method Mount() returns (request: Option<HotelRequest>)
      modifies this
      ensures request.Some? <==> !old(hasSearched) && HasRequired(query)
      ensures request.Some? ==>
        request.value == HotelRequestOf(ParseHotelParams(query).value) && isLoading && error == None
      ensures ReportsMissing(query) ==> !isLoading && error == Some(MissingParamsError)
      ensures request.None? && !ReportsMissing(query) ==> isLoading == old(isLoading) && error == old(error)
      ensures hotels == old(hotels) && hasSearched == old(hasSearched)
    {
      var p := ParseHotelParams(query);
      if !hasSearched && p.Some? {
        isLoading := true;
        error := None;
        request := Some(HotelRequestOf(p.value));
      } else if ReportsMissing(query) {
        isLoading := false;
        error := Some(MissingParamsError);
        request := None;
      } else {
        request := None;
      }
    }

    /** The mount effect with the error branch checking all four required
        fields: a first mount always either searches or stops loading. */
    method MountChecked() returns (request: Option<HotelRequest>)
      modifies this
      ensures request.Some? <==> !old(hasSearched) && HasRequired(query)
      ensures request.Some? ==>
        request.value == HotelRequestOf(ParseHotelParams(query).value) && isLoading && error == None
      ensures !HasRequired(query) ==> !isLoading && error == Some(MissingParamsError)
      ensures !old(hasSearched) ==> request.Some? || !isLoading
      ensures hotels == old(hotels) && hasSearched == old(hasSearched)
    {
      var p := ParseHotelParams(query);
      if !hasSearched && p.Some? {
        isLoading := true;
        error := None;
        request := Some(HotelRequestOf(p.value));
      } else if p.None? {
        isLoading := false;
        error := Some(MissingParamsError);
        request := None;
      } else {
        request := None;
      }
    }

    /** The search settles: an answer replaces the hotels, each carrying the
        searched dates; a rejection is only logged. */
    method Settle(response: Response<HotelsBody>)
      requires HasRequired(query)
      modifies this
      ensures response.Answered? ==>
        hotels == HotelsOf(response.data, Get(query, "arrival_date").value, Get(query, "departure_date").value)
      ensures response.Rejected? ==> hotels == old(hotels)
      ensures !isLoading && hasSearched && error == old(error)
    {
      if response.Answered? {
        hotels := HotelsOf(response.data, Get(query, "arrival_date").value, Get(query, "departure_date").value);
      }
      isLoading := false;
      hasSearched := true;
    }
  }

  /** `handleAddToItinerary`: the store's notice, if any, and the page's
      notice; the button is disabled for a hotel already in the itinerary,
      so an enabled one appends. */
  method HandleAddToItinerary(store: ItineraryStore, h: Hotel, id: string, dateAdded: string)
    returns (storeNotice: Option<Toast>, notice: Toast)
    requires store.hydrated && store.Valid()
    modifies store
    ensures store.hydrated && store.Valid()
    ensures store.items == AddedTo(old(store.items), HotelItem(h, id, dateAdded))
    ensures !IsHotelInItinerary(old(store.items), h) ==> store.items == old(store.items) + [HotelItem(h, id, dateAdded)]
    ensures NoDuplicates(old(store.items)) ==> NoDuplicates(store.items)
    ensures storeNotice == if IsHotelInItinerary(old(store.items), h) then Some(AlreadyAddedToast) else None
    ensures notice == HotelAddedToast(h)
  {
    InItineraryIsDuplicate(store.items, h, id, dateAdded);
    storeNotice := store.Add(HotelItem(h, id, dateAdded));
    notice := HotelAddedToast(h);
  }
}
