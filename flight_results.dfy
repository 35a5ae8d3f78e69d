/** The flight results page: it reads the search back from the query string,
    runs it once, turns the provider's offers into flights, and lets the user
    add a flight to the itinerary. */
module FlightResults {
  import opened Wrappers
  import opened Types
  import opened JsNumber
  import JsString
  import opened UrlParams
  import opened FlightService
  import opened FlightSearch
  import opened Itinerary
  import opened LocationLookup

  const MissingParamsError: string := "Missing required search parameters"

  // ------------------------------------------------------ parameters

  /** The search the page runs for `query`: `None` unless `fromId`, `toId`
      and `departDate` are all present and non-empty. Missing or empty
      optional fields are dropped or defaulted; numbers are parsed. */
  function ParseFlightParams(query: Entries): (r: Option<FlightSearchParams>)
    ensures r.Some? <==>
      JsString.Truthy(Get(query, "fromId")) && JsString.Truthy(Get(query, "toId")) &&
      JsString.Truthy(Get(query, "departDate"))
    ensures r.Some? ==>
      Some(r.value.fromId) == Get(query, "fromId") && Some(r.value.toId) == Get(query, "toId") &&
      Some(r.value.departDate) == Get(query, "departDate")
    ensures r.Some? && JsString.Truthy(Get(query, "returnDate")) ==> r.value.returnDate == Get(query, "returnDate")
    ensures r.Some? && !JsString.Truthy(Get(query, "returnDate")) ==> r.value.returnDate == None
    ensures r.Some? && JsString.Truthy(Get(query, "stops")) ==> r.value.stops == Get(query, "stops")
    ensures r.Some? && !JsString.Truthy(Get(query, "stops")) ==> r.value.stops == Some("none")
    ensures r.Some? && JsString.Truthy(Get(query, "pageNo")) ==> r.value.pageNo == Some(ParseInt(Get(query, "pageNo").value))
    ensures r.Some? && !JsString.Truthy(Get(query, "pageNo")) ==> r.value.pageNo == Some(Int(1))
    ensures r.Some? && JsString.Truthy(Get(query, "adults")) ==> r.value.adults == Some(ParseInt(Get(query, "adults").value))
    ensures r.Some? && !JsString.Truthy(Get(query, "adults")) ==> r.value.adults == Some(Int(1))
    ensures r.Some? && JsString.Truthy(Get(query, "children")) ==> r.value.children == Get(query, "children")
    ensures r.Some? && !JsString.Truthy(Get(query, "children")) ==> r.value.children == None
    ensures r.Some? && JsString.Truthy(Get(query, "sort")) ==> r.value.sort == Get(query, "sort")
    ensures r.Some? && !JsString.Truthy(Get(query, "sort")) ==> r.value.sort == Some("BEST")
    ensures r.Some? && JsString.Truthy(Get(query, "cabinClass")) ==> r.value.cabinClass == Get(query, "cabinClass")
    ensures r.Some? && !JsString.Truthy(Get(query, "cabinClass")) ==> r.value.cabinClass == Some("ECONOMY")
    ensures r.Some? && JsString.Truthy(Get(query, "currency_code")) ==> r.value.currencyCode == Get(query, "currency_code")
    ensures r.Some? && !JsString.Truthy(Get(query, "currency_code")) ==> r.value.currencyCode == Some("USD")
  {
    var fromId := Get(query, "fromId");
    var toId := Get(query, "toId");
    var departDate := Get(query, "departDate");
    if !(JsString.Truthy(fromId) && JsString.Truthy(toId) && JsString.Truthy(departDate)) then None
    else
      Some(FlightSearchParams(
        fromId.value, toId.value, departDate.value,
        JsString.OrAbsent(Get(query, "returnDate")),
        Some(JsString.OrString(Get(query, "stops"), "none")),
        Some(ParseIntOr(Get(query, "pageNo"), 1)),
        Some(ParseIntOr(Get(query, "adults"), 1)),
        JsString.OrAbsent(Get(query, "children")),
        Some(JsString.OrString(Get(query, "sort"), "BEST")),
        Some(JsString.OrString(Get(query, "cabinClass"), "ECONOMY")),
        Some(JsString.OrString(Get(query, "currency_code"), "USD"))))
  }

  /** The search the form describes, handed straight to the service. */
  function FormParams(from: FlightDestination, to: FlightDestination, f: FlightForm): FlightSearchParams
    requires JsString.Truthy(f.departDate)
  {
    FlightSearchParams(from.id, to.id, f.departDate.value, f.returnDate, f.stops, f.pageNo,
                       f.adults, f.children, f.sort, f.cabinClass, f.currencyCode)
  }

  /** Navigating from the search page with non-empty ids makes the results
      page send the provider the request the form describes. */
  lemma SearchRoundTrip(from: FlightDestination, to: FlightDestination, f: FlightForm)
    requires JsString.Truthy(f.departDate) && from.id != "" && to.id != ""
    ensures ParseFlightParams(FlightQuery(from, to, f)).Some?
    ensures FlightRequestOf(ParseFlightParams(FlightQuery(from, to, f)).value) == FlightRequestOf(FormParams(from, to, f))
  {
    var q := FlightQuery(from, to, f);
    QueryRequired(from, to, f);
    QueryNumbers(from, to, f);
    QuerySelects(from, to, f);
    QueryOptional(from, to, f);
    NumberTextRoundTrip(f.adults);
    NumberTextRoundTrip(f.pageNo);
    var p := ParseFlightParams(q).value;
    var e := FormParams(from, to, f);
    var rp := FlightRequestOf(p);
    var re := FlightRequestOf(e);
    assert rp.adults == re.adults && rp.pageNo == re.pageNo;
    assert rp.returnDate == re.returnDate && rp.children == re.children;
  }

  /** An empty origin id leaves the results page without a search. */
  lemma EmptyIdHasNoSearch(from: FlightDestination, to: FlightDestination, f: FlightForm)
    requires JsString.Truthy(f.departDate) && from.id == ""
    ensures ParseFlightParams(FlightQuery(from, to, f)).None?
  {
    QueryRequired(from, to, f);
  }

  // ------------------------------------------------------- transform

  /** A piece-of-luggage allowance; either part may be missing. */
  datatype Allowance = Allowance(maxWeightPerPiece: Option<int>, massUnit: Option<string>)

  /** One flight offer as the provider describes it. Times arrive already
      formatted and the price already summed (see the README). */
  datatype Offer = Offer(
    token: string,
    carrierName: string,
    carrierCode: string,
    carrierLogo: Option<string>,
    flightNumber: int,
    departure: FlightEnd,
    arrival: FlightEnd,
    totalTime: nat,
    flightStops: Option<seq<string>>,
    price: Money,
    cabinClass: string,
    checkedLuggage: seq<Option<Allowance>>,
    cabinLuggage: seq<Option<Allowance>>)

  /** The body `searchFlights` resolves with. */
  datatype FlightsBody = FlightsBody(flightOffers: Option<seq<Offer>>)

  /** Whole hours and the remaining whole minutes of `t` seconds. */
  function DurationParts(t: nat): (hm: (nat, nat))
    ensures hm.1 < 60
    ensures hm.0 * 3600 + hm.1 * 60 <= t < hm.0 * 3600 + hm.1 * 60 + 60
  {
    (t / 3600, (t % 3600) / 60)
  }

  /** The hours and minutes are the only ones within a minute below `t`. */
  lemma DurationPartsUnique(t: nat, h: nat, m: nat)
    requires m < 60 && h * 3600 + m * 60 <= t < h * 3600 + m * 60 + 60
    ensures DurationParts(t) == (h, m)
  {
    var hm := DurationParts(t);
    assert h * 3600 <= t < h * 3600 + 3600;
    assert hm.0 * 3600 <= t < hm.0 * 3600 + 3600;
    assert h == hm.0;
  }

  /** "`h`h `m`m" */
  function DurationText(t: nat): string {
    var hm := DurationParts(t);
    NatToString(hm.0) + "h " + NatToString(hm.1) + "m"
  }

  /** The duration text names the whole hours and the remaining whole
      minutes of the flight time. */
  lemma DurationTextOf(t: nat, h: nat, m: nat)
    requires m < 60 && h * 3600 + m * 60 <= t < h * 3600 + m * 60 + 60
    ensures DurationText(t) == NatToString(h) + "h " + NatToString(m) + "m"
  {
    DurationPartsUnique(t, h, m);
  }

  /** The number of stops: the length of `flightStops`, 0 when missing. */
  function StopCount(stops: Option<seq<string>>): (n: nat)
    ensures stops.None? ==> n == 0
    ensures stops.Some? ==> n == |stops.value|
  {
    if stops.Some? then |stops.value| else 0
  }

  /** The first allowance of a luggage list, if any. */
  function FirstAllowance(pieces: seq<Option<Allowance>>): (a: Option<Allowance>)
    ensures |pieces| == 0 ==> a.None?
    ensures |pieces| > 0 ==> a == pieces[0]
  {
    if |pieces| > 0 then pieces[0] else None
  }

  /** `maxWeightPerPiece || "N/A"` */
  function WeightText(a: Option<Allowance>): (w: string)
    ensures a.Some? && a.value.maxWeightPerPiece.Some? && a.value.maxWeightPerPiece.value != 0 ==>
      w == IntToString(a.value.maxWeightPerPiece.value)
    ensures a.None? || a.value.maxWeightPerPiece.None? || a.value.maxWeightPerPiece.value == 0 ==> w == "N/A"
  {
    if a.Some? && a.value.maxWeightPerPiece.Some? && a.value.maxWeightPerPiece.value != 0
    then IntToString(a.value.maxWeightPerPiece.value) else "N/A"
  }

  /** `massUnit || ""` */
  function UnitText(a: Option<Allowance>): (u: string)
    ensures a.Some? && JsString.Truthy(a.value.massUnit) ==> u == a.value.massUnit.value
    ensures a.None? || !JsString.Truthy(a.value.massUnit) ==> u == ""
  {
    if a.Some? then JsString.OrString(a.value.massUnit, "") else ""
  }

  /** "Baggage: 23kg": the first allowance's weight, or "N/A" when it is
      missing or 0, followed directly by its unit. */
  function BaggageText(caption: string, pieces: seq<Option<Allowance>>): (s: string)
    ensures s == caption + ": " + WeightText(FirstAllowance(pieces)) + UnitText(FirstAllowance(pieces))
    ensures |s| > |caption| + 2 && s[..|caption| + 2] == caption + ": "
  {
    var a := FirstAllowance(pieces);
    assert (caption + ": " + WeightText(a) + UnitText(a))[..|caption| + 2] == caption + ": ";
    caption + ": " + WeightText(a) + UnitText(a)
  }

  /** The weight shown on a facility is the allowance's weight: reading the
      text after the caption with `parseInt` gives it back, whatever unit
      follows, as long as the unit does not start with a digit. */
  lemma BaggageWeightReadBack(caption: string, pieces: seq<Option<Allowance>>, w: int)
    requires |pieces| > 0 && pieces[0].Some? && pieces[0].value.maxWeightPerPiece == Some(w) && w != 0
    requires var u := UnitText(pieces[0]); u == [] || !IsDigit(u[0])
    ensures ParseInt(BaggageText(caption, pieces)[|caption| + 2..]) == Int(w)
  {
    var a := FirstAllowance(pieces);
    var s := BaggageText(caption, pieces);
    assert s[|caption| + 2..] == IntToString(w) + UnitText(a);
    ParseIntOfIntTextThen(w, UnitText(a));
  }

  /** A missing first allowance, or one without a weight, shows "N/A". */
  lemma BaggageWithoutWeight(caption: string, pieces: seq<Option<Allowance>>)
    requires |pieces| == 0 || pieces[0].None? || pieces[0].value.maxWeightPerPiece.None?
    ensures BaggageText(caption, pieces)[|caption| + 2..][..3] == "N/A"
  {
    var s := BaggageText(caption, pieces);
    var a := FirstAllowance(pieces);
    assert s[|caption| + 2..] == "N/A" + UnitText(a);
  }

  /** The flight shown for one offer. `uniqueId` stands for the identifier
      generated when the offer is shown. */
  function FlightOf(o: Offer, uniqueId: string): (f: Flight)
    ensures f.id == o.token && f.uniqueId == uniqueId
    ensures f.stops == StopCount(o.flightStops) && f.duration == DurationText(o.totalTime)
    ensures f.airlineLogo == JsString.OrAbsent(o.carrierLogo)
    ensures f.airline == o.carrierName && f.airlineCode == o.carrierCode
    ensures f.flightNumber == IntToString(o.flightNumber) && ParseInt(f.flightNumber) == Int(o.flightNumber)
    ensures f.departure == o.departure && f.arrival == o.arrival
    ensures f.price == o.price && f.cabinClass == o.cabinClass
    ensures |f.facilities| == 4 && f.facilities[2..] == ["In flight entertainment", "In flight meal"]
    ensures f.facilities[0] == BaggageText("Baggage", o.checkedLuggage)
    ensures f.facilities[1] == BaggageText("Cabin Baggage", o.cabinLuggage)
  {
    assert IntToString(o.flightNumber) == IntToString(o.flightNumber) + "";
    ParseIntOfIntTextThen(o.flightNumber, "");
    Flight(
      o.token, uniqueId, o.carrierName, o.carrierCode, JsString.OrAbsent(o.carrierLogo),
      IntToString(o.flightNumber), o.departure, o.arrival, DurationText(o.totalTime),
      StopCount(o.flightStops), o.price, o.cabinClass,
      [BaggageText("Baggage", o.checkedLuggage), BaggageText("Cabin Baggage", o.cabinLuggage),
       "In flight entertainment", "In flight meal"])
  }

  /** `results.data?.flightOffers?.map(...) || []`; `ids(i)` is the unique
      id generated for the `i`-th offer. */
  function FlightsOf(body: Option<FlightsBody>, ids: nat -> string): (r: seq<Flight>)
    ensures body.None? || body.value.flightOffers.None? ==> r == []
    ensures body.Some? && body.value.flightOffers.Some? ==>
      |r| == |body.value.flightOffers.value| &&
      forall i | 0 <= i < |r| :: r[i] == FlightOf(body.value.flightOffers.value[i], ids(i))
  {
    if body.Some? && body.value.flightOffers.Some? then
      var offers := body.value.flightOffers.value;
      seq(|offers|, i requires 0 <= i < |offers| => FlightOf(offers[i], ids(i)))
    else []
  }

  // ----------------------------------------------------------- labels

  /** The stop label on a flight card. */
  function StopsLabel(n: nat): (s: string)
    ensures n == 0 ==> s == "Non-stop"
    ensures n == 1 ==> s == "1 stop"
    ensures n > 1 ==> s == NatToString(n) + " stops"
  {
    if n == 0 then "Non-stop" else NatToString(n) + " stop" + (if n > 1 then "s" else "")
  }

  /** The filter named in the "Showing results for ... flights" caption. */
  function StopsCaption(stops: Option<string>): (s: string)
    ensures stops != Some("0") && stops != Some("1") && stops != Some("2") ==> s == "all"
  {
    if stops == Some("0") then "non-stop"
    else if stops == Some("1") then "1 stop"
    else if stops == Some("2") then "2 stops"
    else "all"
  }

  /** For each specific stops filter, the caption is the lower-cased label
      of the flights the filter asks for. */
  lemma CaptionMatchesLabel(filter: Stops)
    requires filter != AnyStops
    ensures var n: nat := if filter == NonStop then 0 else if filter == OneStop then 1 else 2;
      StopsCaption(Some(filter.Value())) == JsString.ToLower(StopsLabel(n))
  {
    match filter
    case NonStop =>
      assert JsString.ToLower("Non-stop") == "non-stop";
    case OneStop =>
      assert StopsLabel(1) == "1 stop";
      assert JsString.ToLower("1 stop") == "1 stop";
    case TwoStops =>
      assert NatToString(2) == "2";
      assert StopsLabel(2) == "2 stops";
      assert JsString.ToLower("2 stops") == "2 stops";
  }

  /** The "any" filter is captioned "all". */
  lemma AnyStopsCaption()
    ensures StopsCaption(Some(AnyStops.Value())) == "all"
    ensures StopsCaption(None) == "all"
  {
  }

  // ------------------------------------------------------- itinerary

  /** `isFlightInItinerary`: some flight item has the same `uniqueId`. */
  predicate IsFlightInItinerary(items: seq<ItineraryItem>, f: Flight) {
    exists i | 0 <= i < |items| :: items[i].data.FlightData? && items[i].data.flight.uniqueId == f.uniqueId
  }

  /** The item `handleAddToItinerary` builds; `id` and `dateAdded` stand for
      the clock readings. */
  function FlightItem(f: Flight, id: string, dateAdded: string): (item: ItineraryItem)
    ensures item.Type() == FlightType && item.data == FlightData(f)
  {
    ItineraryItem(id, FlightData(f), dateAdded)
  }

  /** The page's test agrees with the store's duplicate rule, so an enabled
      "Add" button is never answered with "Already Added". */
  lemma InItineraryIsDuplicate(items: seq<ItineraryItem>, f: Flight, id: string, dateAdded: string)
    ensures IsFlightInItinerary(items, f) <==> HasDuplicateOf(items, FlightItem(f, id, dateAdded))
  {
    var item := FlightItem(f, id, dateAdded);
    if IsFlightInItinerary(items, f) {
      var i :| 0 <= i < |items| && items[i].data.FlightData? && items[i].data.flight.uniqueId == f.uniqueId;
      assert IsDuplicate(items[i], item);
    }
    if HasDuplicateOf(items, item) {
      var i :| 0 <= i < |items| && IsDuplicate(items[i], item);
      assert items[i].data.FlightData?;
    }
  }

  /** The page's own notice after an add. */
  function FlightAddedToast(f: Flight): (t: Toast)
    ensures t.title == "Flight Added! \U{2708}\U{FE0F}" && t.duration == ToastDuration
    ensures t.description == f.airline + " " + f.flightNumber + " has been added to your itinerary."
  {
    Toast("Flight Added! \U{2708}\U{FE0F}", f.airline + " " + f.flightNumber + " has been added to your itinerary.", ToastDuration)
  }

  // ------------------------------------------------------------ page

  class FlightResultsPage {
    const query: Entries
    var flights: seq<Flight>
    var isLoading: bool
    var error: Option<string>
    var hasSearched: bool

    constructor(query: Entries)
      ensures this.query == query
      ensures flights == [] && isLoading && error == None && !hasSearched
    {
      this.query := query;
      flights := [];
      isLoading := true;
      error := None;
      hasSearched := false;
    }

    /** The mount effect: start the search when the required fields are
        there, and otherwise stop loading with an error. Returns the request
        sent to the provider. */
    method Mount() returns (request: Option<FlightRequest>)
      modifies this
      ensures request.Some? <==> !old(hasSearched) && ParseFlightParams(query).Some?
      ensures request.Some? ==>
        request.value == FlightRequestOf(ParseFlightParams(query).value) && isLoading && error == None
      ensures ParseFlightParams(query).None? ==> !isLoading && error == Some(MissingParamsError)
      ensures request.None? && ParseFlightParams(query).Some? ==> isLoading == old(isLoading) && error == old(error)
      ensures flights == old(flights) && hasSearched == old(hasSearched)
    {
      var p := ParseFlightParams(query);
      if !hasSearched && p.Some? {
        isLoading := true;
        error := None;
        request := Some(FlightRequestOf(p.value));
      } else if p.None? {
        isLoading := false;
        error := Some(MissingParamsError);
        request := None;
      } else {
        request := None;
      }
    }

    /** The search settles: an answer replaces the flights with its offers
        (none when the body has none); a rejection is only logged. Either way
        loading stops and the search is marked done. */
    method Settle(response: Response<FlightsBody>, ids: nat -> string)
      modifies this
      ensures response.Answered? ==> flights == FlightsOf(response.data, ids)
      ensures response.Rejected? ==> flights == old(flights)
      ensures !isLoading && hasSearched && error == old(error)
    {
      if response.Answered? {
        flights := FlightsOf(response.data, ids);
      }
      isLoading := false;
      hasSearched := true;
    }
  }

  /** `handleAddToItinerary`: add the flight to the store and show the
      page's notice, after the store's own "Already Added" notice when the
      flight was already there. The button is disabled for such a flight,
      so an enabled one appends. */
  method HandleAddToItinerary(store: ItineraryStore, f: Flight, id: string, dateAdded: string)
    returns (storeNotice: Option<Toast>, notice: Toast)
    requires store.hydrated && store.Valid()
    modifies store
    ensures store.hydrated && store.Valid()
    ensures store.items == AddedTo(old(store.items), FlightItem(f, id, dateAdded))
    ensures !IsFlightInItinerary(old(store.items), f) ==> store.items == old(store.items) + [FlightItem(f, id, dateAdded)]
    ensures NoDuplicates(old(store.items)) ==> NoDuplicates(store.items)
    ensures storeNotice == if IsFlightInItinerary(old(store.items), f) then Some(AlreadyAddedToast) else None
    ensures notice == FlightAddedToast(f)
  {
    InItineraryIsDuplicate(store.items, f, id, dateAdded);
    storeNotice := store.Add(FlightItem(f, id, dateAdded));
    notice := FlightAddedToast(f);
  }
}
