/** The hotel search page: a form and a destination picker; the search
    button alerts or navigates to the results page with the form written
    into the query string, optional fields only when set. */
module HotelSearch {
  import opened Wrappers
  import opened Types
  import opened JsNumber
  import JsString
  import opened UrlParams

  /** The page's `searchParams` state. */
  datatype HotelForm = HotelForm(
    arrivalDate: Option<string>,
    departureDate: Option<string>,
    adults: Option<JsInt>,
    childrenAge: Option<string>,
    roomQty: Option<JsInt>,
    priceMin: Option<JsInt>,
    priceMax: Option<JsInt>,
    pageNumber: Option<JsInt>,
    sortBy: Option<string>,
    categoriesFilter: Option<string>,
    units: Option<string>,
    temperatureUnit: Option<string>,
    languageCode: Option<string>,
    currencyCode: Option<string>,
    location: Option<string>)

  /** The state the page starts in; no control edits `page_number`,
      `sort_by` or `categories_filter`. */
  const InitialForm: HotelForm :=
    HotelForm(None, None, Some(Int(1)), Some(""), Some(Int(1)), Some(Int(0)), Some(Int(0)), Some(Int(1)),
              Some(""), Some(""), Some("metric"), Some("c"), Some("en-us"), Some("USD"), Some("US"))

  const RequiredFieldsAlert: string := "Please fill in all required fields"
  const ResultsPath: string := "/hotels/results"

  /** `Number.parseInt(text) || 0`, as the price inputs store it. */
  function PriceOf(text: string): (n: JsInt)
    ensures n.Int?
    ensures ParseInt(text).Int? ==> n == ParseInt(text)
    ensures ParseInt(text) == NaN ==> n == Int(0)
  {
    if Truthy(ParseInt(text)) then ParseInt(text) else Int(0)
  }

  /** One change made through a form control. */
  datatype FormEdit =
    | SetArrivalDate(date: string)
    | SetDepartureDate(date: string)
    | SetAdults(text: string)
    | SetChildrenAge(ages: string)
    | SetRoomQty(text: string)
    | SetPriceMin(text: string)
    | SetPriceMax(text: string)
    | SetUnits(units: Units)
    | SetTemperatureUnit(unit: TemperatureUnit)
    | SetLocation(country: string)
    | SetCurrency(code: string)
    | SetLanguage(code: string)

  /** The state key an edit writes. */
  function Field(e: FormEdit): string {
    match e
    case SetArrivalDate(_) => "arrival_date"
    case SetDepartureDate(_) => "departure_date"
    case SetAdults(_) => "adults"
    case SetChildrenAge(_) => "children_age"
    case SetRoomQty(_) => "room_qty"
    case SetPriceMin(_) => "price_min"
    case SetPriceMax(_) => "price_max"
    case SetUnits(_) => "units"
    case SetTemperatureUnit(_) => "temperature_unit"
    case SetLocation(_) => "location"
    case SetCurrency(_) => "currency_code"
    case SetLanguage(_) => "languagecode"
  }

  /** The form after one edit: that field changes, the others stay. */
  function Edited(f: HotelForm, e: FormEdit): (r: HotelForm)
    ensures e.SetArrivalDate? ==> r == f.(arrivalDate := Some(e.date))
    ensures e.SetDepartureDate? ==> r == f.(departureDate := Some(e.date))
    ensures e.SetAdults? ==> r == f.(adults := Some(ParseInt(e.text)))
    ensures e.SetChildrenAge? ==> r == f.(childrenAge := Some(e.ages))
    ensures e.SetRoomQty? ==> r == f.(roomQty := Some(ParseInt(e.text)))
    ensures e.SetPriceMin? ==> r == f.(priceMin := Some(PriceOf(e.text)))
    ensures e.SetPriceMax? ==> r == f.(priceMax := Some(PriceOf(e.text)))
    ensures e.SetUnits? ==> r == f.(units := Some(e.units.Value()))
    ensures e.SetTemperatureUnit? ==> r == f.(temperatureUnit := Some(e.unit.Value()))
    ensures e.SetLocation? ==> r == f.(location := Some(e.country))
    ensures e.SetCurrency? ==> r == f.(currencyCode := Some(e.code))
    ensures e.SetLanguage? ==> r == f.(languageCode := Some(e.code))
    ensures r.pageNumber == f.pageNumber && r.sortBy == f.sortBy && r.categoriesFilter == f.categoriesFilter
  {
    match e
    case SetArrivalDate(d) => f.(arrivalDate := Some(d))
    case SetDepartureDate(d) => f.(departureDate := Some(d))
    case SetAdults(t) => f.(adults := Some(ParseInt(t)))
    case SetChildrenAge(a) => f.(childrenAge := Some(a))
    case SetRoomQty(t) => f.(roomQty := Some(ParseInt(t)))
    case SetPriceMin(t) => f.(priceMin := Some(PriceOf(t)))
    case SetPriceMax(t) => f.(priceMax := Some(PriceOf(t)))
    case SetUnits(u) => f.(units := Some(u.Value()))
    case SetTemperatureUnit(u) => f.(temperatureUnit := Some(u.Value()))
    case SetLocation(c) => f.(location := Some(c))
    case SetCurrency(c) => f.(currencyCode := Some(c))
    case SetLanguage(c) => f.(languageCode := Some(c))
  }

  /** Repeating an edit changes nothing more. */
  lemma EditIdempotent(f: HotelForm, e: FormEdit)
    ensures Edited(Edited(f, e), e) == Edited(f, e)
  {
  }

  /** Edits of different fields do not interfere: their order is
      irrelevant. */
  lemma EditsCommute(f: HotelForm, e1: FormEdit, e2: FormEdit)
    requires Field(e1) != Field(e2)
    ensures Edited(Edited(f, e1), e2) == Edited(Edited(f, e2), e1)
  {
  }

  /** A price edit never stores NaN, and stores 0 for a text that does not
      parse, so an unparsable price is left out of the query. */
  lemma PriceEditNeverNaN(f: HotelForm, text: string)
    ensures Edited(f, SetPriceMin(text)).priceMin.value.Int?
    ensures ParseInt(text) == NaN ==> !Positive(Edited(f, SetPriceMin(text)).priceMin)
  {
  }

  /** A destination is chosen and both dates are non-empty. */
  predicate Complete(dest: Option<HotelDestination>, f: HotelForm) {
    dest.Some? && JsString.Truthy(f.arrivalDate) && JsString.Truthy(f.departureDate)
  }

  /** A number field that is set and positive. */
  predicate Positive(o: Option<JsInt>) {
    o.Some? && o.value.Int? && o.value.value > 0
  }

  /** The pair `if (n && n > 0) params.append(name, n.toString())` adds. */
  function PositiveNumber(name: string, o: Option<JsInt>): (e: Entries)
    ensures Positive(o) ==> e == [(name, ToString(o.value))]
    ensures !Positive(o) ==> e == []
    ensures forall other | other != name :: Lacks(e, other)
  {
    if Positive(o) then [(name, ToString(o.value))] else []
  }

  /** The pairs `new URLSearchParams({...})` starts with. */
  function BaseEntries(d: HotelDestination, arrival: string, departure: string, f: HotelForm): Entries {
    [("dest_id", IntToString(d.destId)),
     ("search_type", d.searchType),
     ("arrival_date", arrival),
     ("departure_date", departure),
     ("adults", ToStringOr(f.adults, "1")),
     ("room_qty", ToStringOr(f.roomQty, "1")),
     ("page_number", ToStringOr(f.pageNumber, "1")),
     ("units", JsString.OrString(f.units, "metric")),
     ("temperature_unit", JsString.OrString(f.temperatureUnit, "c")),
     ("languagecode", JsString.OrString(f.languageCode, "en-us")),
     ("currency_code", JsString.OrString(f.currencyCode, "USD"))]
  }

  /** The pairs appended after the base ones, in order. */
  function Extras(f: HotelForm): Entries {
    Optional("children_age", f.childrenAge) +
    (PositiveNumber("price_min", f.priceMin) +
    (PositiveNumber("price_max", f.priceMax) +
    (Optional("sort_by", f.sortBy) +
    (Optional("categories_filter", f.categoriesFilter) +
     Optional("location", f.location)))))
  }

  function HotelQuery(d: HotelDestination, f: HotelForm): Entries
    requires JsString.Truthy(f.arrivalDate) && JsString.Truthy(f.departureDate)
  {
    BaseEntries(d, f.arrivalDate.value, f.departureDate.value, f) + Extras(f)
  }

  /** What pressing the search button does. */
  function SearchOutcomeOf(dest: Option<HotelDestination>, f: HotelForm): (r: SearchOutcome)
    ensures r.Alerted? <==> !Complete(dest, f)
    ensures r.Alerted? ==> r.message == RequiredFieldsAlert
    ensures r.Navigated? ==> r.route.path == ResultsPath && 11 <= |r.route.query| <= 17
  {
    if !Complete(dest, f) then Alerted(RequiredFieldsAlert)
    else Navigated(Route(ResultsPath, HotelQuery(dest.value, f)))
  }

  // ------------------------------------------------------ read-back

  /** None of the appended pairs carries a base name. */
  lemma ExtrasLack(f: HotelForm, name: string)
    requires name in {"dest_id", "search_type", "arrival_date", "departure_date", "adults", "room_qty",
                      "page_number", "units", "temperature_unit", "languagecode", "currency_code"}
    ensures Lacks(Extras(f), name)
  {
    var c := Optional("children_age", f.childrenAge);
    var p := PositiveNumber("price_min", f.priceMin);
    var q := PositiveNumber("price_max", f.priceMax);
    var s := Optional("sort_by", f.sortBy);
    var g := Optional("categories_filter", f.categoriesFilter);
    var l := Optional("location", f.location);
    LacksAppend(g, l, name);
    LacksAppend(s, g + l, name);
    LacksAppend(q, s + (g + l), name);
    LacksAppend(p, q + (s + (g + l)), name);
    LacksAppend(c, p + (q + (s + (g + l))), name);
  }

  lemma {:induction false} QueryRequired(d: HotelDestination, f: HotelForm)
    requires JsString.Truthy(f.arrivalDate) && JsString.Truthy(f.departureDate)
    ensures Get(HotelQuery(d, f), "dest_id") == Some(IntToString(d.destId))
    ensures Get(HotelQuery(d, f), "search_type") == Some(d.searchType)
    ensures Get(HotelQuery(d, f), "arrival_date") == f.arrivalDate
    ensures Get(HotelQuery(d, f), "departure_date") == f.departureDate
  {
    var base := BaseEntries(d, f.arrivalDate.value, f.departureDate.value, f);
    GetAt(base, "dest_id", 0);
    GetAt(base, "search_type", 1);
    GetAt(base, "arrival_date", 2);
    GetAt(base, "departure_date", 3);
    GetPrefix(base, Extras(f), "dest_id");
    GetPrefix(base, Extras(f), "search_type");
    GetPrefix(base, Extras(f), "arrival_date");
    GetPrefix(base, Extras(f), "departure_date");
  }

  lemma {:induction false} QueryNumbers(d: HotelDestination, f: HotelForm)
    requires JsString.Truthy(f.arrivalDate) && JsString.Truthy(f.departureDate)
    ensures Get(HotelQuery(d, f), "adults") == Some(ToStringOr(f.adults, "1"))
    ensures Get(HotelQuery(d, f), "room_qty") == Some(ToStringOr(f.roomQty, "1"))
    ensures Get(HotelQuery(d, f), "page_number") == Some(ToStringOr(f.pageNumber, "1"))
  {
    var base := BaseEntries(d, f.arrivalDate.value, f.departureDate.value, f);
    GetAt(base, "adults", 4);
    GetAt(base, "room_qty", 5);
    GetAt(base, "page_number", 6);
    GetPrefix(base, Extras(f), "adults");
    GetPrefix(base, Extras(f), "room_qty");
    GetPrefix(base, Extras(f), "page_number");
  }

  lemma {:induction false} QuerySelects(d: HotelDestination, f: HotelForm)
    requires JsString.Truthy(f.arrivalDate) && JsString.Truthy(f.departureDate)
    ensures Get(HotelQuery(d, f), "units") == Some(JsString.OrString(f.units, "metric"))
    ensures Get(HotelQuery(d, f), "temperature_unit") == Some(JsString.OrString(f.temperatureUnit, "c"))
    ensures Get(HotelQuery(d, f), "languagecode") == Some(JsString.OrString(f.languageCode, "en-us"))
    ensures Get(HotelQuery(d, f), "currency_code") == Some(JsString.OrString(f.currencyCode, "USD"))
  {
    var base := BaseEntries(d, f.arrivalDate.value, f.departureDate.value, f);
    GetAt(base, "units", 7);
    GetAt(base, "temperature_unit", 8);
    GetAt(base, "languagecode", 9);
    GetAt(base, "currency_code", 10);
    GetPrefix(base, Extras(f), "units");
    GetPrefix(base, Extras(f), "temperature_unit");
    GetPrefix(base, Extras(f), "languagecode");
    GetPrefix(base, Extras(f), "currency_code");
  }

  /** The base pairs carry none of the appended names. */
  lemma BaseLacks(d: HotelDestination, arrival: string, departure: string, f: HotelForm, name: string)
    requires name in {"children_age", "price_min", "price_max", "sort_by", "categories_filter", "location"}
    ensures Lacks(BaseEntries(d, arrival, departure, f), name)
  {
  }

  lemma {:induction false} QueryStrings(d: HotelDestination, f: HotelForm)
    requires JsString.Truthy(f.arrivalDate) && JsString.Truthy(f.departureDate)
    ensures Get(HotelQuery(d, f), "children_age") == JsString.OrAbsent(f.childrenAge)
    ensures Get(HotelQuery(d, f), "sort_by") == JsString.OrAbsent(f.sortBy)
    ensures Get(HotelQuery(d, f), "categories_filter") == JsString.OrAbsent(f.categoriesFilter)
    ensures Get(HotelQuery(d, f), "location") == JsString.OrAbsent(f.location)
  {
    var base := BaseEntries(d, f.arrivalDate.value, f.departureDate.value, f);
    var c := Optional("children_age", f.childrenAge);
    var p := PositiveNumber("price_min", f.priceMin);
    var q := PositiveNumber("price_max", f.priceMax);
    var s := Optional("sort_by", f.sortBy);
    var g := Optional("categories_filter", f.categoriesFilter);
    var l := Optional("location", f.location);
    var tail := q + (s + (g + l));
    assert Extras(f) == c + (p + tail);
    BaseLacks(d, f.arrivalDate.value, f.departureDate.value, f, "children_age");
    BaseLacks(d, f.arrivalDate.value, f.departureDate.value, f, "sort_by");
    BaseLacks(d, f.arrivalDate.value, f.departureDate.value, f, "categories_filter");
    BaseLacks(d, f.arrivalDate.value, f.departureDate.value, f, "location");
    GetSkip(base, Extras(f), "children_age");
    GetSkip(base, Extras(f), "sort_by");
    GetSkip(base, Extras(f), "categories_filter");
    GetSkip(base, Extras(f), "location");
    // children_age comes first
    LacksAppend(s, g + l, "children_age");
    LacksAppend(q, s + (g + l), "children_age");
    LacksAppend(p, tail, "children_age");
    GetPrefixOrAbsent(c, p + tail, "children_age");
    OptionalRead("children_age", f.childrenAge);
    // the others come after both prices
    SkipToSorting(c, p, q, s + (g + l), "sort_by");
    SkipToSorting(c, p, q, s + (g + l), "categories_filter");
    SkipToSorting(c, p, q, s + (g + l), "location");
    SortingTail(f);
  }

  /** The last three optional pairs read back as their fields. */
  lemma SortingTail(f: HotelForm)
    ensures var rest := Optional("sort_by", f.sortBy) +
      (Optional("categories_filter", f.categoriesFilter) + Optional("location", f.location));
      Get(rest, "sort_by") == JsString.OrAbsent(f.sortBy) &&
      Get(rest, "categories_filter") == JsString.OrAbsent(f.categoriesFilter) &&
      Get(rest, "location") == JsString.OrAbsent(f.location)
  {
    var s := Optional("sort_by", f.sortBy);
    var g := Optional("categories_filter", f.categoriesFilter);
    var l := Optional("location", f.location);
    LacksAppend(g, l, "sort_by");
    GetPrefixOrAbsent(s, g + l, "sort_by");
    OptionalRead("sort_by", f.sortBy);
    GetSkip(s, g + l, "categories_filter");
    GetPrefixOrAbsent(g, l, "categories_filter");
    OptionalRead("categories_filter", f.categoriesFilter);
    GetSkip(s, g + l, "location");
    GetSkip(g, l, "location");
    OptionalRead("location", f.location);
  }

  lemma SkipToSorting(c: Entries, p: Entries, q: Entries, rest: Entries, name: string)
    requires Lacks(c, name) && Lacks(p, name) && Lacks(q, name)
    ensures Get(c + (p + (q + rest)), name) == Get(rest, name)
  {
    GetSkip(c, p + (q + rest), name);
    GetSkip(p, q + rest, name);
    GetSkip(q, rest, name);
  }

  lemma {:induction false} QueryPrices(d: HotelDestination, f: HotelForm)
    requires JsString.Truthy(f.arrivalDate) && JsString.Truthy(f.departureDate)
    ensures Get(HotelQuery(d, f), "price_min") == if Positive(f.priceMin) then Some(ToString(f.priceMin.value)) else None
    ensures Get(HotelQuery(d, f), "price_max") == if Positive(f.priceMax) then Some(ToString(f.priceMax.value)) else None
  {
    var base := BaseEntries(d, f.arrivalDate.value, f.departureDate.value, f);
    var c := Optional("children_age", f.childrenAge);
    var p := PositiveNumber("price_min", f.priceMin);
    var q := PositiveNumber("price_max", f.priceMax);
    var rest := Optional("sort_by", f.sortBy) + (Optional("categories_filter", f.categoriesFilter) + Optional("location", f.location));
    assert Extras(f) == c + (p + (q + rest));
    BaseLacks(d, f.arrivalDate.value, f.departureDate.value, f, "price_min");
    BaseLacks(d, f.arrivalDate.value, f.departureDate.value, f, "price_max");
    GetSkip(base, Extras(f), "price_min");
    GetSkip(base, Extras(f), "price_max");
    GetSkip(c, p + (q + rest), "price_min");
    GetSkip(c, p + (q + rest), "price_max");
    LacksAppend(q, rest, "price_min");
    GetPrefixOrAbsent(p, q + rest, "price_min");
    GetSkip(p, q + rest, "price_max");
    GetPrefixOrAbsent(q, rest, "price_max");
  }

  /** `if (n && n > 0) params.append(name, n.toString())` */
  method AppendPositive(params: SearchParams, name: string, n: Option<JsInt>)
    modifies params
    ensures params.entries == old(params.entries) + PositiveNumber(name, n)
  {
    if n.Some? && Truthy(n.value) && n.value.value > 0 {
      params.Append(name, ToString(n.value));
    }
  }

  /** Appending the optional pairs one by one yields `Extras`. */
  lemma ExtrasInOrder(base: Entries, f: HotelForm)
    ensures base + Optional("children_age", f.childrenAge) + PositiveNumber("price_min", f.priceMin)
      + PositiveNumber("price_max", f.priceMax) + Optional("sort_by", f.sortBy)
      + Optional("categories_filter", f.categoriesFilter) + Optional("location", f.location)
      == base + Extras(f)
  {
    var c := Optional("children_age", f.childrenAge);
    var p := PositiveNumber("price_min", f.priceMin);
    var q := PositiveNumber("price_max", f.priceMax);
    var s := Optional("sort_by", f.sortBy);
    var g := Optional("categories_filter", f.categoriesFilter);
    var l := Optional("location", f.location);
    Assoc(base + c + p + q + s, g, l);
    Assoc(base + c + p + q, s, g + l);
    Assoc(base + c + p, q, s + (g + l));
    Assoc(base + c, p, q + (s + (g + l)));
    Assoc(base, c, p + (q + (s + (g + l))));
  }

  lemma Assoc(a: Entries, b: Entries, c: Entries)
    ensures a + b + c == a + (b + c)
  {
  }

  // ------------------------------------------------------------ page

  class HotelSearchPage {
    var form: HotelForm
    var destination: Option<HotelDestination>
    var isLoading: bool

    constructor()
      ensures form == InitialForm && destination == None && !isLoading
    {
      form := InitialForm;
      destination := None;
      isLoading := false;
    }

    /** The search button's `disabled`. */
    function SearchDisabled(): (disabled: bool)
      reads this
      ensures !isLoading ==> (disabled <==> SearchOutcomeOf(destination, form).Alerted?)
      ensures isLoading ==> disabled
      ensures !disabled ==> Complete(destination, form)
    {
      isLoading || !Complete(destination, form)
    }

    method Edit(e: FormEdit)
      modifies this
      ensures form == Edited(old(form), e)
      ensures destination == old(destination) && isLoading == old(isLoading)
    {
      form := Edited(form, e);
    }

    /** The picker's `onSelect`. */
    method SelectDestination(d: HotelDestination)
      modifies this
      ensures destination == Some(d) && form == old(form) && isLoading == old(isLoading)
    {
      destination := Some(d);
    }

    /** `handleSearch`: alert when a required field is missing; otherwise set
        loading, build the base parameters and append each optional one that
        is set, then navigate. */
    method HandleSearch() returns (outcome: SearchOutcome)
      modifies this
      ensures outcome == SearchOutcomeOf(destination, form)
      ensures form == old(form) && destination == old(destination)
      ensures isLoading == (old(isLoading) || outcome.Navigated?)
    {
      if destination.None? || !JsString.Truthy(form.arrivalDate) || !JsString.Truthy(form.departureDate) {
        return Alerted(RequiredFieldsAlert);
      }
      isLoading := true;
      var f := form;
      var base := BaseEntries(destination.value, f.arrivalDate.value, f.departureDate.value, f);
      var params := new SearchParams(base);
      AppendOptional(params, "children_age", f.childrenAge);
      AppendPositive(params, "price_min", f.priceMin);
      AppendPositive(params, "price_max", f.priceMax);
      AppendOptional(params, "sort_by", f.sortBy);
      AppendOptional(params, "categories_filter", f.categoriesFilter);
      AppendOptional(params, "location", f.location);
      ExtrasInOrder(base, f);
      outcome := Navigated(Route(ResultsPath, params.entries));
    }
  }
}
