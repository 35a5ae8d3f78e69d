/** The flight search page: a form, two destination pickers and the search
    button, which either alerts or navigates to the results page with the
    form written into the query string. */
module FlightSearch {
  import opened Wrappers
  import opened Types
  import opened JsNumber
  import JsString
  import opened UrlParams

  /** The page's `searchParams` state: every field may be unset. The select
      fields hold the option's value string. */
  datatype FlightForm = FlightForm(
    departDate: Option<string>,
    returnDate: Option<string>,
    adults: Option<JsInt>,
    children: Option<string>,
    cabinClass: Option<string>,
    sort: Option<string>,
    stops: Option<string>,
    pageNo: Option<JsInt>,
    currencyCode: Option<string>)

  /** The state the page starts in; no control edits `pageNo`. */
  const InitialForm: FlightForm :=
    FlightForm(None, None, Some(Int(1)), Some(""), Some("ECONOMY"), Some("BEST"), Some("none"), Some(Int(1)), Some("USD"))

  const RequiredFieldsAlert: string := "Please fill in all required fields"
  const ResultsPath: string := "/flights/results"

  /** One change made through a form control. The number input delivers its
      raw text, which `Number.parseInt` turns into the adults count; the
      selects deliver one of their option values. */
  datatype FormEdit =
    | SetDepartDate(date: string)
    | SetReturnDate(date: string)
    | SetAdults(text: string)
    | SetChildren(ages: string)
    | SetCabinClass(cabin: CabinClass)
    | SetSort(order: SortOrder)
    | SetStops(filter: Stops)
    | SetCurrency(code: string)

  /** The state key an edit writes. */
  function Field(e: FormEdit): string {
    match e
    case SetDepartDate(_) => "departDate"
    case SetReturnDate(_) => "returnDate"
    case SetAdults(_) => "adults"
    case SetChildren(_) => "children"
    case SetCabinClass(_) => "cabinClass"
    case SetSort(_) => "sort"
    case SetStops(_) => "stops"
    case SetCurrency(_) => "currency_code"
  }

  /** The form after one edit: that field changes, the others stay. */
  function Edited(f: FlightForm, e: FormEdit): (r: FlightForm)
    ensures e.SetDepartDate? ==> r == f.(departDate := Some(e.date))
    ensures e.SetReturnDate? ==> r == f.(returnDate := Some(e.date))
    ensures e.SetAdults? ==> r == f.(adults := Some(ParseInt(e.text)))
    ensures e.SetChildren? ==> r == f.(children := Some(e.ages))
    ensures e.SetCabinClass? ==> r == f.(cabinClass := Some(e.cabin.Value()))
    ensures e.SetSort? ==> r == f.(sort := Some(e.order.Value()))
    ensures e.SetStops? ==> r == f.(stops := Some(e.filter.Value()))
    ensures e.SetCurrency? ==> r == f.(currencyCode := Some(e.code))
    ensures r.pageNo == f.pageNo
  {
    match e
    case SetDepartDate(d) => f.(departDate := Some(d))
    case SetReturnDate(d) => f.(returnDate := Some(d))
    case SetAdults(t) => f.(adults := Some(ParseInt(t)))
    case SetChildren(c) => f.(children := Some(c))
    case SetCabinClass(c) => f.(cabinClass := Some(c.Value()))
    case SetSort(s) => f.(sort := Some(s.Value()))
    case SetStops(s) => f.(stops := Some(s.Value()))
    case SetCurrency(c) => f.(currencyCode := Some(c))
  }

  /** Repeating an edit changes nothing more. */
  lemma EditIdempotent(f: FlightForm, e: FormEdit)
    ensures Edited(Edited(f, e), e) == Edited(f, e)
  {
  }

  /** Edits of different fields do not interfere: their order is
      irrelevant. */
  lemma EditsCommute(f: FlightForm, e1: FormEdit, e2: FormEdit)
    requires Field(e1) != Field(e2)
    ensures Edited(Edited(f, e1), e2) == Edited(Edited(f, e2), e1)
  {
  }

  /** The required fields are filled: both destinations chosen and a
      non-empty departure date. */
  predicate Complete(from: Option<FlightDestination>, to: Option<FlightDestination>, f: FlightForm) {
    from.Some? && to.Some? && JsString.Truthy(f.departDate)
  }

  /** The pairs `new URLSearchParams({...})` starts with, in order: the
      required fields, then the defaulted ones. */
  function BaseEntries(from: FlightDestination, to: FlightDestination, departDate: string, f: FlightForm): Entries {
    [("fromId", from.id),
     ("toId", to.id),
     ("departDate", departDate),
     ("adults", ToStringOr(f.adults, "1")),
     ("cabinClass", JsString.OrString(f.cabinClass, "ECONOMY")),
     ("sort", JsString.OrString(f.sort, "BEST")),
     ("stops", JsString.OrString(f.stops, "none")),
     ("pageNo", ToStringOr(f.pageNo, "1")),
     ("currency_code", JsString.OrString(f.currencyCode, "USD"))]
  }

  /** The whole query: the base pairs, then `returnDate` and `children` when
      they are non-empty. */
  function FlightQuery(from: FlightDestination, to: FlightDestination, f: FlightForm): Entries
    requires JsString.Truthy(f.departDate)
  {
    BaseEntries(from, to, f.departDate.value, f) + (Optional("returnDate", f.returnDate) + Optional("children", f.children))
  }

  /** What pressing the search button does. */
  function SearchOutcomeOf(from: Option<FlightDestination>, to: Option<FlightDestination>, f: FlightForm): (r: SearchOutcome)
    ensures r.Alerted? <==> !Complete(from, to, f)
    ensures r.Alerted? ==> r.message == RequiredFieldsAlert
    ensures r.Navigated? ==> r.route.path == ResultsPath && |r.route.query| >= 9
  {
    if !Complete(from, to, f) then Alerted(RequiredFieldsAlert)
    else Navigated(Route(ResultsPath, FlightQuery(from.value, to.value, f)))
  }

  // ------------------------------------------------------ read-back

  /** The required fields are read back as written. */
  lemma {:induction false} QueryRequired(from: FlightDestination, to: FlightDestination, f: FlightForm)
    requires JsString.Truthy(f.departDate)
    ensures Get(FlightQuery(from, to, f), "fromId") == Some(from.id)
    ensures Get(FlightQuery(from, to, f), "toId") == Some(to.id)
    ensures Get(FlightQuery(from, to, f), "departDate") == f.departDate
  {
    var base := BaseEntries(from, to, f.departDate.value, f);
    var rest := Optional("returnDate", f.returnDate) + Optional("children", f.children);
    GetAt(base, "fromId", 0);
    GetAt(base, "toId", 1);
    GetAt(base, "departDate", 2);
    GetPrefix(base, rest, "fromId");
    GetPrefix(base, rest, "toId");
    GetPrefix(base, rest, "departDate");
  }

  /** The numeric fields are written even when 0 or NaN; absent ones as 1. */
  lemma {:induction false} QueryNumbers(from: FlightDestination, to: FlightDestination, f: FlightForm)
    requires JsString.Truthy(f.departDate)
    ensures Get(FlightQuery(from, to, f), "adults") == Some(ToStringOr(f.adults, "1"))
    ensures Get(FlightQuery(from, to, f), "pageNo") == Some(ToStringOr(f.pageNo, "1"))
  {
    var base := BaseEntries(from, to, f.departDate.value, f);
    var rest := Optional("returnDate", f.returnDate) + Optional("children", f.children);
    GetAt(base, "adults", 3);
    GetAt(base, "pageNo", 7);
    GetPrefix(base, rest, "adults");
    GetPrefix(base, rest, "pageNo");
  }

  /** The select fields are written, an empty or unset one as its default. */
  lemma {:induction false} QuerySelects(from: FlightDestination, to: FlightDestination, f: FlightForm)
    requires JsString.Truthy(f.departDate)
    ensures Get(FlightQuery(from, to, f), "cabinClass") == Some(JsString.OrString(f.cabinClass, "ECONOMY"))
    ensures Get(FlightQuery(from, to, f), "sort") == Some(JsString.OrString(f.sort, "BEST"))
    ensures Get(FlightQuery(from, to, f), "stops") == Some(JsString.OrString(f.stops, "none"))
    ensures Get(FlightQuery(from, to, f), "currency_code") == Some(JsString.OrString(f.currencyCode, "USD"))
  {
    var base := BaseEntries(from, to, f.departDate.value, f);
    var rest := Optional("returnDate", f.returnDate) + Optional("children", f.children);
    GetAt(base, "cabinClass", 4);
    GetAt(base, "sort", 5);
    GetAt(base, "stops", 6);
    GetAt(base, "currency_code", 8);
    GetPrefix(base, rest, "cabinClass");
    GetPrefix(base, rest, "sort");
    GetPrefix(base, rest, "stops");
    GetPrefix(base, rest, "currency_code");
  }

  /** `returnDate` and `children` are present exactly when non-empty. */
  lemma {:induction false} QueryOptional(from: FlightDestination, to: FlightDestination, f: FlightForm)
    requires JsString.Truthy(f.departDate)
    ensures Get(FlightQuery(from, to, f), "returnDate") == if JsString.Truthy(f.returnDate) then f.returnDate else None
    ensures Get(FlightQuery(from, to, f), "children") == if JsString.Truthy(f.children) then f.children else None
  {
    var base := BaseEntries(from, to, f.departDate.value, f);
    var r := Optional("returnDate", f.returnDate);
    var c := Optional("children", f.children);
    GetSkip(base, r + c, "returnDate");
    GetSkip(base, r + c, "children");
    OptionalRead("returnDate", f.returnDate);
    GetPrefixOrAbsent(r, c, "returnDate");
    GetSkip(r, c, "children");
    OptionalRead("children", f.children);
  }

  // ------------------------------------------------------------ page

  class FlightSearchPage {
    var form: FlightForm
    var from: Option<FlightDestination>
    var to: Option<FlightDestination>
    var isLoading: bool

    constructor()
      ensures form == InitialForm && from == None && to == None && !isLoading
    {
      form := InitialForm;
      from := None;
      to := None;
      isLoading := false;
    }

    /** The search button's `disabled`. */
    function SearchDisabled(): (disabled: bool)
      reads this
      ensures !isLoading ==> (disabled <==> SearchOutcomeOf(from, to, form).Alerted?)
      ensures isLoading ==> disabled
      ensures !disabled ==> Complete(from, to, form)
    {
      isLoading || !Complete(from, to, form)
    }

    /** A change made through one of the form controls. */
    method Edit(e: FormEdit)
      modifies this
      ensures form == Edited(old(form), e)
      ensures from == old(from) && to == old(to) && isLoading == old(isLoading)
    {
      form := Edited(form, e);
    }

    /** The departure picker's `onSelect`. */
    method SelectFrom(d: FlightDestination)
      modifies this
      ensures from == Some(d) && to == old(to) && form == old(form) && isLoading == old(isLoading)
    {
      from := Some(d);
    }

    /** The arrival picker's `onSelect`. */
    method SelectTo(d: FlightDestination)
      modifies this
      ensures to == Some(d) && from == old(from) && form == old(form) && isLoading == old(isLoading)
    {
      to := Some(d);
    }

    /** `handleSearch`: alert when a required field is missing; otherwise set
        loading, build the parameters (base pairs, then the optional ones
        appended in place) and navigate. Loading is never reset: the page is
        left behind. */
    method HandleSearch() returns (outcome: SearchOutcome)
      modifies this
      ensures outcome == SearchOutcomeOf(from, to, form)
      ensures form == old(form) && from == old(from) && to == old(to)
      ensures isLoading == (old(isLoading) || outcome.Navigated?)
    {
      if from.None? || to.None? || !JsString.Truthy(form.departDate) {
        return Alerted(RequiredFieldsAlert);
      }
      isLoading := true;
      var base := BaseEntries(from.value, to.value, form.departDate.value, form);
      var params := new SearchParams(base);
      AppendOptional(params, "returnDate", form.returnDate);
      AppendOptional(params, "children", form.children);
      assert params.entries == base + (Optional("returnDate", form.returnDate) + Optional("children", form.children));
      outcome := Navigated(Route(ResultsPath, params.entries));
    }
  }
}
