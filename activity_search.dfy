/** The activity search page: a form and a location picker; the search
    button alerts or navigates to the results page with the form written
    into the query string, the dates only when set. */
module ActivitySearch {
  import opened Wrappers
  import opened Types
  import opened JsNumber
  import JsString
  import opened UrlParams

  /** The page's `searchParams` state. */
  datatype AttractionForm = AttractionForm(
    startDate: Option<string>,
    endDate: Option<string>,
    sortBy: Option<string>,
    page: Option<JsInt>,
    currencyCode: Option<string>,
    languageCode: Option<string>)

  /** The state the page starts in; no control edits `page`. */
  const InitialForm: AttractionForm :=
    AttractionForm(None, None, Some("trending"), Some(Int(1)), Some("USD"), Some("en-us"))

  const LocationAlert: string := "Please select a location"
  const ResultsPath: string := "/activities/results"

  /** One change made through a form control. */
  datatype FormEdit =
    | SetStartDate(date: string)
    | SetEndDate(date: string)
    | SetSortBy(order: AttractionSort)
    | SetCurrency(code: string)
    | SetLanguage(code: string)

  /** The state key an edit writes. */
  function Field(e: FormEdit): string {
    match e
    case SetStartDate(_) => "startDate"
    case SetEndDate(_) => "endDate"
    case SetSortBy(_) => "sortBy"
    case SetCurrency(_) => "currency_code"
    case SetLanguage(_) => "languagecode"
  }

  /** The form after one edit: that field changes, the others stay. */
  function Edited(f: AttractionForm, e: FormEdit): (r: AttractionForm)
    ensures e.SetStartDate? ==> r == f.(startDate := Some(e.date))
    ensures e.SetEndDate? ==> r == f.(endDate := Some(e.date))
    ensures e.SetSortBy? ==> r == f.(sortBy := Some(e.order.Value()))
    ensures e.SetCurrency? ==> r == f.(currencyCode := Some(e.code))
    ensures e.SetLanguage? ==> r == f.(languageCode := Some(e.code))
    ensures r.page == f.page
  {
    match e
    case SetStartDate(d) => f.(startDate := Some(d))
    case SetEndDate(d) => f.(endDate := Some(d))
    case SetSortBy(s) => f.(sortBy := Some(s.Value()))
    case SetCurrency(c) => f.(currencyCode := Some(c))
    case SetLanguage(c) => f.(languageCode := Some(c))
  }

  /** Repeating an edit changes nothing more. */
  lemma EditIdempotent(f: AttractionForm, e: FormEdit)
    ensures Edited(Edited(f, e), e) == Edited(f, e)
  {
  }

  /** Edits of different fields do not interfere: their order is
      irrelevant. */
  lemma EditsCommute(f: AttractionForm, e1: FormEdit, e2: FormEdit)
    requires Field(e1) != Field(e2)
    ensures Edited(Edited(f, e1), e2) == Edited(Edited(f, e2), e1)
  {
  }

  /** The pairs `new URLSearchParams({...})` starts with. */
  function BaseEntries(loc: AttractionLocation, f: AttractionForm): Entries {
    [("id", loc.id),
     ("sortBy", JsString.OrString(f.sortBy, "trending")),
     ("page", ToStringOr(f.page, "1")),
     ("currency_code", JsString.OrString(f.currencyCode, "USD")),
     ("languagecode", JsString.OrString(f.languageCode, "en-us"))]
  }

  function AttractionQuery(loc: AttractionLocation, f: AttractionForm): Entries {
    BaseEntries(loc, f) + (Optional("startDate", f.startDate) + Optional("endDate", f.endDate))
  }

  /** What pressing the search button does: only the location is required. */
  function SearchOutcomeOf(loc: Option<AttractionLocation>, f: AttractionForm): (r: SearchOutcome)
    ensures r.Alerted? <==> loc.None?
    ensures r.Alerted? ==> r.message == LocationAlert
    ensures r.Navigated? ==> r.route.path == ResultsPath && 5 <= |r.route.query| <= 7
  {
    if loc.None? then Alerted(LocationAlert)
    else Navigated(Route(ResultsPath, AttractionQuery(loc.value, f)))
  }

  // ------------------------------------------------------ read-back

  lemma {:induction false} QueryBase(loc: AttractionLocation, f: AttractionForm)
    ensures Get(AttractionQuery(loc, f), "id") == Some(loc.id)
    ensures Get(AttractionQuery(loc, f), "sortBy") == Some(JsString.OrString(f.sortBy, "trending"))
    ensures Get(AttractionQuery(loc, f), "page") == Some(ToStringOr(f.page, "1"))
    ensures Get(AttractionQuery(loc, f), "currency_code") == Some(JsString.OrString(f.currencyCode, "USD"))
    ensures Get(AttractionQuery(loc, f), "languagecode") == Some(JsString.OrString(f.languageCode, "en-us"))
  {
    var base := BaseEntries(loc, f);
    var rest := Optional("startDate", f.startDate) + Optional("endDate", f.endDate);
    GetAt(base, "id", 0);
    GetAt(base, "sortBy", 1);
    GetAt(base, "page", 2);
    GetAt(base, "currency_code", 3);
    GetAt(base, "languagecode", 4);
    GetPrefix(base, rest, "id");
    GetPrefix(base, rest, "sortBy");
    GetPrefix(base, rest, "page");
    GetPrefix(base, rest, "currency_code");
    GetPrefix(base, rest, "languagecode");
  }

  /** The dates are present exactly when non-empty. */
  lemma {:induction false} QueryDates(loc: AttractionLocation, f: AttractionForm)
    ensures Get(AttractionQuery(loc, f), "startDate") == JsString.OrAbsent(f.startDate)
    ensures Get(AttractionQuery(loc, f), "endDate") == JsString.OrAbsent(f.endDate)
  {
    var base := BaseEntries(loc, f);
    var s := Optional("startDate", f.startDate);
    var e := Optional("endDate", f.endDate);
    GetSkip(base, s + e, "startDate");
    GetSkip(base, s + e, "endDate");
    GetPrefixOrAbsent(s, e, "startDate");
    OptionalRead("startDate", f.startDate);
    GetSkip(s, e, "endDate");
    OptionalRead("endDate", f.endDate);
  }

  // ------------------------------------------------------------ page

  class ActivitySearchPage {
    var form: AttractionForm
    var location: Option<AttractionLocation>
    var isLoading: bool

    constructor()
      ensures form == InitialForm && location == None && !isLoading
    {
      form := InitialForm;
      location := None;
      isLoading := false;
    }

    /** The search button's `disabled`. */
    function SearchDisabled(): (disabled: bool)
      reads this
      ensures !isLoading ==> (disabled <==> SearchOutcomeOf(location, form).Alerted?)
      ensures isLoading ==> disabled
      ensures !disabled ==> location.Some?
    {
      isLoading || location.None?
    }

    method Edit(e: FormEdit)
      modifies this
      ensures form == Edited(old(form), e)
      ensures location == old(location) && isLoading == old(isLoading)
    {
      form := Edited(form, e);
    }

    /** The picker's `onSelect`. */
    method SelectLocation(loc: AttractionLocation)
      modifies this
      ensures location == Some(loc) && form == old(form) && isLoading == old(isLoading)
    {
      location := Some(loc);
    }

    /** `handleSearch`: alert without a location; otherwise set loading,
        build the base parameters, append the dates that are set, and
        navigate. */
    method HandleSearch() returns (outcome: SearchOutcome)
      modifies this
      ensures outcome == SearchOutcomeOf(location, form)
      ensures form == old(form) && location == old(location)
      ensures isLoading == (old(isLoading) || outcome.Navigated?)
    {
      if location.None? {
        return Alerted(LocationAlert);
      }
      isLoading := true;
      var base := BaseEntries(location.value, form);
      var params := new SearchParams(base);
      AppendOptional(params, "startDate", form.startDate);
      AppendOptional(params, "endDate", form.endDate);
      assert params.entries == base + (Optional("startDate", form.startDate) + Optional("endDate", form.endDate));
      outcome := Navigated(Route(ResultsPath, params.entries));
    }
  }
}
