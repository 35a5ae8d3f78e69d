/** The activity results page: it reads the search back from the query
    string, runs it once, builds activities from the provider's products,
    and lets the user add an activity to the itinerary. */
module ActivityResults {
  import opened Wrappers
  import opened Types
  import opened JsNumber
  import JsString
  import opened UrlParams
  import opened ActivityService
  import opened ActivitySearch
  import opened Itinerary
  import opened LocationLookup

  const MissingParamsError: string := "Missing required search parameters"

  // ------------------------------------------------------ parameters

  /** The search the page runs for `query`: `None` unless `id` is present
      and non-empty. */
  function ParseAttractionParams(query: Entries): (r: Option<AttractionSearchParams>)
    ensures r.Some? <==> JsString.Truthy(Get(query, "id"))
    ensures r.Some? ==> Some(r.value.id) == Get(query, "id")
    ensures r.Some? && JsString.Truthy(Get(query, "startDate")) ==> r.value.startDate == Get(query, "startDate")
    ensures r.Some? && !JsString.Truthy(Get(query, "startDate")) ==> r.value.startDate == None
    ensures r.Some? && JsString.Truthy(Get(query, "endDate")) ==> r.value.endDate == Get(query, "endDate")
    ensures r.Some? && !JsString.Truthy(Get(query, "endDate")) ==> r.value.endDate == None
    ensures r.Some? && JsString.Truthy(Get(query, "sortBy")) ==> r.value.sortBy == Get(query, "sortBy")
    ensures r.Some? && !JsString.Truthy(Get(query, "sortBy")) ==> r.value.sortBy == Some("trending")
    ensures r.Some? && JsString.Truthy(Get(query, "page")) ==> r.value.page == Some(ParseInt(Get(query, "page").value))
    ensures r.Some? && !JsString.Truthy(Get(query, "page")) ==> r.value.page == Some(Int(1))
    ensures r.Some? && JsString.Truthy(Get(query, "currency_code")) ==> r.value.currencyCode == Get(query, "currency_code")
    ensures r.Some? && !JsString.Truthy(Get(query, "currency_code")) ==> r.value.currencyCode == Some("USD")
    ensures r.Some? && JsString.Truthy(Get(query, "languagecode")) ==> r.value.languageCode == Get(query, "languagecode")
    ensures r.Some? && !JsString.Truthy(Get(query, "languagecode")) ==> r.value.languageCode == Some("en-us")
  {
    var id := Get(query, "id");
    if !JsString.Truthy(id) then None
    else
      Some(AttractionSearchParams(
        id.value,
        JsString.OrAbsent(Get(query, "startDate")),
        JsString.OrAbsent(Get(query, "endDate")),
        Some(JsString.OrString(Get(query, "sortBy"), "trending")),
        Some(ParseIntOr(Get(query, "page"), 1)),
        Some(JsString.OrString(Get(query, "currency_code"), "USD")),
        Some(JsString.OrString(Get(query, "languagecode"), "en-us"))))
  }

  /** The search the form describes, handed straight to the service. */
  function FormParams(loc: AttractionLocation, f: AttractionForm): AttractionSearchParams {
    AttractionSearchParams(loc.id, f.startDate, f.endDate, f.sortBy, f.page, f.currencyCode, f.languageCode)
  }

  /** Navigating from the search page with a non-empty location id makes
      the results page send the provider the request the form describes. */
  lemma SearchRoundTrip(loc: AttractionLocation, f: AttractionForm)
    requires loc.id != ""
    ensures ParseAttractionParams(AttractionQuery(loc, f)).Some?
    ensures AttractionRequestOf(ParseAttractionParams(AttractionQuery(loc, f)).value) == AttractionRequestOf(FormParams(loc, f))
  {
    QueryBase(loc, f);
    QueryDates(loc, f);
    NumberTextRoundTrip(f.page);
    var rp := AttractionRequestOf(ParseAttractionParams(AttractionQuery(loc, f)).value);
    var re := AttractionRequestOf(FormParams(loc, f));
    assert rp.page == re.page && rp.startDate == re.startDate && rp.endDate == re.endDate;
  }

  // ------------------------------------------------------- transform

  /** One product as the provider describes it. */
  datatype Product = Product(
    id: string,
    name: string,
    slug: string,
    shortDescription: string,
    chargeAmount: real,
    currency: string,
    smallPhoto: Option<string>,
    averageRating: Option<real>,
    totalReviews: Option<int>,
    cityName: string,
    hasFreeCancellation: Option<bool>)

  /** The body `searchActivities` resolves with. */
  datatype ProductsBody = ProductsBody(products: Option<seq<Product>>)

  /** The activity shown for one product: missing scores default to 0 and
      missing cancellation terms to no free cancellation. */
  function ActivityOf(p: Product): (a: Activity)
    ensures a.id == p.id && a.name == p.name && a.location == p.cityName
    ensures a.rating == p.averageRating.GetOr(0.0) && a.reviews == p.totalReviews.GetOr(0)
    ensures a.freeCancellation <==> p.hasFreeCancellation == Some(true)
    ensures a.image == [p.smallPhoto]
  {
    Activity(p.id, p.name, p.slug, p.shortDescription, p.averageRating.GetOr(0.0),
             p.totalReviews.GetOr(0), Money(p.chargeAmount, p.currency), [p.smallPhoto],
             p.cityName, p.hasFreeCancellation.GetOr(false))
  }

  /** `results.data?.products?.map(...) || []` */
  function ActivitiesOf(body: Option<ProductsBody>): (r: seq<Activity>)
    ensures body.None? || body.value.products.None? ==> r == []
    ensures body.Some? && body.value.products.Some? ==>
      |r| == |body.value.products.value| &&
      forall i | 0 <= i < |r| :: r[i] == ActivityOf(body.value.products.value[i])
  {
    if body.Some? && body.value.products.Some? then
      var ps := body.value.products.value;
      seq(|ps|, i requires 0 <= i < |ps| => ActivityOf(ps[i]))
    else []
  }

  // ----------------------------------------------------------- header

  /** The date part of the header: both dates, only the start, only the
      end, or nothing. */
  function DateRangeText(startDate: Option<string>, endDate: Option<string>): (s: string)
    ensures JsString.Truthy(startDate) && JsString.Truthy(endDate) ==>
      s == " • " + startDate.value + " to " + endDate.value
    ensures JsString.Truthy(startDate) && !JsString.Truthy(endDate) ==> s == " • From " + startDate.value
    ensures !JsString.Truthy(startDate) && JsString.Truthy(endDate) ==> s == " • Until " + endDate.value
    ensures !JsString.Truthy(startDate) && !JsString.Truthy(endDate) ==> s == ""
  {
    (if JsString.Truthy(startDate) && JsString.Truthy(endDate) then " • " + startDate.value + " to " + endDate.value else "") +
    (if JsString.Truthy(startDate) && !JsString.Truthy(endDate) then " • From " + startDate.value else "") +
    (if !JsString.Truthy(startDate) && JsString.Truthy(endDate) then " • Until " + endDate.value else "")
  }

  /** The header mentions a date exactly when one was given, and then
      starts with the separator. */
  lemma DateRangeShown(startDate: Option<string>, endDate: Option<string>)
    ensures DateRangeText(startDate, endDate) != "" <==> JsString.Truthy(startDate) || JsString.Truthy(endDate)
    ensures DateRangeText(startDate, endDate) != "" ==> DateRangeText(startDate, endDate)[..3] == " • "
  {
    var s := DateRangeText(startDate, endDate);
    if JsString.Truthy(startDate) && JsString.Truthy(endDate) {
      assert s[..3] == (" • " + startDate.value + " to " + endDate.value)[..3];
    } else if JsString.Truthy(startDate) {
      assert s[..3] == (" • From " + startDate.value)[..3];
    } else if JsString.Truthy(endDate) {
      assert s[..3] == (" • Until " + endDate.value)[..3];
    }
  }

  // ------------------------------------------------------- itinerary

  /** `isActivityInItinerary` */
  predicate IsActivityInItinerary(items: seq<ItineraryItem>, a: Activity) {
    exists i | 0 <= i < |items| ::
      items[i].data.ActivityData? &&
      (items[i].data.activity.id == a.id ||
       (items[i].data.activity.name == a.name && items[i].data.activity.location == a.location))
  }

  function ActivityItem(a: Activity, id: string, dateAdded: string): (item: ItineraryItem)
    ensures item.Type() == ActivityType && item.data == ActivityData(a)
  {
    ItineraryItem(id, ActivityData(a), dateAdded)
  }

  /** The page's test agrees with the store's duplicate rule. */
  lemma InItineraryIsDuplicate(items: seq<ItineraryItem>, a: Activity, id: string, dateAdded: string)
    ensures IsActivityInItinerary(items, a) <==> HasDuplicateOf(items, ActivityItem(a, id, dateAdded))
  {
    var item := ActivityItem(a, id, dateAdded);
    if IsActivityInItinerary(items, a) {
      var i :| 0 <= i < |items| && items[i].data.ActivityData? &&
        (items[i].data.activity.id == a.id ||
         (items[i].data.activity.name == a.name && items[i].data.activity.location == a.location));
      assert IsDuplicate(items[i], item);
    }
    if HasDuplicateOf(items, item) {
      var i :| 0 <= i < |items| && IsDuplicate(items[i], item);
      assert items[i].data.ActivityData?;
    }
  }

  function ActivityAddedToast(a: Activity): (t: Toast)
    ensures t.title == "Activity Added! \U{1F3AF}" && t.duration == ToastDuration
    ensures t.description == a.name + " has been added to your itinerary."
  {
    Toast("Activity Added! \U{1F3AF}", a.name + " has been added to your itinerary.", ToastDuration)
  }

  // ------------------------------------------------------------ page

  class ActivityResultsPage {
    const query: Entries
    var activities: seq<Activity>
    var isLoading: bool
    var error: Option<string>
    var hasSearched: bool

    constructor(query: Entries)
      ensures this.query == query
      ensures activities == [] && isLoading && error == None && !hasSearched
    {
      this.query := query;
      activities := [];
      isLoading := true;
      error := None;
      hasSearched := false;
    }

    /** The mount effect: search when `id` is there, otherwise stop loading
        with an error. */
    method Mount() returns (request: Option<AttractionRequest>)
      modifies this
      ensures request.Some? <==> !old(hasSearched) && ParseAttractionParams(query).Some?
      ensures request.Some? ==>
        request.value == AttractionRequestOf(ParseAttractionParams(query).value) && isLoading && error == None
      ensures ParseAttractionParams(query).None? ==> !isLoading && error == Some(MissingParamsError)
      ensures request.None? && ParseAttractionParams(query).Some? ==> isLoading == old(isLoading) && error == old(error)
      ensures activities == old(activities) && hasSearched == old(hasSearched)
    {
      var p := ParseAttractionParams(query);
      if !hasSearched && p.Some? {
        isLoading := true;
        error := None;
        request := Some(AttractionRequestOf(p.value));
      } else if p.None? {
        isLoading := false;
        error := Some(MissingParamsError);
        request := None;
      } else {
        request := None;
      }
    }

    /** The search settles: an answer replaces the activities; a rejection
        is only logged. */
    method Settle(response: Response<ProductsBody>)
      modifies this
      ensures response.Answered? ==> activities == ActivitiesOf(response.data)
      ensures response.Rejected? ==> activities == old(activities)
      ensures !isLoading && hasSearched && error == old(error)
    {
      if response.Answered? {
        activities := ActivitiesOf(response.data);
      }
      isLoading := false;
      hasSearched := true;
    }
  }

  /** `handleAddToItinerary`: the store's notice, if any, and the page's
      notice; the button is disabled for an activity already in the
      itinerary, so an enabled one appends. */
  method HandleAddToItinerary(store: ItineraryStore, a: Activity, id: string, dateAdded: string)
    returns (storeNotice: Option<Toast>, notice: Toast)
    requires store.hydrated && store.Valid()
    modifies store
    ensures store.hydrated && store.Valid()
    ensures store.items == AddedTo(old(store.items), ActivityItem(a, id, dateAdded))
    ensures !IsActivityInItinerary(old(store.items), a) ==> store.items == old(store.items) + [ActivityItem(a, id, dateAdded)]
    ensures NoDuplicates(old(store.items)) ==> NoDuplicates(store.items)
    ensures storeNotice == if IsActivityInItinerary(old(store.items), a) then Some(AlreadyAddedToast) else None
    ensures notice == ActivityAddedToast(a)
  {
    InItineraryIsDuplicate(store.items, a, id, dateAdded);
    storeNotice := store.Add(ActivityItem(a, id, dateAdded));
    notice := ActivityAddedToast(a);
  }
}
