# Travel itinerary planner: a verified model of the client-side logic

This project models, in Dafny, the client-side logic of a Next.js trip
planner. Users search flights, hotels and activities, add results to a
personal itinerary kept in the browser's storage, and manage that itinerary
on the home page. The model covers these parts:

- **The itinerary store** (`Itinerary`): an ordered list of tagged items
  (flight, hotel or activity). The list is loaded once from storage and
  written back after every change. `Add` refuses an item that duplicates
  one already present under the per-kind matching rule. `Remove` drops
  every item with a given id. `Clear` empties the list. The invariant that
  no two items are duplicates is proved to survive every operation.
- **The lookup cache with cancellation** (`LocationLookup`): the shared
  shape of the three `search…Destinations/Locations` services. It holds a
  map from the trimmed, lower-cased query to a result list, plus the
  current abort controller, modelled as a counter with a set of aborted
  tokens. It is used by `FlightService`, `HotelService` and
  `ActivityService`. Those three also hold the pure "fill absent fields
  with defaults" mappings used by the `search{Flights,Hotels,Activities}`
  calls.
- **The three search pages** (`FlightSearch`, `HotelSearch`,
  `ActivitySearch`):
  - the form state and its edits;
  - the required-field check;
  - the query string built step by step, as `URLSearchParams` is, with
    required keys, defaulted keys and conditional appends.
- **The three results pages** (`FlightResults`, `HotelResults`,
  `ActivityResults`):
  - parsing of the query string, and the gate that decides whether the
    search runs;
  - the provider-response transforms;
  - the labels: duration, stops, rating and date range;
  - the `is…InItinerary` checks and the add-to-itinerary handlers.
  The serialise-then-parse round trip from each search page to its results
  page is proved.
- **The three lookup dropdowns** (`FlightDestinationSearch`,
  `HotelDestinationSearch`, `AttractionLocationSearch`), modelled as
  classes. Each event is a handler followed by the React effects it sets
  off. A debounce timer firing is an explicit `Fire` event.
- **Small helpers**:
  - capitalising, truncating and currency symbols (`Utils`);
  - the image carousel's index stepping and render cases (`ImageCarousel`);
  - the home page (`HomePage`): the split of the itinerary by type, the
    facility icon match (longest key first), the taxes-line extraction, the
    slug-to-text helper, and the remove dialog.
- **Support modules**:
  - `Types`: the domain records and enums;
  - `JsString` and `JsNumber`: the ECMAScript string and number operations
    the source relies on (`trim`, `toLowerCase`, `split`, `includes`,
    `parseInt`, `toString`, and `||` defaulting);
  - `UrlParams`: an ordered list of query entries and `get`;
  - `Wrappers`: `Option` and `Result`.

Effects such as the network, storage and clocks are parameters:
- a provider call is a `Response` value, either `Answered(data)` or
  `Rejected(reason)`;
- storage is an `Option<Stored>` cell;
- item ids, dates and `crypto.randomUUID` values are passed in.

## Model

| member | source | states |
|---|---|---|
| Itinerary.DuplicateSymmetric | context/ItineraryContext.tsx:71-104 | the duplicate rule is symmetric, so "no two items are duplicates" does not depend on order |
| Itinerary.DuplicateSameType | context/ItineraryContext.tsx:72 | items of different types are never duplicates of each other |
| Itinerary.DuplicateReflexive | context/ItineraryContext.tsx:71-104 | every item duplicates itself, so adding the same item twice is refused |
| Itinerary.IsDuplicate | context/ItineraryContext.tsx:71-104 | the duplicate rule: items of different types never match; flights match on uniqueId; hotels on id, or on name, address and check-in together; activities on id, or on name and location together |
| Itinerary.HasDuplicateOf | context/ItineraryContext.tsx:70-71 | some item already in the list duplicates the new one |
| Itinerary.AddedTo | context/ItineraryContext.tsx:69-117 | the list stays the same length exactly when an existing item duplicates the new one; otherwise the item is appended and the old items keep their order; either way a duplicate of the item is then present |
| Itinerary.WithoutId | context/ItineraryContext.tsx:146 | keeps exactly the items whose id differs; the list is unchanged exactly when no item has the id |
| Itinerary.FindById | context/ItineraryContext.tsx:121 | the first item with the id, and `None` exactly when there is none |
| Itinerary.CapitalizedTypeName | context/ItineraryContext.tsx:123-144 | the removal title starts with "Flight", "Hotel" or "Activity", the type tag with its first letter upper-cased |
| Itinerary.ItemLabel | context/ItineraryContext.tsx:125-137 | how a notice names an item: airline, a space and flight number for a flight; the name for a hotel or an activity |
| Itinerary.RemovedTitle | context/ItineraryContext.tsx:140 | the removal title is "Flight", "Hotel" or "Activity", then " Removed! ", then the type's emoji |
| Itinerary.RemovedToast | context/ItineraryContext.tsx:139-143 | the removal notice has that title, a description made of the item's label followed by " has been removed from your itinerary.", and lasts 3000 ms |
| Itinerary.AddKeepsNoDuplicates | context/ItineraryContext.tsx:69-117 | adding keeps the list free of duplicate pairs |
| Itinerary.WithoutIdKeepsNoDuplicates | context/ItineraryContext.tsx:146 | removing keeps the list free of duplicate pairs |
| Itinerary.ApplyAllKeepsNoDuplicates | context/ItineraryContext.tsx:69-157 | any sequence of add, remove and clear, from a list without duplicates (such as the empty one), keeps it without duplicates |
| Itinerary.WithoutIdAppend | context/ItineraryContext.tsx:146 | filtering by id distributes over concatenation, so the kept items stay in order |
| Itinerary.AddThenRemove | context/ItineraryContext.tsx:115-146 | adding a new item with a fresh id and then removing that id restores the list |
| Itinerary.AddIdempotent | context/ItineraryContext.tsx:69-117 | adding the same item twice is adding it once |
| Itinerary.RemoveIdempotent | context/ItineraryContext.tsx:146 | removing the same id twice is removing it once |
| Itinerary.ItineraryStore.constructor | context/ItineraryContext.tsx:42-43 | the first render holds an empty, not yet loaded list |
| Itinerary.ItineraryStore.Hydrate | context/ItineraryContext.tsx:46-67 | a parsable stored list is adopted; unparsable, empty or absent storage keeps `[]`; loading is always marked done, and the list is written back |
| Itinerary.ItineraryStore.Add | context/ItineraryContext.tsx:69-117 | the new list is `AddedTo` of the old one; the "Already Added" notice appears exactly when a duplicate was present; storage holds the list; no duplicates is preserved |
| Itinerary.ItineraryStore.Remove | context/ItineraryContext.tsx:119-148 | the new list is `WithoutId` of the old one; there is no notice exactly when no item had the id; otherwise the notice names the first such item; storage holds the list; no duplicates is preserved |
| Itinerary.ItineraryStore.Clear | context/ItineraryContext.tsx:150-157 | the list is empty, saved, and the "Itinerary Cleared" notice is shown |
| LocationLookup.CacheKey | services/flightService.ts:9 | the key is no longer than the query, has no whitespace at either end and no upper-case ASCII letter |
| LocationLookup.KeyIgnoresPadding | services/flightService.ts:9 | queries that differ only by surrounding whitespace share a cache entry |
| LocationLookup.KeyIgnoresCase | services/flightService.ts:9 | queries that differ only in letter case share a cache entry |
| LocationLookup.LookupCache.constructor | services/flightService.ts:4-5 | the module starts with an empty cache and no controller |
| LocationLookup.LookupCache.Cached | services/flightService.ts:10 | a hit exactly when the normalised key is in the cache, giving the stored list |
| LocationLookup.LookupCache.Send | services/flightService.ts:12-19 | a miss aborts the previous controller and installs a new one, which is then the only live one; the query is sent; the cache is untouched |
| LocationLookup.LookupCache.Store | services/flightService.ts:21 | stores one entry and changes nothing else |
| LocationLookup.AtMostOneLive | services/flightService.ts:12-13 | at most one controller is live, and it is the newest |
| FlightService.SearchDestinations | services/flightService.ts:8-27 | a hit returns the cached list and touches nothing; a miss swaps the controller and sends the query; success caches and returns the data, or `[]` when it is missing; failure caches nothing and fails with the reason; entries are never removed |
| FlightService.FlightRequestOf | services/flightService.ts:32-44 | the required fields pass through; each absent or empty field gets its default ("", "none", 1, 1, "", "BEST", "ECONOMY", "USD") |
| HotelService.SearchDestinations | services/hotelService.ts:8-27 | as the flight lookup, except that a failure returns `[]` (and caches nothing) |
| HotelService.HotelRequestOf | services/hotelService.ts:33-49 | the required fields pass through; absent or zero fields get the defaults 1, "", 1, 1, 0, 0, "", "", "metric", "c", "en-us", "USD", "US" |
| ActivityService.ToLocation | services/activityService.ts:22-27 | a provider destination maps to id, name = cityName, country, region = cc1 |
| ActivityService.ToLocations | services/activityService.ts:22-27 | the mapping keeps length and order |
| ActivityService.LocationsOf | services/activityService.ts:21-27 | a missing body or `destinations` field gives `[]`, otherwise the mapped list |
| ActivityService.SearchLocations | services/activityService.ts:8-35 | as the hotel lookup, but the mapped list, not the raw response, is cached and returned |
| ActivityService.AttractionRequestOf | services/activityService.ts:40-48 | id passes through; defaults "", "", "trending", 1, "USD", "en-us" |
| FlightSearch.Edited | app/flights/search/page.tsx:111-219 | each form edit sets its one field (adults parsed with `parseInt`, selects as their option values) and leaves `pageNo` alone |
| FlightSearch.EditIdempotent | app/flights/search/page.tsx:111-219 | repeating an edit changes nothing more |
| FlightSearch.EditsCommute | app/flights/search/page.tsx:111-219 | edits of two different fields give the same form in either order |
| FlightSearch.Complete | app/flights/search/page.tsx:28 | the required fields are filled: both destinations chosen and a non-empty departure date |
| FlightSearch.SearchOutcomeOf | app/flights/search/page.tsx:28-56 | alerts exactly when the origin, destination or departure date is missing; otherwise navigates to `/flights/results` with at least the nine always-present keys |
| FlightSearch.QueryRequired | app/flights/search/page.tsx:36-39 | the query carries fromId, toId and departDate from the form |
| FlightSearch.QueryNumbers | app/flights/search/page.tsx:40-44 | adults and pageNo are written as decimal text, "1" when absent |
| FlightSearch.QuerySelects | app/flights/search/page.tsx:41-45 | cabinClass, sort, stops and currency_code are present with their defaults |
| FlightSearch.QueryOptional | app/flights/search/page.tsx:48-53 | returnDate and children are present exactly when non-empty |
| FlightSearch.FlightSearchPage.constructor | app/flights/search/page.tsx:15-26 | the initial form, with no origin or destination and not loading |
| FlightSearch.FlightSearchPage.SearchDisabled | app/flights/search/page.tsx:237 | the button is disabled while loading; otherwise exactly when pressing it would alert; an enabled button means the form is complete |
| FlightSearch.FlightSearchPage.Edit | app/flights/search/page.tsx:111-219 | the form becomes `Edited` of the old form; nothing else changes |
| FlightSearch.FlightSearchPage.SelectFrom | app/flights/search/page.tsx:87 | sets the origin only |
| FlightSearch.FlightSearchPage.SelectTo | app/flights/search/page.tsx:96 | sets the destination only |
| FlightSearch.FlightSearchPage.HandleSearch | app/flights/search/page.tsx:28-56 | the outcome is `SearchOutcomeOf` the state; loading starts exactly when it navigates |
| FlightResults.ParseFlightParams | app/flights/results/page.tsx:48-66 | parameters exist exactly when fromId, toId and departDate are all non-empty, and carry them; each optional parameter is carried (numbers parsed) when non-empty, otherwise returnDate and children are absent and stops, pageNo, adults, sort, cabinClass and currency_code default to "none", 1, 1, "BEST", "ECONOMY" and "USD" |
| FlightResults.SearchRoundTrip | app/flights/results/page.tsx:54-66 | the query built by the search page parses back to a request equal to the one built directly from the form |
| FlightResults.EmptyIdHasNoSearch | app/flights/results/page.tsx:48 | an origin with an empty id yields no search |
| FlightResults.DurationParts | app/flights/results/page.tsx:110 | hours and minutes are the floor of t/3600 and of (t mod 3600)/60: minutes below 60, and the seconds left over are under a minute |
| FlightResults.DurationPartsUnique | app/flights/results/page.tsx:110 | those are the only such hours and minutes |
| FlightResults.DurationTextOf | app/flights/results/page.tsx:110 | the text is "<h>h <m>m" for the whole hours h and the remaining whole minutes m of the flight time |
| FlightResults.StopCount | app/flights/results/page.tsx:111 | the number of stops of the first leg, 0 when absent |
| FlightResults.BaggageText | app/flights/results/page.tsx:118-119 | the line is the caption, ": ", the first allowance's weight text and then its unit text |
| FlightResults.FirstAllowance | app/flights/results/page.tsx:118-119 | the first entry of the luggage list, none for an empty list |
| FlightResults.WeightText | app/flights/results/page.tsx:118-119 | the weight as decimal text, or "N/A" when the allowance or its weight is missing or 0 |
| FlightResults.UnitText | app/flights/results/page.tsx:118-119 | the mass unit, or "" when the allowance or its unit is missing or empty |
| FlightResults.BaggageWeightReadBack | app/flights/results/page.tsx:118-119 | reading the text after the caption with `parseInt` gives back the allowance's weight, when the unit does not start with a digit |
| FlightResults.BaggageWithoutWeight | app/flights/results/page.tsx:118-119 | a missing allowance or weight shows "N/A" after the caption |
| FlightResults.FlightOf | app/flights/results/page.tsx:70-124 | one offer's flight: its token as id, the given uniqueId, the carrier's name, code and logo, the flight number as decimal text that `parseInt` reads back, departure, arrival, duration text, stop count, price and cabin class; four facilities: the checked and cabin baggage lines, then the two fixed ones |
| FlightResults.FlightsOf | app/flights/results/page.tsx:70-124 | a missing body or offer list gives `[]`, otherwise one flight per offer in order |
| FlightResults.StopsLabel | app/flights/results/page.tsx:263 | "Non-stop" for 0, "1 stop" for 1, "n stops" above |
| FlightResults.StopsCaption | app/flights/results/page.tsx:204 | any filter other than "0", "1" or "2" reads "all" |
| FlightResults.CaptionMatchesLabel | app/flights/results/page.tsx:204 | for the three numeric filters, the caption is the lower-cased stops label |
| FlightResults.AnyStopsCaption | app/flights/results/page.tsx:204 | the "none" filter and a missing one read "all" |
| FlightResults.FlightItem | app/flights/results/page.tsx:143-148 | an added flight is an item of type flight holding that flight |
| FlightResults.IsFlightInItinerary | app/flights/results/page.tsx:37-44 | some flight item of the itinerary has the same uniqueId |
| FlightResults.InItineraryIsDuplicate | app/flights/results/page.tsx:37-45 | `isFlightInItinerary` holds exactly when the store would refuse the item as a duplicate |
| FlightResults.FlightAddedToast | app/flights/results/page.tsx:152-156 | the notice names the airline and flight number |
| FlightResults.FlightResultsPage.constructor | app/flights/results/page.tsx:20-23 | the page starts empty, loading, without error, not yet searched |
| FlightResults.FlightResultsPage.Mount | app/flights/results/page.tsx:47-140 | a request is made exactly when not yet searched and the required parameters are present, and it is the defaulted request; missing parameters stop loading with the error |
| FlightResults.FlightResultsPage.Settle | app/flights/results/page.tsx:126-132 | an answer replaces the flights with the transform; a failure keeps them; loading ends and the page is marked searched |
| FlightResults.HandleAddToItinerary | app/flights/results/page.tsx:142-157 | the store gets `AddedTo` with the flight item, appended when the flight is not already in the itinerary; the store's "Already Added" notice comes back exactly when it was; the page's added notice is shown either way |
| HotelSearch.PriceOf | app/hotels/search/page.tsx:188-203 | a price field is the parsed integer, or 0 when it does not parse (NaN) or parses to 0 |
| HotelSearch.Edited | app/hotels/search/page.tsx:119-288 | each edit sets its one field; prices go through `PriceOf`, adults through `parseInt` |
| HotelSearch.EditIdempotent | app/hotels/search/page.tsx:119-288 | repeating an edit changes nothing more |
| HotelSearch.EditsCommute | app/hotels/search/page.tsx:119-288 | edits of two different fields give the same form in either order |
| HotelSearch.PriceEditNeverNaN | app/hotels/search/page.tsx:188-203 | a price edit stores a number, never NaN; text that does not parse stores a price that is not sent |
| HotelSearch.Complete | app/hotels/search/page.tsx:34 | the required fields are filled: a destination and both dates |
| HotelSearch.PositiveNumber | app/hotels/search/page.tsx:58-63 | a price entry is written exactly when the value is greater than 0 |
| HotelSearch.SearchOutcomeOf | app/hotels/search/page.tsx:33-75 | alerts exactly when the destination or a date is missing; otherwise navigates to `/hotels/results` with 11 to 17 keys |
| HotelSearch.QueryRequired | app/hotels/search/page.tsx:41-45 | dest_id (as decimal text), search_type and both dates are carried |
| HotelSearch.QueryNumbers | app/hotels/search/page.tsx:46-48 | adults, room_qty and page_number are written as text, "1" when absent |
| HotelSearch.QuerySelects | app/hotels/search/page.tsx:49-52 | units, temperature_unit, languagecode and currency_code are present with defaults |
| HotelSearch.QueryStrings | app/hotels/search/page.tsx:55-72 | children_age, sort_by, categories_filter and location are present exactly when non-empty |
| HotelSearch.QueryPrices | app/hotels/search/page.tsx:58-63 | price_min and price_max are present exactly when positive |
| HotelSearch.AppendPositive | app/hotels/search/page.tsx:58-63 | the conditional append adds the entry only for a positive value |
| HotelSearch.ExtrasInOrder | app/hotels/search/page.tsx:55-72 | the six conditional appends, in source order, give the extras list |
| HotelSearch.HotelSearchPage.constructor | app/hotels/search/page.tsx:15-31 | the initial form, no destination, not loading |
| HotelSearch.HotelSearchPage.SearchDisabled | app/hotels/search/page.tsx:306 | disabled while loading; otherwise exactly when pressing would alert; an enabled button means the form is complete |
| HotelSearch.HotelSearchPage.Edit | app/hotels/search/page.tsx:119-288 | the form becomes `Edited` of the old form |
| HotelSearch.HotelSearchPage.SelectDestination | app/hotels/search/page.tsx:105 | sets the destination only |
| HotelSearch.HotelSearchPage.HandleSearch | app/hotels/search/page.tsx:33-75 | the outcome is `SearchOutcomeOf` the state; loading starts exactly when it navigates |
| HotelResults.OptionalNumber | app/hotels/results/page.tsx:68-73 | a present, non-empty parameter is parsed, otherwise it is absent |
| HotelResults.HasRequired | app/hotels/results/page.tsx:57 | the search runs only when dest_id, search_type and both dates are all non-empty |
| HotelResults.ReportsMissing | app/hotels/results/page.tsx:115 | the error is reported when dest_id or a date is empty; search_type is not checked |
| HotelResults.ParseHotelParams | app/hotels/results/page.tsx:57-81 | parameters exist exactly when dest_id, search_type and both dates are non-empty; dest_id is parsed as an integer; each optional parameter is carried (numbers parsed) when non-empty, otherwise children_age, prices, sort_by and categories_filter are absent and adults, room_qty, page_number, units, temperature_unit, languagecode, currency_code and location default to 1, 1, 1, "metric", "c", "en-us", "USD" and "US" |
| HotelResults.PriceRoundTrip | app/hotels/results/page.tsx:72-73 | a non-negative price survives the trip through the query string |
| HotelResults.SearchRoundTrip | app/hotels/results/page.tsx:63-81 | with a non-empty search type and non-negative prices, the query parses back to the request built from the form |
| HotelResults.NegativePriceDropped | app/hotels/results/page.tsx:72-73 | a negative price is not sent, so the request carries 0 instead |
| HotelResults.SearchTypeGap | app/hotels/results/page.tsx:115-118 | a query lacking only search_type neither searches nor reports the error |
| HotelResults.EmptySearchTypeStalls | app/hotels/results/page.tsx:57 | a destination with an empty search type leads to that stall |
| HotelResults.HotelOf | app/hotels/results/page.tsx:86-103 | the address falls back to the name and the location to "Location"; rating, reviews and class default to 0; check-in and check-out are the query's dates; price, images, facilities and the accessibility label pass through |
| HotelResults.HotelsOf | app/hotels/results/page.tsx:85-103 | a missing body or hotel list gives `[]`, otherwise one hotel per hit in order |
| HotelResults.HotelsShareStay | app/hotels/results/page.tsx:97-100 | every listed hotel has the searched dates |
| HotelResults.RatingLabel | app/hotels/results/page.tsx:237-243 | "Superb" from 9, "Very good" from 8, "Good" from 7, "Pleasant" below |
| HotelResults.RatingLabelMonotone | app/hotels/results/page.tsx:237-243 | a higher rating never gets a lower label |
| HotelResults.StarCount | app/hotels/results/page.tsx:220 | the star count is the property class; there is none (the array constructor throws) for a negative class |
| HotelResults.HotelItem | app/hotels/results/page.tsx:122-127 | an added hotel is an item of type hotel holding it |
| HotelResults.IsHotelInItinerary | app/hotels/results/page.tsx:43-52 | some hotel item has the same id, or the same name, address and check-in |
| HotelResults.InItineraryIsDuplicate | app/hotels/results/page.tsx:43-54 | `isHotelInItinerary` agrees with the store's duplicate rule |
| HotelResults.HotelAddedToast | app/hotels/results/page.tsx:131-135 | the notice names the hotel |
| HotelResults.HotelResultsPage.constructor | app/hotels/results/page.tsx:20-23 | the page starts empty, loading, without error, not yet searched |
| HotelResults.HotelResultsPage.Mount | app/hotels/results/page.tsx:56-119 | as written: a request exactly when not yet searched and all four parameters are present; the error only when dest_id or a date is missing |
| HotelResults.HotelResultsPage.MountChecked | app/hotels/results/page.tsx:56-119 | corrected: any missing required parameter reports the error, so an unsearched page is never left loading |
| HotelResults.HotelResultsPage.Settle | app/hotels/results/page.tsx:105-111 | an answer replaces the hotels with the transform for the query's dates; a failure keeps them; loading ends |
| HotelResults.HandleAddToItinerary | app/hotels/results/page.tsx:121-136 | the store gets `AddedTo` with the hotel item, appended when the hotel is not already in the itinerary; the store's "Already Added" notice comes back exactly when it was; the page's added notice is shown |
| ActivitySearch.Edited | app/activities/search/page.tsx:92-156 | each edit sets its one field and leaves the page alone |
| ActivitySearch.EditIdempotent | app/activities/search/page.tsx:92-156 | repeating an edit changes nothing more |
| ActivitySearch.EditsCommute | app/activities/search/page.tsx:92-156 | edits of two different fields give the same form in either order |
| ActivitySearch.SearchOutcomeOf | app/activities/search/page.tsx:24-48 | alerts exactly when no location is chosen; otherwise navigates to `/activities/results` with 5 to 7 keys |
| ActivitySearch.QueryBase | app/activities/search/page.tsx:32-38 | id, sortBy, page, currency_code and languagecode are present with defaults |
| ActivitySearch.QueryDates | app/activities/search/page.tsx:40-45 | startDate and endDate are present exactly when set |
| ActivitySearch.ActivitySearchPage.constructor | app/activities/search/page.tsx:15-22 | the initial form, no location, not loading |
| ActivitySearch.ActivitySearchPage.SearchDisabled | app/activities/search/page.tsx:174 | disabled while loading; otherwise exactly when pressing would alert, that is when no location is chosen |
| ActivitySearch.ActivitySearchPage.Edit | app/activities/search/page.tsx:92-156 | the form becomes `Edited` of the old form |
| ActivitySearch.ActivitySearchPage.SelectLocation | app/activities/search/page.tsx:78 | sets the location only |
| ActivitySearch.ActivitySearchPage.HandleSearch | app/activities/search/page.tsx:24-48 | the outcome is `SearchOutcomeOf` the state; loading starts exactly when it navigates |
| ActivityResults.ParseAttractionParams | app/activities/results/page.tsx:45-59 | parameters exist exactly when id is non-empty, and carry it; each optional parameter is carried (page parsed) when non-empty, otherwise the dates are absent and sortBy, page, currency_code and languagecode default to "trending", 1, "USD" and "en-us" |
| ActivityResults.SearchRoundTrip | app/activities/results/page.tsx:51-59 | the query parses back to the request built from the form |
| ActivityResults.ActivityOf | app/activities/results/page.tsx:64-78 | rating and reviews default to 0, free cancellation to false; the image list is the one small photo |
| ActivityResults.ActivitiesOf | app/activities/results/page.tsx:63-78 | a missing body or product list gives `[]`, otherwise one activity per product in order |
| ActivityResults.DateRangeText | app/activities/results/page.tsx:138-140 | "start to end", "From start", "Until end", or nothing, by which dates are set |
| ActivityResults.DateRangeShown | app/activities/results/page.tsx:138-140 | the header has a date part exactly when some date is set |
| ActivityResults.ActivityItem | app/activities/results/page.tsx:97-102 | an added activity is an item of type activity holding it |
| ActivityResults.IsActivityInItinerary | app/activities/results/page.tsx:33-42 | some activity item has the same id, or the same name and location |
| ActivityResults.InItineraryIsDuplicate | app/activities/results/page.tsx:33-42 | `isActivityInItinerary` agrees with the store's duplicate rule |
| ActivityResults.ActivityAddedToast | app/activities/results/page.tsx:106-110 | the notice names the activity |
| ActivityResults.ActivityResultsPage.constructor | app/activities/results/page.tsx:20-23 | the page starts empty, loading, without error, not yet searched |
| ActivityResults.ActivityResultsPage.Mount | app/activities/results/page.tsx:44-94 | a request exactly when not yet searched and id is present; otherwise the missing-parameters error |
| ActivityResults.ActivityResultsPage.Settle | app/activities/results/page.tsx:80-86 | an answer replaces the activities; a failure keeps them; loading ends |
| ActivityResults.HandleAddToItinerary | app/activities/results/page.tsx:96-111 | the store gets `AddedTo` with the activity item, appended when the activity is not already in the itinerary; the store's "Already Added" notice comes back exactly when it was; the page's added notice is shown |
| FlightDestinationSearch.DestinationSearch.QueryEffect | components/DestinationSearch.tsx:84-97 | a query of 3 or more characters restarts the timer; a shorter one cancels it, clears the list and hides it |
| FlightDestinationSearch.DestinationSearch.constructor | components/DestinationSearch.tsx:17-27 | the box shows the given value's name, with nothing listed |
| FlightDestinationSearch.DestinationSearch.Search | components/DestinationSearch.tsx:29-52 | the service is called exactly when the query is long enough and differs from the selected name; a short query clears and hides; a call opens the list, which holds the answer, or keeps the old list on a failure |
| FlightDestinationSearch.DestinationSearch.InputChange | components/DestinationSearch.tsx:54-58 | as written: after a selection, the `value` effect at lines 23-27 puts the selected name back; otherwise the text becomes the query; the list hides and the selection flag clears |
| FlightDestinationSearch.DestinationSearch.InputChangeIntended | components/DestinationSearch.tsx:54-58 | corrected: the typed text always becomes the query |
| FlightDestinationSearch.DestinationSearch.KeyPress | components/DestinationSearch.tsx:60-65 | Enter searches at once, other keys do nothing |
| FlightDestinationSearch.DestinationSearch.Fire | components/DestinationSearch.tsx:84-97 | the timer elapses and searches with the value it closed over; with no call the list is kept and hidden; a cache hit lists the cached entries; a miss sends the query and lists the answer (`[]` when it is missing), or keeps the old list on a failure |
| FlightDestinationSearch.DestinationSearch.Select | components/DestinationSearch.tsx:67-72 | the entry is selected, its name fills the box, and the list hides |
| FlightDestinationSearch.DestinationSearch.Focus | components/DestinationSearch.tsx:74-78 | the list reopens exactly when nothing is selected and it is non-empty |
| FlightDestinationSearch.DestinationSearch.BlurElapsed | components/DestinationSearch.tsx:80-82 | the list hides |
| FlightDestinationSearch.SelectThenEdit | components/DestinationSearch.tsx:23-27 | as written, selecting "Paris" and typing "Pari" leaves "Paris" in the box |
| FlightDestinationSearch.SelectThenEditIntended | components/DestinationSearch.tsx:54-58 | corrected, the box shows "Pari" |
| HotelDestinationSearch.HotelDestinationSearch.QueryEffect | components/HotelDestinationSearch.tsx:60-71 | a long query restarts the 500 ms timer; a short one cancels it and clears and hides the list |
| HotelDestinationSearch.HotelDestinationSearch.constructor | components/HotelDestinationSearch.tsx:17-27 | the box shows the given value's name, with nothing listed |
| HotelDestinationSearch.HotelDestinationSearch.Search | components/HotelDestinationSearch.tsx:29-51 | the same gate as the flight dropdown; a call replaces the list with the answer, which is `[]` on a failure |
| HotelDestinationSearch.HotelDestinationSearch.InputChange | components/HotelDestinationSearch.tsx:53-58 | as written: after a selection, the `value` effect at lines 23-27 restores the selected name |
| HotelDestinationSearch.HotelDestinationSearch.InputChangeIntended | components/HotelDestinationSearch.tsx:53-58 | corrected: the typed text becomes the query |
| HotelDestinationSearch.HotelDestinationSearch.Fire | components/HotelDestinationSearch.tsx:60-71 | the timer elapses and searches with the value it closed over; with no call the list is kept and hidden; a cache hit lists the cached entries; a miss sends the query and lists the answer, which is `[]` on a failure |
| HotelDestinationSearch.HotelDestinationSearch.Select | components/HotelDestinationSearch.tsx:73-78 | the entry is selected, its name fills the box, and the list hides |
| HotelDestinationSearch.HotelDestinationSearch.Focus | components/HotelDestinationSearch.tsx:80-84 | the list reopens exactly when nothing is selected and it is non-empty |
| HotelDestinationSearch.HotelDestinationSearch.BlurElapsed | components/HotelDestinationSearch.tsx:86-88 | the list hides |
| HotelDestinationSearch.SelectThenEdit | components/HotelDestinationSearch.tsx:23-27 | as written, selecting "Goa" and typing "Goa " leaves "Goa" |
| HotelDestinationSearch.SelectThenEditIntended | components/HotelDestinationSearch.tsx:53-58 | corrected, the box shows "Goa " |
| AttractionLocationSearch.AttractionLocationSearch.SearchEffect | components/AttractionLocationSearch.tsx:30-68 | a timer is pending exactly when nothing is selected and the query is long and not the chosen name; a selection or a short query empties the list; the list stays open only while a timer is pending |
| AttractionLocationSearch.AttractionLocationSearch.constructor | components/AttractionLocationSearch.tsx:17-28 | the box shows the given value's name; nothing is listed or pending |
| AttractionLocationSearch.AttractionLocationSearch.InputChange | components/AttractionLocationSearch.tsx:70-73 | as written: after a selection the `value` effect at lines 24-28 restores the chosen name; the handler does not hide the list |
| AttractionLocationSearch.AttractionLocationSearch.InputChangeIntended | components/AttractionLocationSearch.tsx:70-73 | corrected: the typed text becomes the query |
| AttractionLocationSearch.AttractionLocationSearch.Fire | components/AttractionLocationSearch.tsx:47-61 | the list opens and holds the lookup's answer, which is empty on a failure |
| AttractionLocationSearch.AttractionLocationSearch.Select | components/AttractionLocationSearch.tsx:75-81 | the location is selected and its name fills the box; the list is emptied and hidden; nothing is pending |
| AttractionLocationSearch.AttractionLocationSearch.Focus | components/AttractionLocationSearch.tsx:83-87 | the list reopens exactly when nothing is selected and it is non-empty |
| AttractionLocationSearch.AttractionLocationSearch.BlurElapsed | components/AttractionLocationSearch.tsx:89-91 | the list hides |
| AttractionLocationSearch.AttractionLocationSearch.Shown | components/AttractionLocationSearch.tsx:107-127 | closed exactly when hidden; the locations when there are any; "No locations found" exactly when open, empty and the query has 3 or more characters |
| AttractionLocationSearch.NeverBlank | components/AttractionLocationSearch.tsx:107-127 | in every reachable state an open list shows something, and the not-found message never follows a selection |
| AttractionLocationSearch.SelectThenEdit | components/AttractionLocationSearch.tsx:24-28 | as written, selecting "Rome" and typing "Rom" leaves "Rome" |
| AttractionLocationSearch.SelectThenEditIntended | components/AttractionLocationSearch.tsx:70-73 | corrected, the box shows "Rom" |
| Utils.ReturnCapitalize | lib/utils.ts:8-13 | same length; the first character upper-cased, every other one lower-cased; "" stays "" |
| Utils.CapitalizeIdempotent | lib/utils.ts:8-13 | capitalising twice is capitalising once |
| Utils.TruncateSentence | lib/utils.ts:15-20 | a string within the limit is returned as is; a longer one keeps its first `limit` characters (none for a negative limit) and ends in "..." |
| Utils.TruncateIdempotent | lib/utils.ts:15-20 | truncating twice with the same limit is truncating once |
| Utils.CurrencySymbol | lib/utils.ts:22-32 | the five known codes map to their symbols; any other code is returned unchanged |
| Utils.SymbolChangesOnlyKnownCodes | lib/utils.ts:22-32 | the result differs from the code exactly when the code is one of the five |
| ImageCarousel.Previous | components/ImageCarousel.tsx:32 | stays in range; steps back by one, and from the first image wraps to the last |
| ImageCarousel.Next | components/ImageCarousel.tsx:38 | stays in range; steps forward by one, and from the last image wraps to the first; `Previous` undoes it |
| ImageCarousel.NextUndoesPrevious | components/ImageCarousel.tsx:32-38 | `Next` undoes `Previous` |
| ImageCarousel.ForwardNoWrap | components/ImageCarousel.tsx:38 | short of the end, n presses move n places |
| ImageCarousel.ForwardAdds | components/ImageCarousel.tsx:38 | a presses then b presses equal a + b presses |
| ImageCarousel.FullCircle | components/ImageCarousel.tsx:38 | pressing next once per image returns to the start |
| ImageCarousel.Source | components/ImageCarousel.tsx:50 | the image URL, or the placeholder for an empty URL or a missing index |
| ImageCarousel.Render | components/ImageCarousel.tsx:17-88 | no image exactly for a missing or empty list; a single image without controls exactly for one; otherwise the current image, its alt text, "i/n" and one dot per image |
| ImageCarousel.Carousel.constructor | components/ImageCarousel.tsx:15 | starts at the first image |
| ImageCarousel.Carousel.GoToPrevious | components/ImageCarousel.tsx:29-33 | the index becomes `Previous` of the old one and stays valid |
| ImageCarousel.Carousel.GoToNext | components/ImageCarousel.tsx:35-39 | the index becomes `Next` of the old one and stays valid |
| ImageCarousel.Carousel.GoToSlide | components/ImageCarousel.tsx:41-45 | the index becomes k |
| ImageCarousel.Carousel.Shown | components/ImageCarousel.tsx:47-53 | the render of the current state; a slide shows one of the images or the placeholder |
| HomePage.OfType | app/page.tsx:39-41 | the filtered list is no longer than the itinerary and holds only items of the type |
| HomePage.OfTypeAppend | app/page.tsx:39-41 | filtering distributes over concatenation, so order is kept |
| HomePage.PartitionComplete | app/page.tsx:39-41 | the three lists together hold every item exactly once |
| HomePage.FirstWhere | app/page.tsx:54-58 | the index of the first element that matches, or the length when none does |
| HomePage.SortedKeysAreKeys | app/page.tsx:43-52 | the sorted key list holds exactly the map's keys, strictly longest first |
| HomePage.FacilityIconOf | app/page.tsx:50-61 | no icon exactly when no key occurs in the lower-cased text; otherwise the icon of a key that occurs while no key before it in the longest-first order does |
| HomePage.GetFacilityIcon | app/page.tsx:50-61 | the loop returns `FacilityIconOf` the facility |
| HomePage.FirstIsHere | app/page.tsx:54-58 | the first key found is the first in sorted order that occurs |
| HomePage.CabinBeatsBaggage | app/page.tsx:50-58 | a "Cabin Baggage" line also contains "baggage", yet picks the cabin icon |
| HomePage.MentionsTaxes | app/page.tsx:68-73 | a line counts when its lower-cased form contains "taxes and charges", "taxes" or "charges" |
| HomePage.MentionsTaxesSimplified | app/page.tsx:68-73 | the three-way test is "contains taxes or charges" |
| HomePage.ExtractTaxesLine | app/page.tsx:63-76 | a result is one of the newline-separated lines and mentions taxes; there is none exactly when no line does |
| HomePage.TaxesLineOfLines | app/page.tsx:63-76 | the first matching line wins |
| HomePage.UpperFirst | app/page.tsx:84 | only the first character changes, to its upper case (a line terminator is not matched by `.`) |
| HomePage.WhatsIncluded | app/page.tsx:78-85 | "" for an empty slug |
| HomePage.WhatsIncludedIsReplace | app/page.tsx:78-85 | a slug without '-' gives ""; otherwise the text after the first '-' with '-' turned into spaces, first letter upper-cased |
| HomePage.RemoveLabel | app/page.tsx:87-101 | the dialog names the item as the notices do, and its type as "Flight", "Hotel" or "Activity" |
| HomePage.RemoveModal.constructor | app/page.tsx:27-37 | the dialog starts closed and empty |
| HomePage.RemoveModal.RemoveClick | app/page.tsx:87-109 | opens the dialog for the item's id, with its label |
| HomePage.RemoveModal.ConfirmRemove | app/page.tsx:111-119 | the store drops the dialog's id; the dialog closes and empties |
| HomePage.RemoveModal.CloseModal | app/page.tsx:121-128 | the dialog closes and empties without touching the store |
| JsNumber.ParseIntOfToString | app/flights/results/page.tsx:60-61 | parsing the decimal text of an integer gives it back |
| JsNumber.ParseInt | app/flights/search/page.tsx:144 | `Number.parseInt` in base 10: leading whitespace, one optional sign, then the longest run of digits; NaN when there are none |
| JsNumber.ParseIntOfIntTextThen | app/flights/results/page.tsx:81 | the decimal text of an integer, followed by text that does not start with a digit, parses back to that integer |
| JsNumber.NumberTextRoundTrip | app/flights/search/page.tsx:40-44 | a number written with default "1" and read with default 1 arrives with the same value |
| JsString.JoinSplitIsReplace | app/page.tsx:81-83 | splitting on a character and joining with another replaces the one by the other |
| UrlParams.Get | app/flights/results/page.tsx:25-35 | `searchParams.get`: the value of the first pair with the name, or none |
| UrlParams.GetAt | app/flights/results/page.tsx:25-35 | the value read is that of the first pair carrying the name |
| UrlParams.GetAbsent | app/flights/results/page.tsx:25-35 | a name no pair carries reads as absent |
| UrlParams.SearchParams.Append | app/flights/search/page.tsx:49-52 | `append` adds the pair at the end and keeps the earlier ones |

## Left out

- Rendering, styling, icons and the presentational components are not modelled. The `cn` helper is not modelled either: it is a wrapper over a CSS class library.
- HTTP transport (the axios client) is left out. A provider call is an answer or a rejection passed in as a parameter. Percent-encoding of the query string and its decoding are taken as inverse, so the query is an ordered list of key/value pairs.
- `JSON.parse`, `JSON.stringify` and `localStorage` are left out. Storage is an abstract cell that holds the serialised list, unparsable text or the empty string.
- Real timers are left out: the 300/500/1000 ms debounces, the 200 ms blur delay and timer teardown. Asynchronous interleaving is left out too. A timer firing is an explicit event, and a lookup runs from start to answer inside that event.
- `isLoading` in the three dropdowns is not kept. The synchronous model has it false between events. So the "Searching…" text, and the hotel dropdown's short query not clearing `isLoading`, are not represented.
- `Date.now`, `new Date().toISOString()` and `crypto.randomUUID` are left out. Item ids, dates and flight unique ids are parameters.
- Floating-point prices (`units + nanos / 1e9`) and `toLocaleString` are left out, and so is `Date` formatting of departure and arrival times. Prices, times and airports are opaque fields.
- Case mapping covers ASCII letters only. `toLowerCase` and `toUpperCase` leave other characters as they are.
- `parseInt` is modelled in base 10: leading whitespace and one sign are skipped, then the longest run of digits is read, and no digits give `NaN`. The "0x" prefix, which `parseInt` reads as hexadecimal, is not modelled, and neither is the sign of a negative zero.
- JsNumber.ParseInt: integers are exact and unbounded. JavaScript numbers are doubles, so `parseInt` of a digit run above 2^53 (9007199254740992) gives the nearest double, not the digits' exact value. The model agrees with JavaScript only below 2^53 in magnitude.
- JsNumber.ToString: integers are always written in plain decimal. `Number.prototype.toString` switches to exponent form from 1e21 up ("1e+21"), which the model does not produce.
- JsNumber.ParseIntOfToString: matches JavaScript only for integers below 2^53 in magnitude. From 1e21 up, the text is in exponent form and `parseInt` reads only its leading digits, so "1e+21" reads as 1.
- JsNumber.ParseIntOfIntTextThen: matches JavaScript only for integers below 2^53 in magnitude, for the same reason.
- JsNumber.NumberTextRoundTrip: matches JavaScript only for counts below 2^53. A count of 1e21 would be written "1e+21" and read back as 1.
- FlightResults.SearchRoundTrip: rests on the read-back lemmas above, so in JavaScript it holds for adults and pageNo below 2^53.
- HotelResults.SearchRoundTrip: in JavaScript it holds for dest_id, adults, room_qty, page_number and prices below 2^53.
- HotelResults.PriceRoundTrip: in JavaScript it holds for prices below 2^53.
- ActivityResults.SearchRoundTrip: in JavaScript it holds for page numbers below 2^53.
- Utils.CurrencySymbol: keys inherited from `Object.prototype` (such as "constructor") are not modelled, because the map is a plain object. The model returns such a code unchanged.
- ImageCarousel.Carousel: a change of the `images` prop while mounted is not modelled. The image list is fixed per instance.
- React strict mode running each effect twice in development is not modelled.
- Provider response fields other than those the transforms read are not modelled.
- `searchFlights`, `searchHotels` and `searchActivities` rethrowing transport errors is represented only by the results pages' `Settle` with a rejection: the list is kept and loading ends.
- Malformed provider bodies are not modelled field by field. The transforms read nested fields without checks: on flights `offer.segments[0]`, `legs[0].carriersData[0]`, `flightInfo`, `priceBreakdown.total` and `travellerCheckedLuggage[0]` (app/flights/results/page.tsx:72-73, 81, 113, 118); on hotels `hotel.property` and its `priceBreakdown` (app/hotels/results/page.tsx:86-92); on activities `representativePrice` and `ufiDetails` (app/activities/results/page.tsx:68-75). A missing one throws, and the catch keeps the old list and ends loading. The model makes these fields mandatory, and such a body behaves as a rejection, represented by `Settle` with `Rejected`.
- String lengths are counted in Unicode scalar values. JavaScript's `.length`, `substring`, `charAt` and `slice` count UTF-16 code units, so a character outside the Basic Multilingual Plane counts once here and twice in the source. This affects Utils.TruncateSentence (lib/utils.ts:16-17), Utils.ReturnCapitalize, HomePage.UpperFirst and the three-character minimum of the lookup dropdowns.
- HotelResults.StarCount: a negative `propertyClass` makes the source throw while rendering. The model returns `None` instead of modelling the exception.

## Source differences

- On a failed lookup, the hotel dropdown replaces its list with `[]`. It does not keep the old list. `hotelService.searchDestinations` catches the error and returns `[]`, so the component's own catch branch never runs.
- The activity dropdown's catch branch cannot be reached, for the same reason. Its list is `[]` after a failed lookup.
- A debounced search in the flight and hotel dropdowns uses the `value` of the render that scheduled it. The model records that value in the pending timer.

## Findings

| source | as written | input that shows it | evidently intended | confidence | as-written member | corrected member |
|---|---|---|---|---|---|---|
| app/hotels/results/page.tsx:115 | the search needs dest_id, search_type and both dates (line 57), but the error branch checks only dest_id and the dates | a query without search_type, such as dest_id=1&arrival_date=2025-01-01&departure_date=2025-01-02, or a destination whose search type is empty: no search and no error, so the spinner never stops | the error branch reports any missing required parameter | not executed | HotelResults.SearchTypeGap | HotelResults.HotelResultsPage.MountChecked |
| components/DestinationSearch.tsx:27 | the `value` effect depends on `[value, hasSelected]`, so the first keystroke after a selection clears `hasSelected`, and the effect writes the selected name back over the typed text | select "Paris", then type "Pari": the box shows "Paris" | the effect depends on `[value]` alone, so it runs only when the parent's value changes | not executed | FlightDestinationSearch.SelectThenEdit | FlightDestinationSearch.SelectThenEditIntended |
| components/HotelDestinationSearch.tsx:27 | the same `[value, hasSelected]` dependency restores the selected name on the first edit | select "Goa", then type "Goa ": the box shows "Goa" | the effect depends on `[value]` alone | not executed | HotelDestinationSearch.SelectThenEdit | HotelDestinationSearch.SelectThenEditIntended |
| components/AttractionLocationSearch.tsx:28 | the same `[value, hasSelected]` dependency restores the chosen name on the first edit | select "Rome", then type "Rom": the box shows "Rome" | the effect depends on `[value]` alone | not executed | AttractionLocationSearch.SelectThenEdit | AttractionLocationSearch.SelectThenEditIntended |
