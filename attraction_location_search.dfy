/** `AttractionLocationSearch`: the activity location dropdown. Unlike the
    two destination dropdowns, its single search effect depends on the
    query, `hasSelected` and `value` together, decides at once whether a
    lookup is due, and only then starts the 1000 ms timer; a selection
    suppresses any lookup and empties the list.

    The model is synchronous: a handler, then the effects whose
    dependencies changed (`value` effect first, then the search effect),
    repeated while an effect changes state. The timer is the flag
    `pending`; its callback uses only the query, which cannot have changed
    while it is pending, and firing it is the event `Fire`. A lookup runs
    from start to answer inside one event, so `isLoading` is false between
    events and is not kept. */
module AttractionLocationSearch {
  import opened Wrappers
  import opened Types
  import opened LocationLookup
  import ActivityService

  /** Shortest query that is looked up. */
  const MinQuery: nat := 3

  /** Whether the search effect schedules a lookup for `query` when nothing
      is selected: a long query that is not the chosen location's name. */
  predicate WouldSearch(query: string, value: Option<AttractionLocation>)
  {
    |query| >= MinQuery && !(value.Some? && query == value.value.name)
  }

  /** What the open dropdown shows between events. */
  datatype Panel = Closed | Choices(locations: seq<AttractionLocation>) | NoneFound | Blank

  class AttractionLocationSearch {
    var query: string
    var locations: seq<AttractionLocation>
    var showResults: bool
    var hasSelected: bool
    var value: Option<AttractionLocation>
    var pending: bool
    /** The module-level cache and controller of `activityService`. */
    const lookup: LookupCache<AttractionLocation>

    /** A timer is pending only when a lookup is due; a short query and a
        selection both leave no results, no open list and no timer. */
    ghost predicate Valid()
      reads this, lookup
    {
      lookup.Valid() &&
      (pending ==> !hasSelected && WouldSearch(query, value)) &&
      (|query| < MinQuery ==> locations == [] && !showResults && !pending) &&
      (hasSelected ==> value.Some? && query == value.value.name && locations == [] && !showResults && !pending)
    }

    /** The search effect: the old timer is cleared; a selection or a short
        query empties and hides the list; the chosen name hides it; any
        other query starts the timer. */
    method SearchEffect()
      modifies this
      ensures pending == (!hasSelected && WouldSearch(query, value))
      ensures locations == if hasSelected || |query| < MinQuery then [] else old(locations)
      ensures showResults == (old(showResults) && pending)
      ensures query == old(query) && hasSelected == old(hasSelected) && value == old(value)
    {
      pending := false;
      if hasSelected || |query| < MinQuery {
        locations := [];
        showResults := false;
      } else if value.Some? && query == value.value.name {
        showResults := false;
      } else {
        pending := true;
      }
    }

    /** Mounting: the `value` effect copies a given value's name into the
        box, and the search effect, run for that text, schedules nothing. */
    constructor(value: Option<AttractionLocation>, lookup: LookupCache<AttractionLocation>)
      requires lookup.Valid()
      ensures Valid()
      ensures this.value == value && this.lookup == lookup && !hasSelected
      ensures query == if value.Some? then value.value.name else ""
      ensures locations == [] && !showResults && !pending
    {
      this.value := value;
      this.lookup := lookup;
      query := if value.Some? then value.value.name else "";
      locations := [];
      showResults := false;
      hasSelected := false;
      pending := false;
    }

    /** `handleInputChange` as written, with the effects it sets off. The
        text replaces the query; the list is not hidden by the handler
        itself. When a location had been selected, clearing `hasSelected`
        re-runs the `value` effect, which puts its name back into the box. */
    method InputChange(text: string)
      requires Valid()
      modifies this
      ensures Valid()
      ensures query == if old(hasSelected) then old(query) else text
      ensures !hasSelected && value == old(value)
      ensures locations == if |text| < MinQuery then [] else old(locations)
      ensures text != old(query) || old(hasSelected) ==>
        pending == WouldSearch(query, value) && showResults == (old(showResults) && pending)
      ensures text == old(query) && !old(hasSelected) ==>
        pending == old(pending) && showResults == old(showResults)
    {
      var before := query;
      var revert := hasSelected;
      query := text;
      hasSelected := false;
      if text != before || revert {
        SearchEffect();
      }
      if revert && value.value.name != text {
        query := value.value.name;
        SearchEffect();
      }
    }

    /** `handleInputChange` with the `value` effect depending on `value`
        alone: the typed text stays in the box. */
    method InputChangeIntended(text: string)
      requires Valid()
      modifies this
      ensures Valid()
      ensures query == text
      ensures !hasSelected && value == old(value)
      ensures locations == if |text| < MinQuery then [] else old(locations)
      ensures text != old(query) || old(hasSelected) ==>
        pending == WouldSearch(text, value) && showResults == (old(showResults) && pending)
      ensures text == old(query) && !old(hasSelected) ==>
        pending == old(pending) && showResults == old(showResults)
    {
      var before := query;
      var wasSelected := hasSelected;
      query := text;
      hasSelected := false;
      if text != before || wasSelected {
        SearchEffect();
      }
    }

    /** The timer elapsing: the list opens and is replaced by the lookup's
        answer, which is empty on a provider error. */
    method Fire(response: Response<ActivityService.LocationBody>)
      requires Valid() && pending
      modifies this, lookup
      ensures Valid() && !pending && showResults
      ensures query == old(query) && hasSelected == old(hasSelected) && value == old(value)
      ensures CacheKey(query) in old(lookup.cache) ==>
        locations == old(lookup.cache)[CacheKey(query)] && unchanged(lookup)
      ensures CacheKey(query) !in old(lookup.cache) ==>
        lookup.requests == old(lookup.requests) + [query] &&
        locations == match response
          case Answered(data) => ActivityService.LocationsOf(data)
          case Rejected(_) => []
    {
      pending := false;
      showResults := true;
      locations := ActivityService.SearchLocations(lookup, query, response);
    }

    /** `handleSelect`: the location becomes the parent's value and its name
        fills the box; the search effect then empties the list and leaves
        nothing scheduled. */
    method Select(loc: AttractionLocation)
      requires Valid()
      modifies this
      ensures Valid()
      ensures hasSelected && query == loc.name && value == Some(loc)
      ensures locations == [] && !showResults && !pending
    {
      var changed := !hasSelected || query != loc.name || value != Some(loc);
      hasSelected := true;
      query := loc.name;
      showResults := false;
      value := Some(loc);
      if changed {
        SearchEffect();
      }
    }

    /** `handleFocus`: the list reopens only when nothing is selected and
        there are results to show. */
    method Focus()
      requires Valid()
      modifies this
      ensures Valid()
      ensures showResults == (old(showResults) || (!hasSelected && |locations| > 0))
      ensures query == old(query) && locations == old(locations) && hasSelected == old(hasSelected)
      ensures value == old(value) && pending == old(pending)
    {
      if !hasSelected && |locations| > 0 {
        showResults := true;
      }
    }

    /** The 200 ms timer started by `handleBlur` elapsing: the list hides. */
    method BlurElapsed()
      requires Valid()
      modifies this
      ensures Valid()
      ensures !showResults
      ensures query == old(query) && locations == old(locations) && hasSelected == old(hasSelected)
      ensures value == old(value) && pending == old(pending)
    {
      showResults := false;
    }

    /** What the dropdown shows: nothing when closed, the locations when
        there are any, the "No locations found" message for a long query,
        and an empty box otherwise. */
    function Shown(): (p: Panel)
      reads this
      ensures p == Closed <==> !showResults
      ensures p.Choices? ==> p.locations == locations && |locations| > 0
      ensures p == NoneFound <==> showResults && locations == [] && |query| >= MinQuery
    {
      if !showResults then Closed
      else if |locations| > 0 then Choices(locations)
      else if |query| >= MinQuery then NoneFound
      else Blank
    }
  }

  /** In every reachable state an open dropdown has something to say: the
      empty box is never shown. */
  lemma NeverBlank(box: AttractionLocationSearch)
    requires box.Valid()
    ensures box.Shown() != Blank
    ensures box.Shown() == NoneFound ==> !box.hasSelected
  {
  }

  /** Picking "Rome" and then deleting its last letter: as written, the box
      shows "Rome" again. */
  method SelectThenEdit() returns (shown: string)
    ensures shown == "Rome"
  {
    var lookup := new LookupCache<AttractionLocation>();
    var box := new AttractionLocationSearch(None, lookup);
    box.Select(AttractionLocation("eyJ1ZmkiOi0xMjYzOTN9", "Rome", "Italy", Some("Lazio")));
    box.InputChange("Rom");
    shown := box.query;
  }

  /** The same two events with the corrected effect: the box shows the
      edited text. */
  method SelectThenEditIntended() returns (shown: string)
    ensures shown == "Rom"
  {
    var lookup := new LookupCache<AttractionLocation>();
    var box := new AttractionLocationSearch(None, lookup);
    box.Select(AttractionLocation("eyJ1ZmkiOi0xMjYzOTN9", "Rome", "Italy", Some("Lazio")));
    box.InputChangeIntended("Rom");
    shown := box.query;
  }
}
