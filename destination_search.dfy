/** `DestinationSearch`: the flight airport/city dropdown. Its state is the
    text in the box, the last result list, whether the list is shown, and
    whether the text came from picking an entry. The parent's `value` prop
    is held here too: the parent sets it from `onSelect`.

    The model is synchronous. An event handler runs, then the effects whose
    dependencies changed run in declaration order (the `value` effect first,
    then the `query` effect), and a state update made by an effect is
    followed by another such round. The 300 ms debounce timer is the field
    `timer`. It remembers the `value` its callback closed over, and firing
    it is the event `Fire`. A lookup runs from start to answer inside one
    event, so `isLoading` is false between events and is not kept. */
module FlightDestinationSearch {
  import opened Wrappers
  import opened Types
  import opened LocationLookup
  import FlightService

  /** Shortest query that is looked up. */
  const MinQuery: nat := 3

  /** The debounce timer: none pending, or one whose `handleSearch` sees the
      `value` of the render that scheduled it. */
  datatype Debounce = Idle | Scheduled(seen: Option<FlightDestination>)

  class DestinationSearch {
    var query: string
    var destinations: seq<FlightDestination>
    var showResults: bool
    var hasSelected: bool
    var value: Option<FlightDestination>
    var timer: Debounce
    /** The module-level cache and controller of `flightService`. */
    const lookup: LookupCache<FlightDestination>

    /** A short query has no results, no open list and no timer; a timer is
        only pending for a long query; a selection shows its name. */
    ghost predicate Valid()
      reads this, lookup
    {
      lookup.Valid() &&
      (timer.Scheduled? ==> |query| >= MinQuery) &&
      (|query| < MinQuery ==> destinations == [] && !showResults && timer == Idle) &&
      (hasSelected ==> value.Some? && query == value.value.name)
    }

    /** The `[query]` effect: a long query (re)starts the timer, a short one
        cancels it and clears and hides the list. */
    method QueryEffect()
      modifies this
      ensures |query| >= MinQuery ==>
        timer == Scheduled(value) && destinations == old(destinations) && showResults == old(showResults)
      ensures |query| < MinQuery ==> timer == Idle && destinations == [] && !showResults
      ensures query == old(query) && hasSelected == old(hasSelected) && value == old(value)
    {
      if |query| >= MinQuery {
        timer := Scheduled(value);
      } else {
        destinations := [];
        showResults := false;
        timer := Idle;
      }
    }

    /** Mounting: the `value` effect copies a given value's name into the
        box, and the `query` effect then runs for that text. */
    constructor(value: Option<FlightDestination>, lookup: LookupCache<FlightDestination>)
      requires lookup.Valid()
      ensures Valid()
      ensures this.value == value && this.lookup == lookup && !hasSelected
      ensures query == if value.Some? then value.value.name else ""
      ensures destinations == [] && !showResults
      ensures timer == if |query| >= MinQuery then Scheduled(value) else Idle
    {
      this.value := value;
      this.lookup := lookup;
      query := if value.Some? then value.value.name else "";
      destinations := [];
      showResults := false;
      hasSelected := false;
      timer := if value.Some? && |value.value.name| >= MinQuery then Scheduled(value) else Idle;
    }

    /** `handleSearch` as seen by a handler that closed over `seen` as its
        `value`. A short query clears and hides the list; the selected name
        hides it; any other query opens the list and asks the lookup, whose
        answer replaces the list and whose failure keeps the old one.
        `called` tells whether the lookup was asked. */
    method Search(seen: Option<FlightDestination>, response: Response<seq<FlightDestination>>)
      returns (called: bool)
      requires Valid()
      modifies this, lookup
      ensures Valid()
      ensures called <==> |query| >= MinQuery && !(seen.Some? && query == seen.value.name)
      ensures query == old(query) && hasSelected == old(hasSelected) && value == old(value) && timer == old(timer)
      ensures !called ==> unchanged(lookup) && !showResults
      ensures !called ==> destinations == if |query| < MinQuery then [] else old(destinations)
      ensures called ==> showResults && lookup.Valid()
      ensures called && CacheKey(query) in old(lookup.cache) ==>
        destinations == old(lookup.cache)[CacheKey(query)] && unchanged(lookup)
      ensures called && CacheKey(query) !in old(lookup.cache) ==>
        lookup.requests == old(lookup.requests) + [query] &&
        destinations == match response
          case Answered(data) => data.GetOr([])
          case Rejected(_) => old(destinations)
    {
      if |query| < MinQuery {
        destinations := [];
        showResults := false;
        return false;
      }
      if seen.Some? && query == seen.value.name {
        showResults := false;
        return false;
      }
      showResults := true;
      var r := FlightService.SearchDestinations(lookup, query, response);
      if r.Success? {
        destinations := r.value;
      }
      called := true;
    }

    /** `handleInputChange` as written, with the effects it sets off. The
        text replaces the query and the list hides. When an entry had been
        selected, clearing `hasSelected` re-runs the `value` effect, which
        puts the selected name back into the box. */
    method InputChange(text: string)
      requires Valid()
      modifies this
      ensures Valid()
      ensures query == if old(hasSelected) then old(query) else text
      ensures !hasSelected && !showResults && value == old(value)
      ensures text != old(query) ==>
        timer == (if |query| >= MinQuery then Scheduled(value) else Idle) &&
        destinations == (if |text| < MinQuery || |query| < MinQuery then [] else old(destinations))
      ensures text == old(query) ==> timer == old(timer) && destinations == old(destinations)
    {
      var before := query;
      var revert := hasSelected;
      query := text;
      hasSelected := false;
      showResults := false;
      if text != before {
        QueryEffect();
      }
      if revert && value.value.name != text {
        query := value.value.name;
        QueryEffect();
      }
    }

    /** `handleInputChange` with the `value` effect depending on `value`
        alone: the typed text stays in the box. */
    method InputChangeIntended(text: string)
      requires Valid()
      modifies this
      ensures Valid()
      ensures query == text
      ensures !hasSelected && !showResults && value == old(value)
      ensures text != old(query) ==>
        timer == (if |text| >= MinQuery then Scheduled(value) else Idle) &&
        destinations == (if |text| < MinQuery then [] else old(destinations))
      ensures text == old(query) ==> timer == old(timer) && destinations == old(destinations)
    {
      var before := query;
      query := text;
      hasSelected := false;
      showResults := false;
      if text != before {
        QueryEffect();
      }
    }

    /** `handleKeyPress`: Enter searches at once, with the current value;
        any other key does nothing. */
    method KeyPress(key: string, response: Response<seq<FlightDestination>>) returns (called: bool)
      requires Valid()
      modifies this, lookup
      ensures Valid()
      ensures called ==> key == "Enter"
      ensures key == "Enter" ==> (called <==> |query| >= MinQuery && !(value.Some? && query == value.value.name))
      ensures key != "Enter" ==> unchanged(this) && unchanged(lookup)
      ensures query == old(query) && hasSelected == old(hasSelected) && value == old(value) && timer == old(timer)
    {
      called := false;
      if key == "Enter" {
        called := Search(value, response);
      }
    }

    /** The debounce timer elapsing: it is no longer pending, and the search
        runs with the value it closed over. */
    method Fire(response: Response<seq<FlightDestination>>) returns (called: bool)
      requires Valid() && timer.Scheduled?
      modifies this, lookup
      ensures Valid() && timer == Idle
      ensures called <==> !(old(timer).seen.Some? && query == old(timer).seen.value.name)
      ensures query == old(query) && hasSelected == old(hasSelected) && value == old(value)
      ensures !called ==> unchanged(lookup) && !showResults && destinations == old(destinations)
      ensures called ==> showResults
      ensures called && CacheKey(query) in old(lookup.cache) ==>
        destinations == old(lookup.cache)[CacheKey(query)] && unchanged(lookup)
      ensures called && CacheKey(query) !in old(lookup.cache) ==>
        lookup.requests == old(lookup.requests) + [query] &&
        destinations == match response
          case Answered(data) => data.GetOr([])
          case Rejected(_) => old(destinations)
    {
      var seen := timer.seen;
      timer := Idle;
      called := Search(seen, response);
    }

    /** `handleSelect`: the entry becomes the parent's value and its name
        fills the box; the list hides. A changed name re-runs the `query`
        effect. */
    method Select(d: FlightDestination)
      requires Valid()
      modifies this
      ensures Valid()
      ensures hasSelected && query == d.name && value == Some(d) && !showResults
      ensures d.name != old(query) ==>
        timer == (if |d.name| >= MinQuery then Scheduled(Some(d)) else Idle) &&
        destinations == (if |d.name| < MinQuery then [] else old(destinations))
      ensures d.name == old(query) ==> timer == old(timer) && destinations == old(destinations)
    {
      var before := query;
      hasSelected := true;
      query := d.name;
      showResults := false;
      value := Some(d);
      if d.name != before {
        QueryEffect();
      }
    }

    /** `handleFocus`: the list reopens only when nothing is selected and
        there are results to show. */
    method Focus()
      requires Valid()
      modifies this
      ensures Valid()
      ensures showResults == (old(showResults) || (!hasSelected && |destinations| > 0))
      ensures query == old(query) && destinations == old(destinations) && hasSelected == old(hasSelected)
      ensures value == old(value) && timer == old(timer)
    {
      if !hasSelected && |destinations| > 0 {
        showResults := true;
      }
    }

    /** The 200 ms timer started by `handleBlur` elapsing: the list hides. */
    method BlurElapsed()
      requires Valid()
      modifies this
      ensures Valid()
      ensures !showResults
      ensures query == old(query) && destinations == old(destinations) && hasSelected == old(hasSelected)
      ensures value == old(value) && timer == old(timer)
    {
      showResults := false;
    }
  }

  /** Picking "Paris" and then deleting its last letter: as written, the box
      shows "Paris" again. */
  method SelectThenEdit() returns (shown: string)
    ensures shown == "Paris"
  {
    var lookup := new LookupCache<FlightDestination>();
    var box := new DestinationSearch(None, lookup);
    box.Select(FlightDestination("PAR.CITY", "Paris", "PAR", "France", "Paris"));
    box.InputChange("Pari");
    shown := box.query;
  }

  /** The same two events with the corrected effect: the box shows the
      edited text. */
  method SelectThenEditIntended() returns (shown: string)
    ensures shown == "Pari"
  {
    var lookup := new LookupCache<FlightDestination>();
    var box := new DestinationSearch(None, lookup);
    box.Select(FlightDestination("PAR.CITY", "Paris", "PAR", "France", "Paris"));
    box.InputChangeIntended("Pari");
    shown := box.query;
  }
}
