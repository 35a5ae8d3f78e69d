/** The itinerary overview page: the list split by kind, the helpers that
    pick a facility icon, find the taxes line of a hotel's price label and
    turn an activity slug into a sentence, and the confirmation dialog for
    removing an item. */
module HomePage {
  import opened Wrappers
  import opened Types
  import JsString
  import Itinerary

  // --------------------------------------------------------- partition

  /** `itinerary.filter(item => item.type === t)` */
  function OfType(items: seq<ItineraryItem>, t: ItemType): (r: seq<ItineraryItem>)
    ensures |r| <= |items|
    ensures forall i | 0 <= i < |r| :: r[i].Type() == t
  {
    if items == [] then []
    else
      var rest := OfType(items[1..], t);
      if items[0].Type() == t then [items[0]] + rest else rest
  }

  /** Filtering keeps the order: the items of `a` come before those of `b`. */
  lemma {:induction false} OfTypeAppend(a: seq<ItineraryItem>, b: seq<ItineraryItem>, t: ItemType)
    ensures OfType(a + b, t) == OfType(a, t) + OfType(b, t)
  {
    if a != [] {
      assert (a + b)[1..] == a[1..] + b;
      OfTypeAppend(a[1..], b, t);
    } else {
      assert a + b == b;
    }
  }

  /** Filtering a list with a first item: that item, when it has the kind,
      then the filtered rest. */
  lemma OfTypeCons(x: ItineraryItem, rest: seq<ItineraryItem>, t: ItemType)
    ensures x.Type() == t ==> multiset(OfType([x] + rest, t)) == multiset{x} + multiset(OfType(rest, t))
    ensures x.Type() != t ==> OfType([x] + rest, t) == OfType(rest, t)
  {
    assert ([x] + rest)[1..] == rest;
  }

  /** The three lists hold every item exactly once between them. */
  lemma {:induction false} PartitionComplete(items: seq<ItineraryItem>)
    ensures multiset(OfType(items, FlightType)) + multiset(OfType(items, HotelType))
      + multiset(OfType(items, ActivityType)) == multiset(items)
  {
    if items != [] {
      var x, rest := items[0], items[1..];
      PartitionComplete(rest);
      assert items == [x] + rest;
      OfTypeCons(x, rest, FlightType);
      OfTypeCons(x, rest, HotelType);
      OfTypeCons(x, rest, ActivityType);
      AddOne(x, multiset(OfType(rest, FlightType)), multiset(OfType(rest, HotelType)),
        multiset(OfType(rest, ActivityType)), multiset(rest));
    }
  }

  lemma AddOne(x: ItineraryItem, f: multiset<ItineraryItem>, h: multiset<ItineraryItem>,
               a: multiset<ItineraryItem>, all: multiset<ItineraryItem>)
    requires f + h + a == all
    ensures (multiset{x} + f) + h + a == multiset{x} + all
    ensures f + (multiset{x} + h) + a == multiset{x} + all
    ensures f + h + (multiset{x} + a) == multiset{x} + all
  {
  }

  // -------------------------------------------------- first match helper

  /** The position of the first element satisfying `p`, or `|s|` when none
      does: what `find` and a `for … of` loop with an early return visit. */
  function FirstWhere<T>(s: seq<T>, p: T -> bool): (i: nat)
    ensures i <= |s|
    ensures forall j | 0 <= j < i :: !p(s[j])
    ensures i < |s| ==> p(s[i])
  {
    if s == [] then 0
    else if p(s[0]) then 0
    else 1 + FirstWhere(s[1..], p)
  }

  // ------------------------------------------------------ facility icon

  datatype FacilityIcon = CabinIcon | BaggageIcon | InFlightIcon | FoodIcon

  /** `iconMap` */
  const IconMap: map<string, FacilityIcon> := map[
    "cabin baggage" := CabinIcon,
    "baggage" := BaggageIcon,
    "in flight entertainment" := InFlightIcon,
    "in flight meal" := FoodIcon]

  /** The map's keys, longest first, as the stable sort by decreasing length
      leaves them. */
  const SortedKeys: seq<string> := ["in flight entertainment", "in flight meal", "cabin baggage", "baggage"]

  /** The sorted keys are exactly the map's keys, each once, longest first. */
  lemma SortedKeysAreKeys()
    ensures forall k :: k in SortedKeys <==> k in IconMap
    ensures forall i, j | 0 <= i < j < |SortedKeys| :: |SortedKeys[i]| > |SortedKeys[j]|
  {
  }

  /** Which icon a facility text gets: that of the first sorted key found in
      its lower-cased text, if any. */
  function FacilityIconOf(facility: string): (r: Option<FacilityIcon>)
    ensures r.None? <==> forall k | k in SortedKeys :: !JsString.Contains(JsString.ToLower(facility), k)
    ensures r.Some? ==> exists i | 0 <= i < |SortedKeys| ::
      JsString.Contains(JsString.ToLower(facility), SortedKeys[i]) &&
      (forall j | 0 <= j < i :: !JsString.Contains(JsString.ToLower(facility), SortedKeys[j])) &&
      r.value == IconMap[SortedKeys[i]]
  {
    var lower := JsString.ToLower(facility);
    var i := FirstWhere(SortedKeys, k => JsString.Contains(lower, k));
    if i < |SortedKeys| then Some(IconMap[SortedKeys[i]]) else None
  }

  /** `getFacilityIcon`: tries the keys longest first and returns the icon
      of the first one the lower-cased text contains, or none. */
  method GetFacilityIcon(facility: string) returns (icon: Option<FacilityIcon>)
    ensures icon == FacilityIconOf(facility)
  {
    var lower := JsString.ToLower(facility);
    var i := 0;
    while i < |SortedKeys|
      invariant 0 <= i <= |SortedKeys|
      invariant forall j | 0 <= j < i :: !JsString.Contains(lower, SortedKeys[j])
    {
      if JsString.Contains(lower, SortedKeys[i]) {
        FirstIsHere(lower, i);
        return Some(IconMap[SortedKeys[i]]);
      }
      i := i + 1;
    }
    FirstIsHere(lower, |SortedKeys|);
    return None;
  }

  /** When the keys before `i` are absent and key `i` (if any) is present,
      `i` is where the search stops. */
  lemma FirstIsHere(lower: string, i: nat)
    requires i <= |SortedKeys|
    requires forall j | 0 <= j < i :: !JsString.Contains(lower, SortedKeys[j])
    requires i < |SortedKeys| ==> JsString.Contains(lower, SortedKeys[i])
    ensures FirstWhere(SortedKeys, k => JsString.Contains(lower, k)) == i
  {
  }

  /** A cabin-baggage facility gets the cabin icon even though it also
      contains "baggage": the longer key is tried first. */
  lemma CabinBeatsBaggage(facility: string)
    requires JsString.Contains(JsString.ToLower(facility), "cabin baggage")
    requires !JsString.Contains(JsString.ToLower(facility), "in flight entertainment")
    requires !JsString.Contains(JsString.ToLower(facility), "in flight meal")
    ensures JsString.Contains(JsString.ToLower(facility), "baggage")
    ensures FacilityIconOf(facility) == Some(CabinIcon)
  {
    var lower := JsString.ToLower(facility);
    JsString.ContainsTransitive(lower, "cabin baggage", "baggage", 6);
    FirstIsHere(lower, 2);
  }

  // -------------------------------------------------------- taxes line

  /** A line counts when its lower-cased form contains "taxes and charges",
      "taxes" or "charges". */
  predicate MentionsTaxes(line: string) {
    var lower := JsString.ToLower(line);
    JsString.Contains(lower, "taxes and charges") || JsString.Contains(lower, "taxes")
      || JsString.Contains(lower, "charges")
  }

  /** The first of the three tests adds nothing: a line mentions taxes
      exactly when it contains "taxes" or "charges". */
  lemma MentionsTaxesSimplified(line: string)
    ensures MentionsTaxes(line) <==>
      JsString.Contains(JsString.ToLower(line), "taxes") || JsString.Contains(JsString.ToLower(line), "charges")
  {
    var lower := JsString.ToLower(line);
    if JsString.Contains(lower, "taxes and charges") {
      assert "taxes and charges" == "taxes" + " and charges";
      JsString.ContainsTransitive(lower, "taxes and charges", "taxes", 0);
    }
  }

  /** `extractTaxesLine(label)`: the first newline-separated line that
      mentions taxes or charges, or none. */
  function ExtractTaxesLine(accessibilityLabel: string): (r: Option<string>)
    ensures r.Some? ==> MentionsTaxes(r.value) && '\n' !in r.value && r.value in JsString.Split(accessibilityLabel, '\n')
    ensures r.None? <==> forall line | line in JsString.Split(accessibilityLabel, '\n') :: !MentionsTaxes(line)
  {
    var lines := JsString.Split(accessibilityLabel, '\n');
    var i := FirstWhere(lines, MentionsTaxes);
    if i < |lines| then Some(lines[i]) else None
  }

  /** Splitting at the first newline: the part before it is the first line. */
  lemma SplitAtNewline(first: string, rest: string)
    requires '\n' !in first
    ensures JsString.Split(first + "\n" + rest, '\n') == [first] + JsString.Split(rest, '\n')
  {
    var s := first + "\n" + rest;
    assert s[|first|] == '\n';
    var i := JsString.IndexOf(s, '\n');
    assert s[..|first|] == first;
    assert i == |first|;
    assert s[i + 1..] == rest;
  }

  /** The label is read line by line: the first line is taken when it
      mentions taxes, otherwise the search goes on with the rest. */
  lemma TaxesLineOfLines(first: string, rest: string)
    requires '\n' !in first
    ensures ExtractTaxesLine(first + "\n" + rest) ==
      if MentionsTaxes(first) then Some(first) else ExtractTaxesLine(rest)
  {
    SplitAtNewline(first, rest);
    var lines := [first] + JsString.Split(rest, '\n');
    assert lines[1..] == JsString.Split(rest, '\n');
  }

  // -------------------------------------------------- what's included

  /** `.replace(/^./, c => c.toUpperCase())`: the first character is
      upper-cased unless it is a line terminator, which `.` does not match. */
  function UpperFirst(s: string): (r: string)
    ensures |r| == |s|
    ensures s != "" && !JsString.IsLineTerminator(s[0]) ==> r[0] == JsString.UpperChar(s[0])
    ensures s == "" || r[1..] == s[1..]
  {
    if s != "" && !JsString.IsLineTerminator(s[0]) then JsString.CapitalizeFirst(s) else s
  }

  /** `getWhatsIncludedForActivity(slug)`: the empty slug gives ""; otherwise
      the hyphen-separated words after the first are joined with spaces and
      the first letter is upper-cased. */
  function WhatsIncluded(slug: string): (r: string)
    ensures slug == "" ==> r == ""
  {
    if slug == "" then ""
    else UpperFirst(JsString.Join(JsString.Split(slug, '-')[1..], " "))
  }

  /** The same text described without splitting: everything after the first
      hyphen with the other hyphens turned into spaces, and nothing at all
      for a slug without a hyphen. */
  lemma {:induction false} WhatsIncludedIsReplace(slug: string)
    ensures '-' !in slug ==> WhatsIncluded(slug) == ""
    ensures '-' in slug ==>
      WhatsIncluded(slug) == UpperFirst(JsString.Replace(slug[JsString.IndexOf(slug, '-') + 1..], '-', ' '))
  {
    if '-' in slug {
      var i := JsString.IndexOf(slug, '-');
      var tail := slug[i + 1..];
      assert JsString.Split(slug, '-') == [slug[..i]] + JsString.Split(tail, '-');
      assert JsString.Split(slug, '-')[1..] == JsString.Split(tail, '-');
      JsString.JoinSplitIsReplace(tail, '-', ' ');
    } else if slug != "" {
      assert JsString.Split(slug, '-') == [slug];
    }
  }

  // ------------------------------------------------------ remove dialog

  /** The name and kind `handleRemoveClick` puts in the dialog. */
  function RemoveLabel(item: ItineraryItem): (r: (string, string))
    ensures r.0 == Itinerary.ItemLabel(item)
    ensures r.1 == JsString.CapitalizeFirst(item.Type().Name())
  {
    Itinerary.CapitalizedTypeName(item.Type());
    match item.data
    case FlightData(f) => (f.airline + " " + f.flightNumber, "Flight")
    case HotelData(h) => (h.name, "Hotel")
    case ActivityData(a) => (a.name, "Activity")
  }

  /** The `removeModal` state. */
  class RemoveModal {
    var isOpen: bool
    var itemId: string
    var itemName: string
    var itemType: string

    /** Closed dialogs carry nothing. */
    ghost predicate Valid()
      reads this
    {
      !isOpen ==> itemId == "" && itemName == "" && itemType == ""
    }

    constructor()
      ensures !isOpen && itemId == "" && itemName == "" && itemType == ""
      ensures Valid()
    {
      isOpen := false;
      itemId := "";
      itemName := "";
      itemType := "";
    }

    /** `handleRemoveClick(item)`: opens the dialog for the item. */
    method RemoveClick(item: ItineraryItem)
      modifies this
      ensures Valid()
      ensures isOpen && itemId == item.id
      ensures (itemName, itemType) == RemoveLabel(item)
    {
      var named := RemoveLabel(item);
      isOpen := true;
      itemId := item.id;
      itemName := named.0;
      itemType := named.1;
    }

    /** `handleConfirmRemove`: the stored id is removed from the itinerary
        and the dialog closes. */
    method ConfirmRemove(store: Itinerary.ItineraryStore) returns (notice: Option<Toast>)
      requires store.hydrated && store.Valid()
      modifies this, store
      ensures Valid() && store.hydrated && store.Valid()
      ensures store.items == Itinerary.WithoutId(old(store.items), old(itemId))
      ensures notice.None? <==> forall i | 0 <= i < |old(store.items)| :: old(store.items)[i].id != old(itemId)
      ensures !isOpen && itemId == "" && itemName == "" && itemType == ""
    {
      notice := store.Remove(itemId);
      isOpen := false;
      itemId := "";
      itemName := "";
      itemType := "";
    }

    /** `handleCloseModal`: the dialog closes and nothing is removed. */
    method CloseModal()
      modifies this
      ensures Valid()
      ensures !isOpen && itemId == "" && itemName == "" && itemType == ""
    {
      isOpen := false;
      itemId := "";
      itemName := "";
      itemType := "";
    }
  }
}
