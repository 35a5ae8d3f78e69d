/** The itinerary store shared by every page: an ordered list of items that
    is loaded once from the browser's storage, written back after every
    change, grows by `Add` unless the item duplicates one already present,
    and shrinks by `Remove` (every item with a given id) or `Clear`. */
module Itinerary {
  import opened Wrappers
  import opened Types
  import JsString

  /** The storage key the list is saved under. */
  const StorageKey: string := "travel-itinerary"

  // ------------------------------------------------------- duplicates

  /** Whether `item` is recognised as already present because of `existing`:
      items of different kinds never match; flights match on `uniqueId`;
      hotels on `id`, or on name, address and check-in date together;
      activities on `id`, or on name and location together. */
  predicate IsDuplicate(existing: ItineraryItem, item: ItineraryItem) {
    match (existing.data, item.data)
    case (FlightData(e), FlightData(n)) => e.uniqueId == n.uniqueId
    case (HotelData(e), HotelData(n)) =>
      e.id == n.id || (e.name == n.name && e.address == n.address && e.checkIn == n.checkIn)
    case (ActivityData(e), ActivityData(n)) =>
      e.id == n.id || (e.name == n.name && e.location == n.location)
    case _ => false
  }

  lemma DuplicateSymmetric(a: ItineraryItem, b: ItineraryItem)
    ensures IsDuplicate(a, b) == IsDuplicate(b, a)
  {
  }

  lemma DuplicateSameType(a: ItineraryItem, b: ItineraryItem)
    ensures IsDuplicate(a, b) ==> a.Type() == b.Type()
  {
  }

  lemma DuplicateReflexive(a: ItineraryItem)
    ensures IsDuplicate(a, a)
  {
  }

  /** `prev.some(existing => IsDuplicate(existing, item))` */
  predicate HasDuplicateOf(s: seq<ItineraryItem>, item: ItineraryItem) {
    exists i | 0 <= i < |s| :: IsDuplicate(s[i], item)
  }

  /** No item duplicates an earlier one. */
  predicate NoDuplicates(s: seq<ItineraryItem>) {
    forall i, j | 0 <= i < j < |s| :: !IsDuplicate(s[i], s[j])
  }

  // ------------------------------------------------------ list updates

  /** The list after adding `item`: unchanged when a duplicate is present,
      otherwise `item` appended at the end. */
  function AddedTo(s: seq<ItineraryItem>, item: ItineraryItem): (r: seq<ItineraryItem>)
    ensures HasDuplicateOf(s, item) ==> r == s
    ensures !HasDuplicateOf(s, item) ==> r == s + [item]
    ensures |r| == |s| <==> HasDuplicateOf(s, item)
    ensures HasDuplicateOf(r, item)
  {
    if HasDuplicateOf(s, item) then s
    else
      DuplicateReflexive(item);
      assert IsDuplicate((s + [item])[|s|], item);
      s + [item]
  }

  /** `s.filter(item => item.id !== id)` */
  function WithoutId(s: seq<ItineraryItem>, id: string): (r: seq<ItineraryItem>)
    ensures forall x :: x in r <==> x in s && x.id != id
    ensures (forall i | 0 <= i < |s| :: s[i].id != id) <==> r == s
    ensures |r| <= |s|
  {
    if s == [] then []
    else
      var t := WithoutId(s[1..], id);
      assert s == [s[0]] + s[1..];
      if s[0].id == id then
        assert |t| <= |s[1..]|;
        t
      else
        [s[0]] + t
  }

  /** `s.find(item => item.id === id)`: the first item carrying `id`. */
  function FindById(s: seq<ItineraryItem>, id: string): (r: Option<ItineraryItem>)
    ensures r.None? <==> forall i | 0 <= i < |s| :: s[i].id != id
    ensures r.Some? ==> exists i | 0 <= i < |s| :: s[i] == r.value && r.value.id == id && forall j | 0 <= j < i :: s[j].id != id
  {
    if s == [] then None
    else if s[0].id == id then Some(s[0])
    else
      var r := FindById(s[1..], id);
      if r.Some? then
        var k :| 0 <= k < |s[1..]| && s[1..][k] == r.value && r.value.id == id && forall j | 0 <= j < k :: s[1..][j].id != id;
        assert s[k + 1] == r.value;
        r
      else
        r
  }

  // ------------------------------------------------------------ notices

  const AlreadyAddedToast: Toast :=
    Toast("Already Added! \U{1F504}", "This item is already in your itinerary.", ToastDuration)

  const ClearedToast: Toast :=
    Toast("Itinerary Cleared! \U{1F5D1}\U{FE0F}", "All items have been removed from your itinerary.", ToastDuration)

  /** How an item is named in notices: "airline flightNumber" for a flight,
      the name otherwise. */
  function ItemLabel(item: ItineraryItem): string {
    match item.data
    case FlightData(f) => f.airline + " " + f.flightNumber
    case HotelData(h) => h.name
    case ActivityData(a) => a.name
  }

  function TypeEmoji(t: ItemType): string {
    match t
    case FlightType => "\U{2708}\U{FE0F}"
    case HotelType => "\U{1F3E8}"
    case ActivityType => "\U{1F3AF}"
  }

  /** The title of the removal notice: the type tag with its first letter
      upper-cased, then the type's emoji. */
  function RemovedTitle(t: ItemType): (title: string)
    ensures title == (match t
                      case FlightType => "Flight"
                      case HotelType => "Hotel"
                      case ActivityType => "Activity") + " Removed! " + TypeEmoji(t)
  {
    CapitalizedTypeName(t);
    JsString.CapitalizeFirst(t.Name()) + " Removed! " + TypeEmoji(t)
  }

  /** The notice shown when `item` is removed. */
  function RemovedToast(item: ItineraryItem): (t: Toast)
    ensures t.title == RemovedTitle(item.Type()) && t.duration == ToastDuration
    ensures |ItemLabel(item)| <= |t.description| && t.description[..|ItemLabel(item)|] == ItemLabel(item)
    ensures t.description[|ItemLabel(item)|..] == " has been removed from your itinerary."
  {
    Toast(RemovedTitle(item.Type()),
          ItemLabel(item) + " has been removed from your itinerary.",
          ToastDuration)
  }

  /** Upper-casing the first letter of the type tag gives the words the
      removal titles start with. */
  lemma {:induction false} CapitalizedTypeName(t: ItemType)
    ensures JsString.CapitalizeFirst(t.Name()) ==
      match t
      case FlightType => "Flight"
      case HotelType => "Hotel"
      case ActivityType => "Activity"
  {
    match t
    case FlightType => CapitalizeLiteral('f', "light");
    case HotelType => CapitalizeLiteral('h', "otel");
    case ActivityType => CapitalizeLiteral('a', "ctivity");
  }

  lemma CapitalizeLiteral(c: char, rest: string)
    requires 'a' <= c <= 'z'
    ensures JsString.CapitalizeFirst([c] + rest) == [(c as int - 32) as char] + rest
  {
    assert ([c] + rest)[1..] == rest;
  }

  // ------------------------------------------------------ operation log

  datatype Op = AddItem(item: ItineraryItem) | RemoveItem(id: string) | ClearAll

  /** The list after one store operation. */
  function Apply(s: seq<ItineraryItem>, op: Op): seq<ItineraryItem> {
    match op
    case AddItem(item) => AddedTo(s, item)
    case RemoveItem(id) => WithoutId(s, id)
    case ClearAll => []
  }

  /** The list after a sequence of store operations, first one first. */
  function ApplyAll(s: seq<ItineraryItem>, ops: seq<Op>): seq<ItineraryItem>
    decreases |ops|
  {
    if ops == [] then s else ApplyAll(Apply(s, ops[0]), ops[1..])
  }

  lemma AddKeepsNoDuplicates(s: seq<ItineraryItem>, item: ItineraryItem)
    requires NoDuplicates(s)
    ensures NoDuplicates(AddedTo(s, item))
  {
    if !HasDuplicateOf(s, item) {
      var r := s + [item];
      forall i, j | 0 <= i < j < |r|
        ensures !IsDuplicate(r[i], r[j])
      {
        if j == |s| {
          assert r[i] == s[i] && r[j] == item;
        } else {
          assert r[i] == s[i] && r[j] == s[j];
        }
      }
    }
  }

  lemma {:induction false} WithoutIdKeepsNoDuplicates(s: seq<ItineraryItem>, id: string)
    requires NoDuplicates(s)
    ensures NoDuplicates(WithoutId(s, id))
    decreases |s|
  {
    if s != [] {
      var tail := s[1..];
      TailKeepsNoDuplicates(s);
      WithoutIdKeepsNoDuplicates(tail, id);
      var t := WithoutId(tail, id);
      if s[0].id != id {
        forall k | 0 <= k < |t|
          ensures !IsDuplicate(s[0], t[k])
        {
          assert t[k] in tail;
          var m :| 0 <= m < |tail| && tail[m] == t[k];
          assert s[m + 1] == t[k];
        }
        ConsKeepsNoDuplicates(s[0], t);
      }
    }
  }

  lemma TailKeepsNoDuplicates(s: seq<ItineraryItem>)
    requires s != [] && NoDuplicates(s)
    ensures NoDuplicates(s[1..])
  {
    var tail := s[1..];
    forall i, j | 0 <= i < j < |tail|
      ensures !IsDuplicate(tail[i], tail[j])
    {
      assert tail[i] == s[i + 1] && tail[j] == s[j + 1];
    }
  }

  lemma ConsKeepsNoDuplicates(x: ItineraryItem, t: seq<ItineraryItem>)
    requires NoDuplicates(t)
    requires forall k | 0 <= k < |t| :: !IsDuplicate(x, t[k])
    ensures NoDuplicates([x] + t)
  {
    var r := [x] + t;
    forall i, j | 0 <= i < j < |r|
      ensures !IsDuplicate(r[i], r[j])
    {
      if i == 0 {
        assert r[j] == t[j - 1];
      } else {
        assert r[i] == t[i - 1] && r[j] == t[j - 1];
      }
    }
  }

  lemma ApplyKeepsNoDuplicates(s: seq<ItineraryItem>, op: Op)
    requires NoDuplicates(s)
    ensures NoDuplicates(Apply(s, op))
  {
    match op
    case AddItem(item) => AddKeepsNoDuplicates(s, item);
    case RemoveItem(id) => WithoutIdKeepsNoDuplicates(s, id);
    case ClearAll =>
  }

  /** However the store is used, it never holds two items that duplicate
      each other, provided it started out that way. */
  lemma {:induction false} ApplyAllKeepsNoDuplicates(s: seq<ItineraryItem>, ops: seq<Op>)
    requires NoDuplicates(s)
    ensures NoDuplicates(ApplyAll(s, ops))
    decreases |ops|
  {
    if ops != [] {
      ApplyKeepsNoDuplicates(s, ops[0]);
      ApplyAllKeepsNoDuplicates(Apply(s, ops[0]), ops[1..]);
    }
  }

  lemma {:induction false} WithoutIdAppend(a: seq<ItineraryItem>, b: seq<ItineraryItem>, id: string)
    ensures WithoutId(a + b, id) == WithoutId(a, id) + WithoutId(b, id)
    decreases |a|
  {
    if a != [] {
      assert (a + b)[1..] == a[1..] + b;
      WithoutIdAppend(a[1..], b, id);
    } else {
      assert a + b == b;
    }
  }

  /** Adding a new item whose id is not yet used and then removing that id
      gives back the list as it was. */
  lemma {:induction false} AddThenRemove(s: seq<ItineraryItem>, item: ItineraryItem)
    requires !HasDuplicateOf(s, item)
    requires forall i | 0 <= i < |s| :: s[i].id != item.id
    ensures ApplyAll(s, [AddItem(item), RemoveItem(item.id)]) == s
  {
    var ops := [AddItem(item), RemoveItem(item.id)];
    var added := s + [item];
    assert Apply(s, ops[0]) == added;
    assert ops[1..] == [RemoveItem(item.id)];
    assert ApplyAll(s, ops) == ApplyAll(added, [RemoveItem(item.id)]);
    assert ApplyAll(added, [RemoveItem(item.id)]) == WithoutId(added, item.id) by {
      assert [RemoveItem(item.id)][1..] == [];
    }
    WithoutIdAppend(s, [item], item.id);
    assert WithoutId([item], item.id) == [];
    assert WithoutId(s, item.id) == s;
  }

  /** Adding the same item twice has the effect of adding it once. */
  lemma AddIdempotent(s: seq<ItineraryItem>, item: ItineraryItem)
    ensures AddedTo(AddedTo(s, item), item) == AddedTo(s, item)
  {
  }

  /** Removing an id removes every item carrying it, so removing it again
      changes nothing. */
  lemma RemoveIdempotent(s: seq<ItineraryItem>, id: string)
    ensures WithoutId(WithoutId(s, id), id) == WithoutId(s, id)
  {
    var r := WithoutId(s, id);
    assert forall i | 0 <= i < |r| :: r[i] in r;
  }

  // ------------------------------------------------------------- store

  /** What the storage cell holds: the serialised list, text that does not
      parse, or the empty string (which the loader skips). */
  datatype Stored = Serialized(items: seq<ItineraryItem>) | Unparsable | Blank

  /** The provider's state: the list, whether it has been loaded, and the
      browser storage cell under `StorageKey` (`None` when absent). */
  class ItineraryStore {
    var items: seq<ItineraryItem>
    var hydrated: bool
    var storage: Option<Stored>

    /** Once loaded, every change has been written back. */
    ghost predicate Valid()
      reads this
    {
      hydrated ==> storage == Some(Serialized(items))
    }

    /** The first render: an empty list, not yet loaded. */
    constructor(stored: Option<Stored>)
      ensures items == [] && !hydrated && storage == stored
      ensures Valid()
    {
      items := [];
      hydrated := false;
      storage := stored;
    }

    /** The mount effect: a parsable stored list replaces the empty one;
        anything else leaves it; loading is then marked done, and the save
        effect that this triggers writes the list back. */
    method Hydrate()
      requires !hydrated
      modifies this
      ensures hydrated && Valid()
      ensures old(storage).Some? && old(storage).value.Serialized? ==> items == old(storage).value.items
      ensures !(old(storage).Some? && old(storage).value.Serialized?) ==> items == old(items)
    {
      if storage.Some? && storage.value.Serialized? {
        items := storage.value.items;
      }
      hydrated := true;
      storage := Some(Serialized(items));
    }

    /** `addToItinerary`: returns the notice shown when nothing was added. */
    method Add(item: ItineraryItem) returns (notice: Option<Toast>)
      requires hydrated && Valid()
      modifies this
      ensures hydrated && Valid()
      ensures items == AddedTo(old(items), item)
      ensures notice == if HasDuplicateOf(old(items), item) then Some(AlreadyAddedToast) else None
      ensures NoDuplicates(old(items)) ==> NoDuplicates(items)
    {
      if HasDuplicateOf(items, item) {
        notice := Some(AlreadyAddedToast);
      } else {
        items := items + [item];
        storage := Some(Serialized(items));
        notice := None;
      }
      if NoDuplicates(old(items)) {
        AddKeepsNoDuplicates(old(items), item);
      }
    }

    /** `removeFromItinerary`: drops every item with `id`; the notice names
        the first of them, and there is none when no item has `id`. */
    method Remove(id: string) returns (notice: Option<Toast>)
      requires hydrated && Valid()
      modifies this
      ensures hydrated && Valid()
      ensures items == WithoutId(old(items), id)
      ensures notice.None? <==> forall i | 0 <= i < |old(items)| :: old(items)[i].id != id
      ensures notice.Some? ==> notice == Some(RemovedToast(FindById(old(items), id).value))
      ensures NoDuplicates(old(items)) ==> NoDuplicates(items)
    {
      var found := FindById(items, id);
      notice := if found.Some? then Some(RemovedToast(found.value)) else None;
      if NoDuplicates(items) {
        WithoutIdKeepsNoDuplicates(items, id);
      }
      items := WithoutId(items, id);
      storage := Some(Serialized(items));
    }

    /** `clearItinerary` */
    method Clear() returns (notice: Toast)
      requires hydrated && Valid()
      modifies this
      ensures hydrated && Valid()
      ensures items == [] && notice == ClearedToast
    {
      items := [];
      storage := Some(Serialized(items));
      notice := ClearedToast;
    }
  }
}
