/** Query strings as the search pages build them with `URLSearchParams` and
    the results pages read them with `searchParams.get`: an ordered list of
    name/value pairs in which a name may repeat and `get` answers the first
    value. Percent-encoding is not modelled: a route carries the pairs. */
module UrlParams {
  import opened Wrappers
  import JsString

  type Entries = seq<(string, string)>

  /** No pair of `e` is named `name`. */
  predicate Lacks(e: Entries, name: string) {
    forall j | 0 <= j < |e| :: e[j].0 != name
  }

  /** `params.get(name)`: the value of the first pair named `name`, or
      `None` (JavaScript's `null`). */
  function Get(e: Entries, name: string): Option<string> {
    if e == [] then None
    else if e[0].0 == name then Some(e[0].1)
    else Get(e[1..], name)
  }

  lemma LacksAppend(a: Entries, b: Entries, name: string)
    requires Lacks(a, name) && Lacks(b, name)
    ensures Lacks(a + b, name)
  {
  }

  /** The first pair named `name` is the answer. */
  lemma {:induction false} GetAt(e: Entries, name: string, k: nat)
    requires k < |e| && e[k].0 == name
    requires forall j | 0 <= j < k :: e[j].0 != name
    ensures Get(e, name) == Some(e[k].1)
    decreases k
  {
    if k > 0 {
      assert e[0].0 != name;
      GetAt(e[1..], name, k - 1);
    }
  }

  /** A name no pair carries reads as absent. */
  lemma {:induction false} GetAbsent(e: Entries, name: string)
    requires Lacks(e, name)
    ensures Get(e, name) == None
    decreases |e|
  {
    if e != [] {
      assert e[0].0 != name;
      GetAbsent(e[1..], name);
    }
  }

  /** Pairs appended after a name is present do not change what it reads. */
  lemma {:induction false} GetPrefix(a: Entries, b: Entries, name: string)
    requires Get(a, name).Some?
    ensures Get(a + b, name) == Get(a, name)
    decreases |a|
  {
    assert a != [];
    if a[0].0 != name {
      assert (a + b)[1..] == a[1..] + b;
      GetPrefix(a[1..], b, name);
    }
  }

  /** Pairs with other names in front do not change what a name reads. */
  lemma {:induction false} GetSkip(a: Entries, b: Entries, name: string)
    requires Lacks(a, name)
    ensures Get(a + b, name) == Get(b, name)
    decreases |a|
  {
    if a != [] {
      assert a[0].0 != name;
      assert (a + b)[1..] == a[1..] + b;
      GetSkip(a[1..], b, name);
    } else {
      assert a + b == b;
    }
  }

  /** A name that `a` answers, or that neither part carries, reads as in `a`. */
  lemma GetPrefixOrAbsent(a: Entries, b: Entries, name: string)
    requires Lacks(b, name)
    ensures Get(a + b, name) == Get(a, name)
  {
    if Get(a, name).Some? {
      GetPrefix(a, b, name);
    } else {
      GetNoneSkip(a, b, name);
      GetAbsent(b, name);
    }
  }

  /** A name `a` does not carry reads as in `b`. */
  lemma {:induction false} GetNoneSkip(a: Entries, b: Entries, name: string)
    requires Get(a, name).None?
    ensures Get(a + b, name) == Get(b, name)
    decreases |a|
  {
    if a != [] {
      assert a[0].0 != name;
      assert (a + b)[1..] == a[1..] + b;
      GetNoneSkip(a[1..], b, name);
    } else {
      assert a + b == b;
    }
  }

  /** The pair `if (value) params.append(name, value)` contributes. */
  function Optional(name: string, value: Option<string>): (e: Entries)
    ensures JsString.Truthy(value) ==> e == [(name, value.value)]
    ensures !JsString.Truthy(value) ==> e == []
    ensures forall other | other != name :: Lacks(e, other)
  {
    if JsString.Truthy(value) then [(name, value.value)] else []
  }

  lemma OptionalRead(name: string, value: Option<string>)
    ensures Get(Optional(name, value), name) == if JsString.Truthy(value) then value else None
  {
  }

  /** A `URLSearchParams` object. */
  class SearchParams {
    var entries: Entries

    /** `new URLSearchParams(init)`: the pairs in the initialiser's order. */
    constructor(init: Entries)
      ensures entries == init
    {
      entries := init;
    }

    /** `params.append(name, value)` */
    method Append(name: string, value: string)
      modifies this
      ensures entries == old(entries) + [(name, value)]
    {
      entries := entries + [(name, value)];
    }
  }

  /** `if (value) params.append(name, value)` */
  method AppendOptional(params: SearchParams, name: string, value: Option<string>)
    modifies params
    ensures params.entries == old(params.entries) + Optional(name, value)
  {
    if JsString.Truthy(value) {
      params.Append(name, value.value);
    }
  }

  /** Where `router.push` sends the browser: a path and its query. */
  datatype Route = Route(path: string, query: Entries)

  /** How `handleSearch` ends: an alert and no navigation, or a navigation. */
  datatype SearchOutcome = Alerted(message: string) | Navigated(route: Route)
}
