/** The destination lookup shared by the three services: a cache from a
    normalised query to a result list, kept for the life of the page, and one
    current request controller that every new request aborts and replaces.
    The provider call itself is a parameter: the response it gave. */
module LocationLookup {
  import opened Wrappers
  import JsString

  // -------------------------------------------------------------- keys

  /** `query.trim().toLowerCase()` */
  function CacheKey(query: string): (key: string)
    ensures |key| <= |query|
    ensures key == [] || (!JsString.IsWhitespace(key[0]) && !JsString.IsWhitespace(key[|key| - 1]))
    ensures forall i | 0 <= i < |key| :: !JsString.IsUpperAscii(key[i])
  {
    var t := JsString.Trim(query);
    JsString.LowerKeepsEnds(t);
    JsString.ToLower(t)
  }

  /** Queries that differ only by surrounding whitespace share an entry. */
  lemma KeyIgnoresPadding(query: string, before: string, after: string)
    requires JsString.AllWhitespace(before) && JsString.AllWhitespace(after)
    ensures CacheKey(before + query + after) == CacheKey(query)
  {
    JsString.TrimIgnoresPadding(query, before, after);
  }

  /** Queries that differ only in letter case share an entry. */
  lemma KeyIgnoresCase(q1: string, q2: string)
    requires JsString.ToLower(q1) == JsString.ToLower(q2)
    ensures CacheKey(q1) == CacheKey(q2)
  {
    JsString.TrimToLowerCommute(q1);
    JsString.TrimToLowerCommute(q2);
  }

  // ------------------------------------------------------------- cache

  /** What the provider answered: a body whose `data` may be missing, or a
      rejection (transport error or abort) with its message. */
  datatype Response<D> = Answered(data: Option<D>) | Rejected(reason: string)

  /** The module-level state of one lookup service: its cache and its
      request controllers. Controllers are numbered in creation order; the
      current one is the last. */
  class LookupCache<T> {
    var cache: map<string, seq<T>>
    var controllers: nat
    var aborted: set<nat>
    /** The raw query sent with each request, in order. */
    var requests: seq<string>

    /** Every controller but the current one has been aborted. */
    ghost predicate Valid()
      reads this
    {
      |requests| == controllers &&
      (forall c | c in aborted :: c < controllers - 1) &&
      (forall c | 0 <= c < controllers - 1 :: c in aborted)
    }

    /** Controllers created and not aborted. */
    function Live(): set<nat>
      reads this
    {
      set c | 0 <= c < controllers && c !in aborted
    }

    constructor()
      ensures cache == map[] && controllers == 0 && aborted == {} && requests == []
      ensures Valid()
    {
      cache := map[];
      controllers := 0;
      aborted := {};
      requests := [];
    }

    /** The cached list for `query`'s key, if any; no state changes. */
    function Cached(query: string): (r: Option<seq<T>>)
      reads this
      ensures r.Some? <==> CacheKey(query) in cache
      ensures r.Some? ==> r.value == cache[CacheKey(query)]
    {
      var key := CacheKey(query);
      if key in cache then Some(cache[key]) else None
    }

    /** A miss: `currentController?.abort()` followed by a new controller,
        whose request carries the raw query. */
    method Send(query: string)
      requires Valid()
      modifies this
      ensures Valid() && Live() == {controllers - 1}
      ensures controllers == old(controllers) + 1 && requests == old(requests) + [query]
      ensures aborted == if old(controllers) == 0 then old(aborted) else old(aborted) + {old(controllers) - 1}
      ensures cache == old(cache)
    {
      if controllers > 0 {
        aborted := aborted + {controllers - 1};
      }
      controllers := controllers + 1;
      requests := requests + [query];
      assert forall c | 0 <= c < controllers && c !in aborted :: c == controllers - 1;
    }

    /** `cache.set(key, value)` */
    method Store(key: string, value: seq<T>)
      modifies this
      ensures cache == old(cache)[key := value]
      ensures controllers == old(controllers) && aborted == old(aborted) && requests == old(requests)
    {
      cache := cache[key := value];
    }
  }

  /** At most one controller is live at any time. */
  lemma AtMostOneLive<T>(c: LookupCache<T>)
    requires c.Valid()
    ensures |c.Live()| <= 1
    ensures c.controllers > 0 ==> c.Live() == {c.controllers - 1}
  {
    if c.controllers == 0 {
      assert c.Live() == {};
    } else {
      assert c.controllers - 1 !in c.aborted;
      assert c.Live() == {c.controllers - 1};
    }
  }
}
