/** The caching and paging logic of src/api/aeroapi.py: the LRU cache with
    a time-to-live, the per-endpoint cost estimate, the choice of
    cacheable endpoints, the cache gate of `_get`, and the cursor loop of
    `fetch_all_pages`. Clock readings are parameters; each page request is
    answered by an oracle. */
module AeroApi {
  import opened Values
  import opened Text

  // ---------------------------------------------------------------------
  // Cache keys
  // ---------------------------------------------------------------------

  /** One request parameter: name and value. */
  type Param = (string, Value)

  /** A parameter dict as its items in insertion order: names are unique. */
  predicate NamesDistinct(items: seq<Param>)
  {
    forall i, j :: 0 <= i < j < |items| ==> items[i].0 != items[j].0
  }

  /** Strictly increasing names. */
  predicate SortedByName(items: seq<Param>)
  {
    forall i, j :: 0 <= i < j < |items| ==> StrLess(items[i].0, items[j].0)
  }

  /** Inserts one item into a sorted list whose names all differ from its own. */
  function Insert(x: Param, s: seq<Param>): (r: seq<Param>)
    requires SortedByName(s)
    requires forall i :: 0 <= i < |s| ==> s[i].0 != x.0
    ensures SortedByName(r)
    ensures multiset(r) == multiset(s) + multiset{x}
  {
    if |s| == 0 then [x]
    else if StrLess(x.0, s[0].0) then
      assert forall i :: 0 < i < |s| ==> StrLess(x.0, s[i].0) by {
        forall i | 0 < i < |s| ensures StrLess(x.0, s[i].0) {
          StrLessTransitive(x.0, s[0].0, s[i].0);
        }
      }
      [x] + s
    else
      StrLessTrichotomy(x.0, s[0].0);
      assert s == [s[0]] + s[1..];
      var rest := Insert(x, s[1..]);
      HeadBelowRest(x, s, rest);
      [s[0]] + rest
  }

  /** The head of a sorted list stays below everything of its tail with
      a larger item added. */
  lemma HeadBelowRest(x: Param, s: seq<Param>, rest: seq<Param>)
    requires SortedByName(s) && |s| > 0 && StrLess(s[0].0, x.0)
    requires multiset(rest) == multiset(s[1..]) + multiset{x}
    ensures forall i :: 0 <= i < |rest| ==> StrLess(s[0].0, rest[i].0)
  {
    forall i | 0 <= i < |rest| ensures StrLess(s[0].0, rest[i].0) {
      assert rest[i] in multiset(rest);
      if rest[i] != x {
        assert rest[i] in multiset(s[1..]);
        var k :| 0 <= k < |s[1..]| && s[1..][k] == rest[i];
        assert s[k + 1] == rest[i];
      }
    }
  }

  /** The last item's name is not among a rearrangement of the others. */
  lemma LastNameFresh(items: seq<Param>, others: seq<Param>)
    requires NamesDistinct(items) && |items| > 0
    requires multiset(others) == multiset(items[..|items| - 1])
    ensures forall i :: 0 <= i < |others| ==> others[i].0 != items[|items| - 1].0
  {
    var init := items[..|items| - 1];
    forall i | 0 <= i < |others| ensures others[i].0 != items[|items| - 1].0 {
      assert others[i] in multiset(init);
      var k :| 0 <= k < |init| && init[k] == others[i];
      assert items[k] == others[i];
    }
  }

  /** `sorted(params.items())`: with unique names the order is by name. */
  function SortItems(items: seq<Param>): (r: seq<Param>)
    requires NamesDistinct(items)
    ensures SortedByName(r)
    ensures multiset(r) == multiset(items)
  {
    if |items| == 0 then []
    else
      var init := items[..|items| - 1];
      var x := items[|items| - 1];
      var sorted := SortItems(init);
      LastNameFresh(items, sorted);
      assert items == init + [x];
      Insert(x, sorted)
  }

  /** Two sorted lists holding the same items start alike. */
  lemma SortedHeads(a: seq<Param>, b: seq<Param>)
    requires SortedByName(a) && SortedByName(b)
    requires multiset(a) == multiset(b)
    requires |a| > 0
    ensures |b| > 0 && a[0] == b[0]
  {
    assert a[0] in multiset(b);
    var j :| 0 <= j < |b| && b[j] == a[0];
    assert b[0] in multiset(a);
    var i :| 0 <= i < |a| && a[i] == b[0];
    if a[0] != b[0] {
      StrLessTransitive(a[0].0, a[i].0, b[j].0);
      StrLessTrichotomy(a[0].0, a[0].0);
      assert false;
    }
  }

  /** Two sorted lists holding the same items are the same list. */
  lemma {:induction false} SortedUnique(a: seq<Param>, b: seq<Param>)
    requires SortedByName(a) && SortedByName(b)
    requires multiset(a) == multiset(b)
    ensures a == b
    decreases |a|
  {
    if |a| == 0 {
      assert |multiset(b)| == 0;
    } else {
      SortedHeads(a, b);
      assert a == [a[0]] + a[1..] && b == [b[0]] + b[1..];
      assert multiset(a) == multiset{a[0]} + multiset(a[1..]);
      assert multiset(b) == multiset{b[0]} + multiset(b[1..]);
      assert multiset(a[1..]) == multiset(a) - multiset{a[0]};
      assert multiset(b[1..]) == multiset(b) - multiset{b[0]};
      SortedUnique(a[1..], b[1..]);
    }
  }

  /** The key of a cached response: the endpoint and the parameters sorted
      by name. */
  datatype CacheKey = CacheKey(endpoint: string, params: seq<Param>)

  /** `_make_key`: absent parameters count as none. */
  function MakeKey(endpoint: string, params: Option<seq<Param>>): (key: CacheKey)
    requires params.Some? ==> NamesDistinct(params.value)
    ensures key.endpoint == endpoint
    ensures SortedByName(key.params)
    ensures multiset(key.params) == (if params.Some? then multiset(params.value) else multiset{})
  {
    CacheKey(endpoint, if params.Some? then SortItems(params.value) else [])
  }

  /** Two requests share a key exactly when they have the same endpoint
      and the same parameters, in whatever order these were given. */
  lemma MakeKeyOrderFree(endpoint: string, p: seq<Param>, endpoint': string, q: seq<Param>)
    requires NamesDistinct(p) && NamesDistinct(q)
    ensures MakeKey(endpoint, Some(p)) == MakeKey(endpoint', Some(q)) <==> endpoint == endpoint' && multiset(p) == multiset(q)
  {
    if endpoint == endpoint' && multiset(p) == multiset(q) {
      SortedUnique(SortItems(p), SortItems(q));
    }
  }

  // ---------------------------------------------------------------------
  // LRU cache
  // ---------------------------------------------------------------------

  /** A stored value and the time it was stored. */
  datatype Entry<V> = Entry(value: V, stamp: real)

  predicate Distinct(s: seq<CacheKey>)
  {
    forall i, j :: 0 <= i < j < |s| ==> s[i] != s[j]
  }

  /** The sequence without `x`, the others in their order. */
  function Without(s: seq<CacheKey>, x: CacheKey): (r: seq<CacheKey>)
    ensures forall y :: y in r <==> y in s && y != x
    ensures Distinct(s) ==> Distinct(r)
  {
    if |s| == 0 then []
    else
      var rest := Without(s[1..], x);
      if s[0] == x then rest
      else
        assert Distinct(s) ==> s[0] !in s[1..];
        [s[0]] + rest
  }

  /** Appending a new key keeps the keys distinct. */
  lemma DistinctSnoc(s: seq<CacheKey>, x: CacheKey)
    requires Distinct(s) && x !in s
    ensures Distinct(s + [x])
  {
  }

  /** The store as an ordered dict: the order lists each key exactly once
      and every value is the one in `stored`. */
  ghost predicate Mirrors<V>(order: seq<CacheKey>, entries: map<CacheKey, Entry<V>>, stored: map<CacheKey, Entry<V>>)
  {
    && Distinct(order)
    && (forall k :: k in entries <==> k in order)
    && (forall k :: k in entries ==> k in stored && entries[k] == stored[k])
  }

  /** Popping the least recently used entry keeps the mirror. */
  lemma PopKeeps<V>(order: seq<CacheKey>, entries: map<CacheKey, Entry<V>>, stored: map<CacheKey, Entry<V>>)
    requires Mirrors(order, entries, stored) && |order| > 0
    ensures Mirrors(order[1..], entries - {order[0]}, stored)
  {
    assert order[0] !in order[1..];
  }

  /** Placing a key as the most recently used entry keeps the mirror. */
  lemma PlaceKeeps<V>(order: seq<CacheKey>, entries: map<CacheKey, Entry<V>>, key: CacheKey, e: Entry<V>)
    requires Distinct(order) && forall k :: k in entries <==> k in order
    ensures Mirrors(Without(order, key) + [key], entries[key := e], entries[key := e])
  {
    DistinctSnoc(Without(order, key), key);
  }

  /** The eviction loop of `set`: drops keys from the least recently used
      end while there are more than `maxsize`; with a negative `maxsize`
      it empties the store and `popitem` raises. */
  method EvictOldest<V>(placed: seq<CacheKey>, stored: map<CacheKey, Entry<V>>, maxsize: int)
    returns (keys: seq<CacheKey>, kept: map<CacheKey, Entry<V>>, raised: bool)
    requires Mirrors(placed, stored, stored)
    ensures keys == placed[Evicted(|placed|, maxsize)..]
    ensures Mirrors(keys, kept, stored)
    ensures raised <==> maxsize < 0
  {
    keys, kept := placed, stored;
    ghost var i := 0;
    while |keys| > maxsize && |keys| > 0
      invariant 0 <= i <= Evicted(|placed|, maxsize)
      invariant keys == placed[i..]
      invariant Mirrors(keys, kept, stored)
      decreases |keys|
    {
      PopKeeps(keys, kept, stored);
      kept := kept - {keys[0]};
      keys := keys[1..];
      i := i + 1;
    }
    raised := |keys| > maxsize;
  }

  /** A sequence without repeats has as many elements as its set. */
  lemma {:induction false} DistinctCard(s: seq<CacheKey>)
    requires Distinct(s)
    ensures |set x | x in s| == |s|
  {
    if |s| > 0 {
      DistinctCard(s[1..]);
      assert (set x | x in s) == (set x | x in s[1..]) + {s[0]};
      assert s[0] !in s[1..];
    }
  }

  /** How many entries `set` evicts from `n` after placing the new one:
      down to `maxsize`, or all of them (and then `popitem` raises) when
      `maxsize` is negative. */
  function Evicted(n: nat, maxsize: int): (e: nat)
    ensures e <= n
  {
    if maxsize < 0 then n else if n > maxsize then n - maxsize else 0
  }

  /** `LRUCache`: an ordered dict of keys to stamped values, least recently
      used first. `order` is its key order and `entries` its contents. */
  class LRUCache<V> {
    var maxsize: int
    var ttl: int
    var order: seq<CacheKey>
    var entries: map<CacheKey, Entry<V>>

    /** The order lists each stored key exactly once. */
    ghost predicate Valid()
      reads this
    {
      Distinct(order) && forall k :: k in entries <==> k in order
    }

    constructor (maxsize: int, ttl: int)
      ensures Valid()
      ensures this.maxsize == maxsize && this.ttl == ttl
      ensures order == [] && entries == map[]
    {
      this.maxsize := maxsize;
      this.ttl := ttl;
      order := [];
      entries := map[];
    }

    /** `get` at time `now`: a fresh entry is returned and becomes the most
        recently used; an expired one is deleted; a miss changes nothing. */
    method Get(endpoint: string, params: Option<seq<Param>>, now: real) returns (r: Option<V>)
      requires Valid()
      requires params.Some? ==> NamesDistinct(params.value)
      modifies this
      ensures Valid()
      ensures maxsize == old(maxsize) && ttl == old(ttl)
      ensures var key := MakeKey(endpoint, params);
        key in old(entries) && now - old(entries)[key].stamp < ttl as real ==>
          && r == Some(old(entries)[key].value)
          && entries == old(entries)
          && order == Without(old(order), key) + [key]
    ensures var key := MakeKey(endpoint, params);
        key in old(entries) && !(now - old(entries)[key].stamp < ttl as real) ==>
          && r == None
          && entries == old(entries) - {key}
          && order == Without(old(order), key)
      ensures var key := MakeKey(endpoint, params);
        key !in old(entries) ==> r == None && entries == old(entries) && order == old(order)
    {
      var key := MakeKey(endpoint, params);
      r := None;
      if key in entries {
        var entry := entries[key];
        if now - entry.stamp < ttl as real {
          order := Without(order, key) + [key];
          r := Some(entry.value);
        } else {
          entries := entries - {key};
          order := Without(order, key);
        }
      }
    }

    /** `set` at time `now`: stores the value as the most recently used
        entry, then evicts from the least recently used end while there are
        more than `maxsize` entries. With a negative `maxsize` the loop
        empties the cache and `popitem` raises; `raised` says so. */
    method Set(endpoint: string, params: Option<seq<Param>>, value: V, now: real) returns (raised: bool)
      requires Valid()
      requires params.Some? ==> NamesDistinct(params.value)
      modifies this
      ensures Valid()
      ensures maxsize == old(maxsize) && ttl == old(ttl)
      ensures raised <==> maxsize < 0
      ensures var key := MakeKey(endpoint, params);
        var placed := Without(old(order), key) + [key];
        order == placed[Evicted(|placed|, maxsize)..]
      ensures var key := MakeKey(endpoint, params);
        forall k :: k in entries ==> entries[k] == old(entries)[key := Entry(value, now)][k]
    {
      var key := MakeKey(endpoint, params);
      var stored := entries[key := Entry(value, now)];
      var keys := Without(order, key) + [key];
      PlaceKeeps(order, entries, key, Entry(value, now));
      var kept;
      keys, kept, raised := EvictOldest(keys, stored, maxsize);
      order, entries := keys, kept;
    }

    /** `clear`. */
    method Clear()
      modifies this
      ensures Valid()
      ensures maxsize == old(maxsize) && ttl == old(ttl)
      ensures order == [] && entries == map[]
    {
      order := [];
      entries := map[];
    }

    /** `__len__`: the number of entries, which is the length of the order. */
    function Len(): (n: nat)
      reads this
      requires Valid()
      ensures n == |order|
    {
      assert entries.Keys == set k | k in order;
      DistinctCard(order);
      |entries.Keys|
    }
  }

  /** After `set` on a cache of non-negative capacity there are at most
      `maxsize` entries, and with room for one the new key is the most
      recently used. */
  lemma SetBounds(old_order: seq<CacheKey>, key: CacheKey, maxsize: int)
    requires maxsize >= 0
    ensures var placed := Without(old_order, key) + [key];
      |placed[Evicted(|placed|, maxsize)..]| <= maxsize
    ensures var placed := Without(old_order, key) + [key];
      maxsize > 0 ==> placed[Evicted(|placed|, maxsize)..][|placed| - Evicted(|placed|, maxsize) - 1] == key
  {
  }

  // ---------------------------------------------------------------------
  // Endpoint rules
  // ---------------------------------------------------------------------

  /** `ENDPOINT_COSTS` in declared order: path fragment and cost per page. */
  const EndpointCosts: seq<(string, real)> :=
    [("/aircraft", 0.005), ("/flights", 0.01), ("/history", 0.01), ("/airports", 0.005), ("/search", 0.01)]

  /** The cost for endpoints matching no fragment. */
  const DefaultCost: real := 0.005

  /** The first fragment of the table that occurs in the endpoint. */
  function FirstMatch(endpoint: string, table: seq<(string, real)>): (r: Option<nat>)
    ensures r.Some? ==> r.value < |table| && Contains(endpoint, table[r.value].0)
    ensures r.Some? ==> forall j :: 0 <= j < r.value ==> !Contains(endpoint, table[j].0)
    ensures r.None? ==> forall j :: 0 <= j < |table| ==> !Contains(endpoint, table[j].0)
  {
    if |table| == 0 then None
    else if Contains(endpoint, table[0].0) then Some(0)
    else
      var rest := FirstMatch(endpoint, table[1..]);
      if rest.Some? then Some(rest.value + 1) else None
  }

  /** `_estimate_cost`: the cost of the first listed fragment in the
      endpoint, else the default, times the pages. */
  function EstimateCost(endpoint: string, pages: int): (cost: real)
    ensures forall i :: (0 <= i < |EndpointCosts| && Contains(endpoint, EndpointCosts[i].0)
                         && (forall j :: 0 <= j < i ==> !Contains(endpoint, EndpointCosts[j].0)))
                        ==> cost == EndpointCosts[i].1 * pages as real
    ensures (forall i :: 0 <= i < |EndpointCosts| ==> !Contains(endpoint, EndpointCosts[i].0))
      ==> cost == DefaultCost * pages as real
  {
    var m := FirstMatch(endpoint, EndpointCosts);
    if m.Some? then EndpointCosts[m.value].1 * pages as real else DefaultCost * pages as real
  }

  /** The fragments that make an endpoint cacheable. */
  const CacheableFragments: seq<string> := ["/aircraft", "/airports/"]

  /** `_should_cache`. */
  function ShouldCache(enabled: bool, endpoint: string): (r: bool)
    ensures r <==> enabled && (Contains(endpoint, "/aircraft") || Contains(endpoint, "/airports/"))
  {
    assert CacheableFragments[0] == "/aircraft" && CacheableFragments[1] == "/airports/";
    enabled && ContainsAny(endpoint, CacheableFragments)
  }

  /** A haystack holding a needle holds each prefix of it. */
  lemma {:induction false} ContainsPrefix(haystack: string, needle: string, prefix: string)
    requires prefix <= needle
    requires Contains(haystack, needle)
    ensures Contains(haystack, prefix)
    decreases |haystack|
  {
    if !(needle <= haystack) {
      ContainsPrefix(haystack[1..], needle, prefix);
    }
  }

  /** Every cacheable endpoint has a listed cost, never the default. */
  lemma CacheableHasListedCost(endpoint: string)
    requires ShouldCache(true, endpoint)
    ensures FirstMatch(endpoint, EndpointCosts).Some?
  {
    if Contains(endpoint, "/airports/") {
      ContainsPrefix(endpoint, "/airports/", "/airports");
      assert EndpointCosts[3].0 == "/airports";
    } else {
      assert EndpointCosts[0].0 == "/aircraft";
    }
  }

  // ---------------------------------------------------------------------
  // The cache gate of `_get`
  // ---------------------------------------------------------------------

  /** Whether `_get` reads and fills the cache, as written: the cache
      object itself is judged for truth, and an LRUCache defines
      `__len__`, so an empty cache counts as false. `size` is None when
      caching is disabled. */
  function UsesCacheAsWritten(useCache: bool, cacheable: bool, size: Option<nat>): (r: bool)
    ensures r <==> UsesCache(useCache, cacheable, size) && size != Some(0)
  {
    useCache && cacheable && size.Some? && size.value > 0
  }

  /** The evidently intended gate: the cache exists. */
  function UsesCache(useCache: bool, cacheable: bool, size: Option<nat>): (r: bool)
    ensures r ==> useCache && cacheable
    ensures useCache && cacheable && size == Some(0) ==> r
  {
    useCache && cacheable && size.Some?
  }

  /** Whether a cache of positive capacity, non-empty or not to start
      with, holds anything after a run of successful requests whose
      endpoints are cacheable or not, under the given gate. */
  function FilledAfter(gate: (bool, bool, Option<nat>) -> bool, cacheable: seq<bool>, filled: bool): (r: bool)
    ensures filled ==> r
  {
    if |cacheable| == 0 then filled
    else FilledAfter(gate, cacheable[1..], filled || gate(true, cacheable[0], Some(if filled then 1 else 0)))
  }

  /** As written, a cache that starts empty stays empty whatever is
      requested. */
  lemma {:induction false} EmptyCacheNeverFilled(cacheable: seq<bool>)
    ensures !FilledAfter(UsesCacheAsWritten, cacheable, false)
  {
    if |cacheable| > 0 {
      EmptyCacheNeverFilled(cacheable[1..]);
    }
  }

  /** With the intended gate, the cache holds something exactly when a
      cacheable endpoint was requested. */
  lemma {:induction false} CacheFilledByCacheable(cacheable: seq<bool>)
    ensures FilledAfter(UsesCache, cacheable, false) <==> exists i :: 0 <= i < |cacheable| && cacheable[i]
  {
    if |cacheable| > 0 {
      CacheFilledByCacheable(cacheable[1..]);
      if !cacheable[0] {
        assert forall i :: 0 < i < |cacheable| ==> cacheable[i] == cacheable[1..][i - 1];
      }
    }
  }

  // ---------------------------------------------------------------------
  // Paging
  // ---------------------------------------------------------------------

  /** One page of a response: the arrays under their keys, and
      `links.next` when present. */
  datatype Page = Page(data: map<string, seq<Value>>, next: Option<string>)

  const CursorMark: string := "cursor="

  /** Where the text after the last occurrence of `sep` at or after
      `from` starts: occurrences are taken from the left, each search
      resuming after the previous one, as `str.split` does. */
  function SepEndFrom(s: string, sep: string, from: nat): (i: nat)
    requires |sep| > 0 && from <= |s|
    ensures from <= i <= |s|
    ensures !Contains(s[i..], sep)
    ensures Contains(s[from..], sep) ==> i >= from + |sep| && s[i - |sep|..i] == sep
    ensures !Contains(s[from..], sep) ==> i == from
    decreases |s| - from
  {
    if !Contains(s[from..], sep) then from
    else if sep <= s[from..] then
      assert s[from..from + |sep|] == sep;
      SepEndFrom(s, sep, from + |sep|)
    else
      assert s[from..][1..] == s[from + 1..];
      SepEndFrom(s, sep, from + 1)
  }

  /** `s.split(sep)[-1]`: the text after the last occurrence of `sep`,
      which follows an occurrence and holds none; all of `s` when there
      is none. */
  function AfterLast(s: string, sep: string): (r: string)
    requires |sep| > 0
    ensures |r| <= |s| && r == s[|s| - |r|..]
    ensures !Contains(r, sep)
    ensures Contains(s, sep) ==> |r| + |sep| <= |s| && s[|s| - |r| - |sep|..|s| - |r|] == sep
    ensures !Contains(s, sep) ==> r == s
  {
    assert s[0..] == s;
    s[SepEndFrom(s, sep, 0)..]
  }

  /** The text before the first `&`, as `s.split("&")[0]`. */
  function BeforeAmpersand(s: string): (r: string)
    ensures r <= s
    ensures '&' !in r
    ensures |r| < |s| ==> s[|r|] == '&'
  {
    if |s| == 0 || s[0] == '&' then [] else [s[0]] + BeforeAmpersand(s[1..])
  }

  /** Whether the loop goes on after a page: it has a non-empty
      `links.next` holding `cursor=`. */
  predicate HasNext(page: Page)
  {
    page.next.Some? && |page.next.value| > 0 && Contains(page.next.value, CursorMark)
  }

  /** The cursor for the next page, or None when the loop stops. */
  function NextCursor(page: Page): (c: Option<string>)
    ensures c.Some? <==> HasNext(page)
    ensures c.Some? ==> c.value == BeforeAmpersand(AfterLast(page.next.value, CursorMark))
  {
    if HasNext(page) then Some(BeforeAmpersand(AfterLast(page.next.value, CursorMark))) else None
  }

  const ResultCandidates: seq<string> := ["flights", "arrivals", "departures", "positions"]

  /** The first candidate key present in the page. */
  function Detect(page: Page): (k: Option<string>)
    ensures k.Some? ==> k.value in ResultCandidates && k.value in page.data
    ensures k.None? ==> forall c :: c in ResultCandidates ==> c !in page.data
  {
    if "flights" in page.data then Some("flights")
    else if "arrivals" in page.data then Some("arrivals")
    else if "departures" in page.data then Some("departures")
    else if "positions" in page.data then Some("positions")
    else None
  }

  /** The result key in force while reading a page: the one given or
      detected earlier, else the one detected on this page. */
  function KeyFor(page: Page, key: Option<string>): Option<string>
  {
    if key.None? then Detect(page) else key
  }

  /** The result key after reading the pages. */
  function KeyAfter(pages: seq<Page>, key: Option<string>): Option<string>
  {
    if |pages| == 0 then key else KeyFor(pages[|pages| - 1], KeyAfter(pages[..|pages| - 1], key))
  }

  /** The records a page contributes under a key: none for a missing or
      empty key or one the page lacks. */
  function Chunk(page: Page, key: Option<string>): seq<Value>
  {
    if key.Some? && |key.value| > 0 && key.value in page.data then page.data[key.value] else []
  }

  /** All records the pages contribute, in order. */
  function Gathered(pages: seq<Page>, key: Option<string>): seq<Value>
  {
    if |pages| == 0 then []
    else Gathered(pages[..|pages| - 1], key) + Chunk(pages[|pages| - 1], KeyAfter(pages, key))
  }

  /** The pages a full run reads: up to `maxPages`, stopping after the
      first without a next cursor. */
  function PagesRead(responses: seq<Page>, maxPages: nat): (n: nat)
    requires maxPages <= |responses|
    ensures n <= maxPages
    ensures forall i :: 0 <= i < n - 1 ==> HasNext(responses[i])
    ensures n == maxPages || (n > 0 && !HasNext(responses[n - 1]))
    ensures maxPages > 0 ==> n > 0
  {
    if maxPages == 0 then 0
    else
      var before := PagesRead(responses, maxPages - 1);
      if before == maxPages - 1 && (before == 0 || HasNext(responses[before - 1])) then maxPages else before
  }

  /** Reading one more page extends the key and the records. */
  lemma PageStep(responses: seq<Page>, p: nat, key: Option<string>)
    requires p < |responses|
    ensures KeyAfter(responses[..p + 1], key) == KeyFor(responses[p], KeyAfter(responses[..p], key))
    ensures Gathered(responses[..p + 1], key)
      == Gathered(responses[..p], key) + Chunk(responses[p], KeyAfter(responses[..p + 1], key))
  {
    assert responses[..p + 1][..p] == responses[..p];
  }

  /** The cursors sent: the given one first, then the next cursor of each
      page read. */
  ghost predicate CursorsFollow(sent: seq<Option<string>>, cursor: Option<string>, responses: seq<Page>)
    requires |sent| <= |responses|
  {
    && (|sent| > 0 ==> sent[0] == cursor)
    && forall i :: 0 < i < |sent| ==> sent[i] == NextCursor(responses[i - 1])
  }

  /** Sending the next cursor keeps the cursors in step with the pages. */
  lemma CursorsFollowStep(sent: seq<Option<string>>, cursor: Option<string>, responses: seq<Page>, current: Option<string>)
    requires |sent| < |responses|
    requires CursorsFollow(sent, cursor, responses)
    requires |sent| == 0 ==> current == cursor
    requires |sent| > 0 ==> current == NextCursor(responses[|sent| - 1])
    ensures CursorsFollow(sent + [current], cursor, responses)
  {
  }

  /** `fetch_all_pages` as written. `responses[i]` answers the i-th
      request; `cursor` is the cursor already in the parameters, if any.
      It returns the records gathered and the cursor sent with each
      request. With `maxPages <= 0` the loop body never runs and the log
      line then reads the unbound loop variable: the call raises. */
  method FetchAllPagesAsWritten(maxPages: int, resultKey: Option<string>, cursor: Option<string>, responses: seq<Page>)
    returns (r: Result<seq<Value>>, sent: seq<Option<string>>)
    requires maxPages <= |responses|
    ensures |sent| <= |responses|
    ensures maxPages <= 0 <==> r.Err?
    ensures maxPages > 0 ==> |sent| == PagesRead(responses, maxPages)
    ensures maxPages > 0 ==> r == Ok(Gathered(responses[..|sent|], resultKey))
    ensures maxPages > 0 ==> sent[0] == cursor
    ensures forall i :: 0 < i < |sent| ==> sent[i] == NextCursor(responses[i - 1])
  {
    var results;
    results, sent := PageLoop(if maxPages < 0 then 0 else maxPages, resultKey, cursor, responses);
    if maxPages <= 0 {
      r := Err("UnboundLocalError: page_num");
    } else {
      r := Ok(results);
    }
  }

  /** The corrected `fetch_all_pages`: no pages asked, no records. */
  method FetchAllPages(maxPages: int, resultKey: Option<string>, cursor: Option<string>, responses: seq<Page>)
    returns (results: seq<Value>, sent: seq<Option<string>>)
    requires maxPages <= |responses|
    ensures maxPages <= 0 ==> results == [] && sent == []
    ensures |sent| == PagesRead(responses, if maxPages < 0 then 0 else maxPages)
    ensures results == Gathered(responses[..|sent|], resultKey)
    ensures |sent| > 0 ==> sent[0] == cursor
    ensures forall i :: 0 < i < |sent| ==> sent[i] == NextCursor(responses[i - 1])
  {
    results, sent := PageLoop(if maxPages < 0 then 0 else maxPages, resultKey, cursor, responses);
  }

  /** The loop of `fetch_all_pages`: at most `maxPages` requests, each
      after the first carrying the cursor of the page before; it stops
      after a page without a next cursor. */
  method PageLoop(maxPages: nat, resultKey: Option<string>, cursor: Option<string>, responses: seq<Page>)
    returns (results: seq<Value>, sent: seq<Option<string>>)
    requires maxPages <= |responses|
    ensures |sent| == PagesRead(responses, maxPages)
    ensures results == Gathered(responses[..|sent|], resultKey)
    ensures CursorsFollow(sent, cursor, responses)
  {
    results := [];
    sent := [];
    var key := resultKey;
    var current := cursor;
    var pageNum := 0;
    while pageNum < maxPages
      invariant 0 <= pageNum <= maxPages
      invariant |sent| == pageNum
      invariant PagesRead(responses, pageNum) == pageNum
      invariant CursorsFollow(sent, cursor, responses)
      invariant pageNum > 0 ==> current == NextCursor(responses[pageNum - 1]) && HasNext(responses[pageNum - 1])
      invariant pageNum == 0 ==> current == cursor
      invariant key == KeyAfter(responses[..pageNum], resultKey)
      invariant results == Gathered(responses[..pageNum], resultKey)
    {
      var data := responses[pageNum];
      PageLoopStep(responses, pageNum, resultKey, cursor, sent, current);
      sent := sent + [current];
      key := KeyFor(data, key);
      results := results + Chunk(data, key);
      pageNum := pageNum + 1;
      if !HasNext(data) {
        StopsAt(responses, pageNum, maxPages);
        break;
      }
      current := NextCursor(data);
    }
  }

  /** One turn of the page loop keeps its invariants: one more page is
      read, its cursor follows the pages before, and the key and the
      records extend by that page. */
  lemma PageLoopStep(responses: seq<Page>, p: nat, resultKey: Option<string>, cursor: Option<string>,
                     sent: seq<Option<string>>, current: Option<string>)
    requires p < |responses| && |sent| == p && PagesRead(responses, p) == p
    requires CursorsFollow(sent, cursor, responses)
    requires p > 0 ==> current == NextCursor(responses[p - 1]) && HasNext(responses[p - 1])
    requires p == 0 ==> current == cursor
    ensures PagesRead(responses, p + 1) == p + 1
    ensures CursorsFollow(sent + [current], cursor, responses)
    ensures KeyAfter(responses[..p + 1], resultKey) == KeyFor(responses[p], KeyAfter(responses[..p], resultKey))
    ensures Gathered(responses[..p + 1], resultKey)
      == Gathered(responses[..p], resultKey) + Chunk(responses[p], KeyAfter(responses[..p + 1], resultKey))
  {
    CursorsFollowStep(sent, cursor, responses, current);
    PageStep(responses, p, resultKey);
    ReadsOneMore(responses, p);
  }

  /** After pages that all had a next cursor, one more page is read. */
  lemma ReadsOneMore(responses: seq<Page>, p: nat)
    requires p < |responses| && PagesRead(responses, p) == p
    requires p > 0 ==> HasNext(responses[p - 1])
    ensures PagesRead(responses, p + 1) == p + 1
  {
  }

  /** Once a page has no next cursor, no later page is read. */
  lemma {:induction false} StopsAt(responses: seq<Page>, n: nat, maxPages: nat)
    requires 0 < n <= maxPages <= |responses|
    requires PagesRead(responses, n) == n
    requires !HasNext(responses[n - 1])
    ensures PagesRead(responses, maxPages) == n
    decreases maxPages
  {
    if maxPages > n {
      StopsAt(responses, n, maxPages - 1);
    }
  }
}
