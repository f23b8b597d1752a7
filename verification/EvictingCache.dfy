// The bounded in-memory caches of the post-text and DID resolvers.
module EvictingCache {
  import opened Common

  datatype Entry<+V> = Entry(value: V, cachedAt: int)

  type Entries<+V> = map<string, Entry<V>>

  // ------------------------------------------------------------------ specification

  function Quarter(n: nat): nat {
    Max(1, n / 4)
  }

  // A quarter of the entries went, none of them more recent than any that stayed.
  ghost predicate QuarterEvicted<V(!new)>(before: Entries<V>, after: Entries<V>) {
    OldestGone(before, after) && |after| + Quarter(|before|) == |before|
  }

  ghost predicate OldestGone<V(!new)>(before: Entries<V>, after: Entries<V>) {
    && after.Keys <= before.Keys
    && (forall k | k in after :: after[k] == before[k])
    && forall k, k' | k in before && k !in after && k' in after :: before[k].cachedAt <= before[k'].cachedAt
  }

  lemma AllOldestGone<V(!new)>(cache: Entries<V>)
    ensures OldestGone(cache, cache) && (cache != map[] ==> |cache| >= 1)
  {
    assert cache != map[] ==> cache.Keys != {};
  }

  // The fourth part of n, without the remainder, but at least one.
  predicate FourthOf(n: nat, part: int) {
    if n < 4 then part == 1 else 4 * part <= n < 4 * (part + 1)
  }

  // Main result: how many go: one of fewer than four, else as many quarters as there are.
  lemma QuarterExactly<V(!new)>(before: Entries<V>, after: Entries<V>)
    requires before != map[] && QuarterEvicted(before, after)
    ensures FourthOf(|before|, |before| - |after|)
    ensures forall k, k' | k in before && k !in after && k' in after :: before[k].cachedAt <= after[k'].cachedAt
  {
    AllOldestGone(before);
  }

  // Storing an entry, making room first when the cache is full.
  ghost predicate StoredInto<V(!new)>(before: Entries<V>, after: Entries<V>, max: nat, key: string, e: Entry<V>) {
    if |before| < max then after == before[key := e]
    else exists kept: Entries<V> :: QuarterEvicted(before, kept) && after == kept[key := e]
  }

  // Main result: what storing does. The entry is there; nothing else is added or changed;
  // with room, nothing goes; without, a quarter goes first.
  lemma StoringExactly<V(!new)>(before: Entries<V>, after: Entries<V>, max: nat, key: string, e: Entry<V>)
    requires StoredInto(before, after, max, key, e) && max > 0
    ensures key in after && after[key] == e
    ensures forall k | k in after && k != key :: k in before && after[k] == before[k]
    ensures |before| < max ==> forall k | k in before :: k in after
    ensures |before| >= max ==>
      exists kept: Entries<V> :: after == kept[key := e] && kept.Keys <= before.Keys && FourthOf(|before|, |before| - |kept|)
  {
    if |before| >= max {
      var kept: Entries<V> :| QuarterEvicted(before, kept) && after == kept[key := e];
      assert before != map[];
      QuarterExactly(before, kept);
    }
  }

  // ------------------------------------------------------------------- swap and remove

  datatype Stamp = Stamp(key: string, cachedAt: int)

  // The list holds every cached key once, with its time.
  ghost predicate Lists<V>(entries: seq<Stamp>, cache: Entries<V>) {
    && |entries| == |cache|
    && Sound(entries, cache) && Distinct(entries)
    && (forall k | k in cache :: Stamp(k, cache[k].cachedAt) in entries)
  }

  ghost predicate Sound<V>(entries: seq<Stamp>, cache: Entries<V>) {
    forall i | 0 <= i < |entries| :: entries[i].key in cache && cache[entries[i].key].cachedAt == entries[i].cachedAt
  }

  ghost predicate Distinct(entries: seq<Stamp>) {
    forall i, j | 0 <= i < j < |entries| :: entries[i].key != entries[j].key
  }

  lemma ListsOneMore<V>(entries: seq<Stamp>, seen: Entries<V>, k: string, e: Entry<V>)
    requires Lists(entries, seen) && k !in seen
    ensures Lists(entries + [Stamp(k, e.cachedAt)], seen[k := e])
  {
    SizeOfPut(seen, k, e);
    assert Sound(entries, seen) && Distinct(entries);
    forall i | 0 <= i < |entries|
      ensures entries[i].key != k
    {
    }
  }

  lemma SizeOfPut<V>(m: Entries<V>, k: string, e: Entry<V>)
    requires k !in m
    ensures |m[k := e]| == |m| + 1
  {
    assert m[k := e].Keys == m.Keys + {k};
    assert |m[k := e].Keys| == |m[k := e]| && |m.Keys| == |m|;
  }

  lemma SizeOfDelete<V>(m: Entries<V>, k: string)
    requires k in m
    ensures |m - {k}| == |m| - 1
  {
    assert (m - {k}).Keys == m.Keys - {k};
    assert |(m - {k}).Keys| == |m - {k}| && |m.Keys| == |m|;
  }

  lemma NothingListed<V>(cache: Entries<V>)
    ensures Lists([], cache - cache.Keys) && cache - {} == cache
  {
  }

  lemma ListsNext<V>(entries: seq<Stamp>, cache: Entries<V>, todo: set<string>, k: string)
    requires k in todo && todo <= cache.Keys && Lists(entries, cache - todo)
    ensures Lists(entries + [Stamp(k, cache[k].cachedAt)], cache - (todo - {k}))
    ensures |entries| < |cache|
  {
    ListsOneMore(entries, cache - todo, k, cache[k]);
    assert cache - (todo - {k}) == (cache - todo)[k := cache[k]];
    SizeOfRest(cache, todo, k);
  }

  lemma SizeOfRest<V>(cache: Entries<V>, todo: set<string>, k: string)
    requires k in todo && todo <= cache.Keys
    ensures |cache - todo| < |cache|
  {
    var rest := (cache - todo).Keys;
    assert |rest + {k}| == |rest| + 1;
    SubsetSize(rest + {k}, cache.Keys);
    assert |rest| == |cache - todo| && |cache.Keys| == |cache|;
  }

  ghost function SwapRemoved(entries: seq<Stamp>, i: nat): seq<Stamp>
    requires i < |entries|
  {
    entries[i := entries[|entries| - 1]][..|entries| - 1]
  }

  lemma SwapRemoveLists<V>(entries: seq<Stamp>, i: nat, cache: Entries<V>)
    requires i < |entries| && Lists(entries, cache)
    ensures Lists(SwapRemoved(entries, i), cache - {entries[i].key})
  {
    SizeOfDelete(cache, entries[i].key);
    SwapRemovedIs(entries, i);
    SwapRemoveKeeps(entries, i, cache);
    SwapRemoveSound(entries, i, cache);
  }

  lemma SwapRemovedIs(entries: seq<Stamp>, i: nat)
    requires i < |entries|
    ensures var left := SwapRemoved(entries, i);
      |left| == |entries| - 1 && forall j | 0 <= j < |left| :: left[j] == if j == i then entries[|entries| - 1] else entries[j]
  {
  }

  lemma SwapRemoveSound<V>(entries: seq<Stamp>, i: nat, cache: Entries<V>)
    requires i < |entries| && Sound(entries, cache) && Distinct(entries)
    ensures Sound(SwapRemoved(entries, i), cache - {entries[i].key})
    ensures Distinct(SwapRemoved(entries, i))
  {
    SwapRemovedIs(entries, i);
  }

  lemma SwapRemoveKeeps<V>(entries: seq<Stamp>, i: nat, cache: Entries<V>)
    requires i < |entries| && Lists(entries, cache)
    ensures forall k | k in cache && k != entries[i].key :: Stamp(k, cache[k].cachedAt) in SwapRemoved(entries, i)
  {
    var left := SwapRemoved(entries, i);
    forall k | k in cache && k != entries[i].key
      ensures Stamp(k, cache[k].cachedAt) in left
    {
      var j :| 0 <= j < |entries| && entries[j] == Stamp(k, cache[k].cachedAt);
      assert left[if j == |entries| - 1 then i else j] == entries[j];
    }
  }

  method Append(entries: array<Stamp>, n: nat, e: Stamp)
    requires n < entries.Length
    modifies entries
    ensures entries[..n + 1] == old(entries[..n]) + [e]
  {
    entries[n] := e;
  }

  method SwapRemove(entries: array<Stamp>, n: nat, i: nat)
    requires i < n <= entries.Length
    modifies entries
    ensures entries[..n - 1] == SwapRemoved(old(entries[..n]), i)
  {
    entries[i] := entries[n - 1];
  }

  // ------------------------------------------------------------------------- the cache

  class Cache<V(!new)> {
    var cache: Entries<V>
    const maxCacheSize: nat

    // The cap must be positive, so other sizes give way to the default.
    constructor (size: int, defaultSize: nat)
      requires defaultSize > 0
      ensures cache == map[] && maxCacheSize == (if size <= 0 then defaultSize else size) > 0
    {
      cache := map[];
      maxCacheSize := if size <= 0 then defaultSize else size;
    }

    method ListEntries() returns (entries: array<Stamp>)
      ensures fresh(entries) && Lists(entries[..], cache)
    {
      entries := new Stamp[|cache|];
      var todo := cache.Keys;
      NothingListed(cache);
      assert entries[..0] == [];
      var n := 0;
      while todo != {}
        invariant todo <= cache.Keys && n <= entries.Length && Lists(entries[..n], cache - todo)
        decreases todo
      {
        var k :| k in todo;
        ListEntry(entries, n, k, todo);
        todo := todo - {k};
        n := n + 1;
      }
      assert entries[..n] == entries[..];
    }

    method ListEntry(entries: array<Stamp>, n: nat, k: string, ghost todo: set<string>)
      requires n <= entries.Length == |cache| && k in todo && todo <= cache.Keys && Lists(entries[..n], cache - todo)
      modifies entries
      ensures n < entries.Length && Lists(entries[..n + 1], cache - (todo - {k}))
    {
      ListsNext(entries[..n], cache, todo, k);
      Append(entries, n, Stamp(k, cache[k].cachedAt));
    }

    // evictOldest: repeated minimum selection with swap-remove. An empty cache would
    // make the first selection index out of range.
    method EvictOldest()
      requires cache != map[]
      modifies this`cache
      ensures QuarterEvicted(old(cache), cache)
      ensures FourthOf(|old(cache)|, |old(cache)| - |cache|)
    {
      var entries := ListEntries();
      var n := entries.Length;
      var toEvict := n / 4;
      if toEvict < 1 {
        toEvict := 1;
      }
      ghost var first := cache;
      AllOldestGone(first);
      assert entries[..n] == entries[..];
      RemoveSome(entries, toEvict, first);
      QuarterExactly(first, cache);
    }

    // The outer loop.
    method RemoveSome(entries: array<Stamp>, toEvict: nat, ghost first: Entries<V>)
      requires toEvict <= entries.Length && Evicting(entries, entries.Length, first)
      modifies this`cache, entries
      ensures Evicting(entries, entries.Length - toEvict, first)
    {
      var n := entries.Length;
      for i := 0 to toEvict
        invariant n == entries.Length - i && Evicting(entries, n, first)
      {
        RemoveOldest(entries, n, first);
        n := n - 1;
      }
    }

    // The first n of the list are what is left of the first cache, its oldest gone.
    ghost predicate Evicting(entries: array<Stamp>, n: nat, first: Entries<V>)
      reads this, entries
    {
      n <= entries.Length && Lists(entries[..n], cache) && OldestGone(first, cache)
    }

    // One round: delete the oldest entry and move the last one into its place.
    method RemoveOldest(entries: array<Stamp>, n: nat, ghost first: Entries<V>)
      requires 1 <= n && Evicting(entries, n, first)
      modifies this`cache, entries
      ensures Evicting(entries, n - 1, first) && OldestGone(old(cache), cache)
    {
      var oldestIdx := OldestIndex(entries, n);
      OldestRemoved(entries[..n], oldestIdx, first, cache);
      Drop(entries, n, oldestIdx);
    }

    // Deletes one entry from the cache and from the list.
    method Drop(entries: array<Stamp>, n: nat, i: nat)
      requires i < n <= entries.Length
      modifies this`cache, entries
      ensures cache == old(cache) - {old(entries[i]).key}
      ensures entries[..n - 1] == SwapRemoved(old(entries[..n]), i)
    {
      cache := cache - {entries[i].key};
      SwapRemove(entries, n, i);
    }

    // The inner loop: the first index of the least time.
    method OldestIndex(entries: array<Stamp>, n: nat) returns (oldestIdx: nat)
      requires 1 <= n <= entries.Length
      ensures oldestIdx < n && forall j | 0 <= j < n :: entries[oldestIdx].cachedAt <= entries[j].cachedAt
    {
      oldestIdx := 0;
      for j := 1 to n
        invariant oldestIdx < n && forall m | 0 <= m < j :: entries[oldestIdx].cachedAt <= entries[m].cachedAt
      {
        if entries[j].cachedAt < entries[oldestIdx].cachedAt {
          oldestIdx := j;
        }
      }
    }

    // The write-locked section of a lookup.
    method Put(key: string, value: V, now: int)
      requires maxCacheSize > 0
      modifies this`cache
      ensures StoredInto(old(cache), cache, maxCacheSize, key, Entry(value, now))
    {
      if |cache| >= maxCacheSize {
        EvictOldest();
      }
      cache := cache[key := Entry(value, now)];
    }
  }

  lemma OldestRemoved<V(!new)>(entries: seq<Stamp>, i: nat, first: Entries<V>, cache: Entries<V>)
    requires i < |entries| && Lists(entries, cache) && OldestGone(first, cache)
    requires forall j | 0 <= j < |entries| :: entries[i].cachedAt <= entries[j].cachedAt
    ensures var rest := cache - {entries[i].key};
      Lists(SwapRemoved(entries, i), rest) && OldestGone(first, rest) && OldestGone(cache, rest)
  {
    SwapRemoveLists(entries, i, cache);
    OldestGoes(entries, i, first, cache);
    OldestGoes(entries, i, cache, cache);
  }

  lemma OldestGoes<V(!new)>(entries: seq<Stamp>, i: nat, first: Entries<V>, cache: Entries<V>)
    requires i < |entries| && Lists(entries, cache)
    requires forall j | 0 <= j < |entries| :: entries[i].cachedAt <= entries[j].cachedAt
    requires OldestGone(first, cache)
    ensures OldestGone(first, cache - {entries[i].key})
  {
    forall k | k in cache
      ensures entries[i].cachedAt <= cache[k].cachedAt
    {
      assert Stamp(k, cache[k].cachedAt) in entries;
    }
  }

  // ------------------------------------------------------------------------- lookups

  datatype Answer = Answer(text: string, negative: bool)

  datatype Ttls = Ttls(positive: int, negative: int)

  predicate FreshFor(cache: Entries<Answer>, uri: string, ttls: Ttls, now: int) {
    uri in cache && now - cache[uri].cachedAt < if cache[uri].value.negative then ttls.negative else ttls.positive
  }

  // ResolveText with no other caller in between: fetched is what the network would say,
  // later the time at which the answer is stored.
  method ResolveText(r: Cache<Answer>, ttls: Ttls, uri: string, now: int, fetched: Answer, later: int)
    returns (text: string, asked: bool)
    requires r.maxCacheSize > 0
    modifies r`cache
    ensures asked <==> uri != "" && !FreshFor(old(r.cache), uri, ttls, now)
    ensures text == if uri == "" then "" else if asked then fetched.text else old(r.cache)[uri].value.text
    ensures if asked then StoredInto(old(r.cache), r.cache, r.maxCacheSize, uri, Entry(fetched, later))
      else r.cache == old(r.cache)
  {
    if uri == "" {
      return "", false;
    }
    if uri in r.cache {
      var entry := r.cache[uri];
      var ttl := ttls.positive;
      if entry.value.negative {
        ttl := ttls.negative;
      }
      if now - entry.cachedAt < ttl {
        return entry.value.text, false;
      }
    }
    r.Put(uri, fetched, later);
    return fetched.text, true;
  }

  // ResolveDID: one time to live, and a failed fetch is not cached.
  method ResolveDID<Doc(!new)>(r: Cache<Doc>, ttl: int, did: string, now: int, fetched: Option<Doc>, later: int)
    returns (doc: Option<Doc>)
    requires r.maxCacheSize > 0
    modifies r`cache
    ensures var hit := did in old(r.cache) && now - old(r.cache)[did].cachedAt < ttl;
      && doc == (if hit then Some(old(r.cache)[did].value) else fetched)
      && if hit || fetched.None? then r.cache == old(r.cache)
         else StoredInto(old(r.cache), r.cache, r.maxCacheSize, did, Entry(fetched.value, later))
  {
    if did in r.cache && now - r.cache[did].cachedAt < ttl {
      return Some(r.cache[did].value);
    }
    if fetched.None? {
      return None;
    }
    r.Put(did, fetched.value, later);
    return fetched;
  }
}
