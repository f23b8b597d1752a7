// Concurrent ResolveText calls: lookup, fetch and insert are separate steps, so several
// callers may miss on the same URI at once.
module LookupRuns {
  import opened EvictingCache

  datatype Phase = Fetching(uri: string) | Fetched(uri: string, answer: Answer)

  // A result handed to a caller, the time its cache entry was made and the time it was served.
  datatype Served = Served(uri: string, answer: Answer, cachedAt: int, at: int)

  // The network said answer about uri at a time.
  datatype Fetch = Fetch(uri: string, answer: Answer, at: int)

  datatype State = State(
    now: int,
    cache: Entries<Answer>,
    callers: map<nat, Phase>,   // callers between a miss and their insert
    misses: nat, evictions: nat,
    fetches: set<Fetch>,        // every fetch result so far
    hits: set<Served>)          // every answer served from the cache so far

  datatype Config = Config(max: nat, ttls: Ttls)

  datatype Step = Tick | Hit(uri: string) | Miss(caller: nat, uri: string) | Answered(caller: nat, answer: Answer) | Insert(caller: nat)

  ghost predicate Init(s: State) {
    s.cache == map[] && s.callers == map[] && s.misses == 0 && s.evictions == 0 && s.fetches == {} && s.hits == {}
  }

  ghost predicate Next(c: Config, s: State, step: Step, s': State) {
    match step
    case Tick =>
      s'.now >= s.now && s' == s.(now := s'.now)
    case Hit(uri) =>
      && uri != "" && FreshFor(s.cache, uri, c.ttls, s.now)
      && s' == s.(hits := s.hits + {Served(uri, s.cache[uri].value, s.cache[uri].cachedAt, s.now)})
    case Miss(caller, uri) =>
      && uri != "" && caller !in s.callers && !FreshFor(s.cache, uri, c.ttls, s.now)
      && s' == s.(misses := s.misses + 1, callers := s.callers[caller := Fetching(uri)])
    case Answered(caller, answer) =>
      && caller in s.callers && s.callers[caller].Fetching?
      && var uri := s.callers[caller].uri;
      s' == s.(callers := s.callers[caller := Fetched(uri, answer)], fetches := s.fetches + {Fetch(uri, answer, s.now)})
    case Insert(caller) =>
      && caller in s.callers && s.callers[caller].Fetched?
      && var p := s.callers[caller];
      && StoredInto(s.cache, s'.cache, c.max, p.uri, Entry(p.answer, s.now))
      && s' == s.(cache := s'.cache, callers := s.callers - {caller},
                  evictions := s.evictions + if |s.cache| < c.max then 0 else 1)
  }

  // A run records the state before each step and the step.
  ghost predicate Run(c: Config, states: seq<State>, steps: seq<Step>) {
    && |states| == |steps| + 1 && Init(states[0])
    && forall i | 0 <= i < |steps| :: Next(c, states[i], steps[i], states[i + 1])
  }

  // ------------------------------------------------------------------------- invariant

  ghost predicate WasFetched(s: State, uri: string, answer: Answer, until: int) {
    exists at :: at <= until && Fetch(uri, answer, at) in s.fetches
  }

  ghost predicate CallersSound(s: State) {
    forall t | t in s.callers && s.callers[t].Fetched? :: WasFetched(s, s.callers[t].uri, s.callers[t].answer, s.now)
  }

  ghost predicate CacheSound(s: State) {
    forall k | k in s.cache ::
      s.cache[k].cachedAt <= s.now && WasFetched(s, k, s.cache[k].value, s.cache[k].cachedAt)
  }

  function TtlOf(c: Config, a: Answer): int {
    if a.negative then c.ttls.negative else c.ttls.positive
  }

  ghost predicate HitsSound(c: Config, s: State) {
    forall h | h in s.hits ::
      h.cachedAt <= h.at <= s.now && h.at - h.cachedAt < TtlOf(c, h.answer) && WasFetched(s, h.uri, h.answer, h.cachedAt)
  }

  ghost predicate Counts(c: Config, s: State) {
    && |s.cache| <= c.max
    && |s.cache| + s.evictions * Quarter(c.max) + |s.callers| <= s.misses
  }

  lemma FetchesGrow(s: State, s': State, uri: string, answer: Answer, until: int, until': int)
    requires s.fetches <= s'.fetches && until <= until' && WasFetched(s, uri, answer, until)
    ensures WasFetched(s', uri, answer, until')
  {
    var at :| at <= until && Fetch(uri, answer, at) in s.fetches;
    assert Fetch(uri, answer, at) in s'.fetches;
  }

  lemma NextKeepsCounts(c: Config, s: State, step: Step, s': State)
    requires c.max > 0 && Counts(c, s) && Next(c, s, step, s')
    ensures Counts(c, s')
  {
    match step
    case Miss(caller, uri) =>
      MapGrows(s.callers, caller, Fetching(uri));
    case Answered(caller, answer) =>
      assert s'.callers.Keys == s.callers.Keys;
      assert |s'.callers.Keys| == |s'.callers| && |s.callers.Keys| == |s.callers|;
    case Insert(caller) =>
      InsertKeepsCounts(c, s, caller, s');
    case Tick =>
    case Hit(uri) =>
  }

  lemma InsertKeepsCounts(c: Config, s: State, caller: nat, s': State)
    requires c.max > 0 && Counts(c, s) && Next(c, s, Insert(caller), s')
    ensures Counts(c, s')
  {
    var p := s.callers[caller];
    InsertSize(s.cache, s'.cache, c.max, p.uri, Entry(p.answer, s.now));
    MapShrinks(s.callers, caller);
    OneMoreTimes(s.evictions, Quarter(c.max));
    assert s'.evictions * Quarter(c.max) ==
      s.evictions * Quarter(c.max) + if |s.cache| < c.max then 0 else Quarter(c.max);
  }

  lemma AtLeastOnce(n: nat, q: nat)
    requires q >= 1
    ensures n <= n * q
  {
    assert n * q == n + n * (q - 1);
  }

  lemma OneMoreTimes(n: nat, q: nat)
    ensures (n + 1) * q == n * q + q
  {
  }

  // An insert never goes above the cap, and one that evicts leaves a quarter less one free.
  lemma InsertSize(before: Entries<Answer>, after: Entries<Answer>, max: nat, key: string, e: Entry<Answer>)
    requires 0 < max && |before| <= max && StoredInto(before, after, max, key, e)
    ensures |after| <= max
    ensures |after| + (if |before| < max then 0 else Quarter(max)) <= |before| + 1
  {
    if |before| < max {
      MapGrows(before, key, e);
    } else {
      var kept: Entries<Answer> :| QuarterEvicted(before, kept) && after == kept[key := e];
      MapGrows(kept, key, e);
    }
  }

  lemma MapShrinks<V>(m: map<nat, V>, k: nat)
    requires k in m
    ensures |m - {k}| == |m| - 1
  {
    assert (m - {k}).Keys == m.Keys - {k};
    assert |(m - {k}).Keys| == |m - {k}| && |m.Keys| == |m|;
  }

  lemma MapGrows<K, V>(m: map<K, V>, k: K, v: V)
    ensures |m| <= |m[k := v]| <= |m| + 1
  {
    assert m[k := v].Keys == m.Keys + {k};
    assert |m[k := v].Keys| == |m[k := v]| && |m.Keys| == |m|;
    if k in m {
      assert m.Keys + {k} == m.Keys;
    }
  }

  lemma NextKeepsSound(c: Config, s: State, step: Step, s': State)
    requires CallersSound(s) && CacheSound(s) && HitsSound(c, s) && Next(c, s, step, s')
    ensures CallersSound(s') && CacheSound(s') && HitsSound(c, s')
  {
    assert s.fetches <= s'.fetches && s.now <= s'.now;
    forall t | t in s'.callers && s'.callers[t].Fetched?
      ensures WasFetched(s', s'.callers[t].uri, s'.callers[t].answer, s'.now)
    {
      if t in s.callers && s.callers[t] == s'.callers[t] {
        FetchesGrow(s, s', s.callers[t].uri, s.callers[t].answer, s.now, s'.now);
      } else {
        assert step.Answered? && Fetch(s'.callers[t].uri, s'.callers[t].answer, s.now) in s'.fetches;
      }
    }
    CacheStaysSound(c, s, step, s');
    forall h | h in s'.hits
      ensures h.cachedAt <= h.at <= s'.now && h.at - h.cachedAt < TtlOf(c, h.answer)
      ensures WasFetched(s', h.uri, h.answer, h.cachedAt)
    {
      FetchesGrow(s, s', h.uri, h.answer, h.cachedAt, h.cachedAt);
    }
  }

  lemma CacheStaysSound(c: Config, s: State, step: Step, s': State)
    requires CallersSound(s) && CacheSound(s) && Next(c, s, step, s')
    ensures CacheSound(s')
  {
    forall k | k in s'.cache
      ensures s'.cache[k].cachedAt <= s'.now && WasFetched(s', k, s'.cache[k].value, s'.cache[k].cachedAt)
    {
      if k in s.cache && s'.cache[k] == s.cache[k] {
        FetchesGrow(s, s', k, s.cache[k].value, s.cache[k].cachedAt, s.cache[k].cachedAt);
      } else {
        var p := s.callers[step.caller];
        assert k == p.uri && s'.cache[k] == Entry(p.answer, s.now);
        FetchesGrow(s, s', k, p.answer, s.now, s.now);
      }
    }
  }

  // -------------------------------------------------------------------------- results

  // Main result: in every interleaving the cache stays within its cap, and the evictions,
  // each freeing a quarter of the cap, are paid for by misses.
  lemma {:induction false} RunCounts(c: Config, states: seq<State>, steps: seq<Step>)
    requires c.max > 0 && Run(c, states, steps)
    ensures var s := states[|steps|];
      |s.cache| <= c.max && s.evictions <= s.misses && (c.max >= 4 ==> s.evictions * (c.max / 4) <= s.misses)
    ensures Counts(c, states[|steps|])
  {
    AtLeastOnce(states[|steps|].evictions, Quarter(c.max));
    if steps == [] {
    } else {
      var n := |steps| - 1;
      RunCounts(c, states[..n + 1], steps[..n]);
      NextKeepsCounts(c, states[n], steps[n], states[n + 1]);
    }
  }

  // Main result: in every interleaving, whatever was served from the cache was fetched for
  // that same URI and cached less than its time to live before.
  lemma {:induction false} RunServesFreshAnswers(c: Config, states: seq<State>, steps: seq<Step>)
    requires Run(c, states, steps)
    ensures var s := states[|steps|];
      forall h | h in s.hits ::
        && 0 <= h.at - h.cachedAt < (if h.answer.negative then c.ttls.negative else c.ttls.positive)
        && WasFetched(s, h.uri, h.answer, h.cachedAt)
    ensures var s := states[|steps|]; CallersSound(s) && CacheSound(s) && HitsSound(c, s)
  {
    if steps == [] {
    } else {
      var n := |steps| - 1;
      RunServesFreshAnswers(c, states[..n + 1], steps[..n]);
      NextKeepsSound(c, states[n], steps[n], states[n + 1]);
    }
  }

  // Main result: a fetch is made only for what is not cached or no longer fresh.
  lemma FreshIsNotFetched(c: Config, s: State, caller: nat, uri: string, s': State)
    requires Next(c, s, Miss(caller, uri), s')
    ensures uri !in s.cache ||
      s.now - s.cache[uri].cachedAt >= if s.cache[uri].value.negative then c.ttls.negative else c.ttls.positive
  {
  }
}
