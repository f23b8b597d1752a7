// What the limiter promises over whole runs of calls with a nondecreasing clock.
module LimiterRuns {
  import opened RateLimiter

  datatype Call = Call(key: string, at: int)

  ghost predicate Monotone(calls: seq<Call>) {
    |calls| >= 2 ==> calls[|calls| - 2].at <= calls[|calls| - 1].at && Monotone(calls[..|calls| - 1])
  }

  function StateAfter(calls: seq<Call>): Windows {
    if calls == [] then map[]
    else
      var last := calls[|calls| - 1];
      Allowed(StateAfter(calls[..|calls| - 1]), last.key, last.at)
  }

  // The answer the run's last call gets.
  predicate LastAdmitted(calls: seq<Call>)
    requires calls != []
  {
    var last := calls[|calls| - 1];
    Admits(StateAfter(calls[..|calls| - 1]), last.key, last.at)
  }

  // How many calls of the key made at or after lo were admitted.
  function AdmittedFrom(calls: seq<Call>, key: string, lo: int): (n: nat) {
    if calls == [] then 0
    else
      var last := calls[|calls| - 1];
      AdmittedFrom(calls[..|calls| - 1], key, lo) +
      if last.key == key && lo <= last.at && LastAdmitted(calls) then 1 else 0
  }

  // How many calls of the key made in the closed interval [lo, hi] were admitted.
  function AdmittedIn(calls: seq<Call>, key: string, lo: int, hi: int): (n: nat) {
    if calls == [] then 0
    else
      var last := calls[|calls| - 1];
      AdmittedIn(calls[..|calls| - 1], key, lo, hi) +
      if last.key == key && lo <= last.at <= hi && LastAdmitted(calls) then 1 else 0
  }

  // ---------------------------------------------------------------- purging is invisible

  function AllowedUnpurged(ws: Windows, key: string, now: int): Windows {
    if Opens(ws, key, now) then ws[key := Window(1, now)]
    else if ws[key].count < RATE_LIMIT then ws[key := ws[key].(count := ws[key].count + 1)]
    else ws
  }

  // A limiter that never deletes a window.
  function UnpurgedAfter(calls: seq<Call>): Windows {
    if calls == [] then map[]
    else
      var last := calls[|calls| - 1];
      AllowedUnpurged(UnpurgedAfter(calls[..|calls| - 1]), last.key, last.at)
  }

  // Every window the purging limiter has dropped had expired by now.
  ghost predicate OnlyExpiredDropped(ws: Windows, us: Windows, now: int) {
    && ws.Keys <= us.Keys
    && (forall k | k in ws :: ws[k] == us[k])
    && (forall k | k in us && k !in ws :: Expired(us[k], now))
  }

  lemma {:induction false} PurgeDropsOnlyExpired(calls: seq<Call>, now: int)
    requires Monotone(calls) && (calls != [] ==> calls[|calls| - 1].at <= now)
    ensures OnlyExpiredDropped(StateAfter(calls), UnpurgedAfter(calls), now)
  {
    if calls == [] {
    } else {
      PurgeDropsOnlyExpired(calls[..|calls| - 1], calls[|calls| - 1].at);
    }
  }

  // Main result: purging never changes an answer.
  lemma PurgeInvisible(calls: seq<Call>)
    requires calls != [] && Monotone(calls)
    ensures var front, last := calls[..|calls| - 1], calls[|calls| - 1];
      LastAdmitted(calls) == Admits(UnpurgedAfter(front), last.key, last.at)
  {
    PurgeDropsOnlyExpired(calls[..|calls| - 1], calls[|calls| - 1].at);
  }

  // Main result: right after a call opens a window the map holds at most
  // max(10001, number of unexpired windows) entries.
  lemma OpenedMapIsSmall(calls: seq<Call>)
    requires calls != []
    requires var last := calls[|calls| - 1]; Opens(StateAfter(calls[..|calls| - 1]), last.key, last.at)
    ensures var ws := StateAfter(calls);
      |ws| <= 10001 || ws == Unexpired(ws, calls[|calls| - 1].at)
  {
    var last := calls[|calls| - 1];
    var before := StateAfter(calls[..|calls| - 1]);
    if |before| <= PURGE_ABOVE {
      assert StateAfter(calls).Keys == before.Keys + {last.key};
    }
  }

  // A call leaves every other window of a map of up to 10000 as it is.
  lemma SmallMapIsKept(calls: seq<Call>, key: string)
    requires calls != [] && |StateAfter(calls[..|calls| - 1])| <= 10000 && key != calls[|calls| - 1].key
    ensures var before, after := StateAfter(calls[..|calls| - 1]), StateAfter(calls);
      key in after <==> key in before
    ensures var before, after := StateAfter(calls[..|calls| - 1]), StateAfter(calls);
      key in before ==> after[key] == before[key]
  {
  }

  // ------------------------------------------------------------------ the window bounds

  // The unpurged window of a key accounts for every admitted call of the key:
  // those since it opened are its count, and earlier ones lie more than a window back.
  ghost predicate Accounts(calls: seq<Call>, key: string, lo: int) {
    var us := UnpurgedAfter(calls);
    if key !in us then AdmittedFrom(calls, key, lo) == 0
    else
      var w := us[key];
      && 1 <= w.count <= RATE_LIMIT
      && AdmittedFrom(calls, key, w.start) == w.count
      && (lo > w.start ==> AdmittedFrom(calls, key, lo) <= w.count - 1)
      && (lo > w.start + RATE_WINDOW ==> AdmittedFrom(calls, key, lo) == 0)
      && (lo + RATE_WINDOW >= w.start ==> AdmittedFrom(calls, key, lo) <= RATE_LIMIT - 1 + w.count)
  }

  lemma {:induction false} WindowAccounts(calls: seq<Call>, key: string, lo: int)
    requires Monotone(calls)
    ensures Accounts(calls, key, lo)
    ensures AdmittedIn(calls, key, lo, lo + RATE_WINDOW) <= 2 * RATE_LIMIT - 1
  {
    if calls == [] {
    } else {
      var front, last := calls[..|calls| - 1], calls[|calls| - 1];
      WindowAccounts(front, key, lo);
      WindowAccounts(front, key, last.at);
      WindowStartBounded(front, key, last.at);
      PurgeInvisible(calls);
      InAtMostFrom(front, key, lo, lo + RATE_WINDOW);
    }
  }

  lemma {:induction false} InAtMostFrom(calls: seq<Call>, key: string, lo: int, hi: int)
    ensures AdmittedIn(calls, key, lo, hi) <= AdmittedFrom(calls, key, lo)
  {
    if calls == [] {
    } else {
      InAtMostFrom(calls[..|calls| - 1], key, lo, hi);
    }
  }

  lemma {:induction false} WindowStartBounded(calls: seq<Call>, key: string, now: int)
    requires Monotone(calls) && (calls != [] ==> calls[|calls| - 1].at <= now)
    ensures key in UnpurgedAfter(calls) ==> UnpurgedAfter(calls)[key].start <= now
  {
    if calls == [] {
    } else {
      WindowStartBounded(calls[..|calls| - 1], key, calls[|calls| - 1].at);
    }
  }

  // Main result: no closed interval of a minute holds more than 119 admitted calls of one key.
  lemma SlidingIntervalBound(calls: seq<Call>, key: string, lo: int)
    requires Monotone(calls)
    ensures AdmittedIn(calls, key, lo, lo + 60_000_000_000) <= 119
  {
    WindowAccounts(calls, key, lo);
  }

  // Main result: the calls admitted since the key's window opened are its count,
  // and they are at most 60.
  lemma WindowBound(calls: seq<Call>, key: string)
    requires Monotone(calls) && key in StateAfter(calls)
    ensures var w := StateAfter(calls)[key];
      AdmittedFrom(calls, key, w.start) == w.count <= 60
  {
    PurgeDropsOnlyExpired(calls, calls[|calls| - 1].at);
    WindowAccounts(calls, key, 0);
  }

  // Main result: after a run of calls, the next one is refused only if 60 calls of its key
  // were admitted within the minute that ends with it.
  lemma RefusalIsEarned(calls: seq<Call>, next: Call)
    requires Monotone(calls) && (calls != [] ==> calls[|calls| - 1].at <= next.at)
    requires !Admits(StateAfter(calls), next.key, next.at)
    ensures AdmittedFrom(calls, next.key, next.at - 60_000_000_000) >= 60
  {
    PurgeDropsOnlyExpired(calls, next.at);
    FullWindow(calls, next.key, next.at);
  }

  lemma FullWindow(calls: seq<Call>, key: string, now: int)
    requires Monotone(calls) && !Admits(UnpurgedAfter(calls), key, now)
    ensures AdmittedFrom(calls, key, now - RATE_WINDOW) >= RATE_LIMIT
  {
    WindowAccounts(calls, key, 0);
    FromIsMonotone(calls, key, now - RATE_WINDOW, UnpurgedAfter(calls)[key].start);
  }

  lemma {:induction false} FromIsMonotone(calls: seq<Call>, key: string, lo: int, lo': int)
    requires lo <= lo'
    ensures AdmittedFrom(calls, key, lo) >= AdmittedFrom(calls, key, lo')
  {
    if calls == [] {
    } else {
      FromIsMonotone(calls[..|calls| - 1], key, lo, lo');
    }
  }

  // ----------------------------------------------------------------- the bound is tight

  // A run of one call at 0, then n at the end of its window, then m just after.
  ghost predicate IsBurst(calls: seq<Call>, key: string, n: nat, m: nat) {
    && Monotone(calls) && calls != []
    && calls[|calls| - 1].at <= (if m > 0 then RATE_WINDOW + 1 else RATE_WINDOW)
    && StateAfter(calls) == map[key := if m == 0 then Window(1 + n, 0) else Window(m, RATE_WINDOW + 1)]
    && AdmittedIn(calls, key, 1, 1 + RATE_WINDOW) == n + m
  }

  // One more call at the end of a run.
  lemma CallAppended(calls: seq<Call>, c: Call, key: string, lo: int, hi: int)
    ensures Monotone(calls) && (calls != [] ==> calls[|calls| - 1].at <= c.at) ==> Monotone(calls + [c])
    ensures StateAfter(calls + [c]) == Allowed(StateAfter(calls), c.key, c.at)
    ensures AdmittedIn(calls + [c], key, lo, hi) == AdmittedIn(calls, key, lo, hi) +
      if c.key == key && lo <= c.at <= hi && Admits(StateAfter(calls), c.key, c.at) then 1 else 0
  {
    assert (calls + [c])[..|calls|] == calls;
  }

  lemma AllowedAlone(key: string, w: Window, now: int)
    requires w.count < RATE_LIMIT || Expired(w, now)
    ensures Admits(map[key := w], key, now)
    ensures Allowed(map[key := w], key, now) ==
      map[key := if Expired(w, now) then Window(1, now) else Window(w.count + 1, w.start)]
  {
    assert |map[key := w]| == 1;
  }

  lemma BurstGrows(calls: seq<Call>, key: string, n: nat, m: nat, at: int)
    requires IsBurst(calls, key, n, m)
    requires if at == RATE_WINDOW then n + 1 < RATE_LIMIT && m == 0 else at == RATE_WINDOW + 1 && m < RATE_LIMIT
    ensures if at == RATE_WINDOW then IsBurst(calls + [Call(key, at)], key, n + 1, m)
      else IsBurst(calls + [Call(key, at)], key, n, m + 1)
  {
    CallAppended(calls, Call(key, at), key, 1, 1 + RATE_WINDOW);
    AllowedAlone(key, StateAfter(calls)[key], at);
  }

  lemma BurstBegins(key: string) returns (calls: seq<Call>)
    ensures IsBurst(calls, key, 0, 0)
  {
    calls := [] + [Call(key, 0)];
    CallAppended([], Call(key, 0), key, 1, 1 + RATE_WINDOW);
    assert |calls| == 1;
  }

  lemma BurstExists(key: string, n: nat, m: nat) returns (calls: seq<Call>)
    requires n < RATE_LIMIT && m <= RATE_LIMIT
    ensures IsBurst(calls, key, n, m)
  {
    if m > 0 {
      calls := BurstExists(key, n, m - 1);
      BurstGrows(calls, key, n, m - 1, RATE_WINDOW + 1);
      calls := calls + [Call(key, RATE_WINDOW + 1)];
    } else if n > 0 {
      calls := BurstExists(key, n - 1, 0);
      BurstGrows(calls, key, n - 1, 0, RATE_WINDOW);
      calls := calls + [Call(key, RATE_WINDOW)];
    } else {
      calls := BurstBegins(key);
    }
  }

  // Main result: the bound is the best possible.
  lemma SlidingIntervalBoundIsReached(key: string)
    ensures exists calls ::
      Monotone(calls) && AdmittedIn(calls, key, 1, 1 + 60_000_000_000) == 119
  {
    var calls := BurstExists(key, RATE_LIMIT - 1, RATE_LIMIT);
  }
}
