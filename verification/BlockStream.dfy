// Following the block records of the network: who has a live record against whom.
module BlockStream {
  import opened StoreState
  import opened StoreRuns

  datatype Event =
    | Create(blocker: string, blocked: string, rkey: string)
    | Delete(blocker: string, rkey: string)
    | Restarting

  function OpOf(e: Event): Op {
    match e
    case Create(blocker, blocked, rkey) => Block(blocker, blocked, rkey)
    case Delete(blocker, rkey) => UnblockByRKey(blocker, rkey)
    case Restarting => Restart
  }

  // The records that exist in the network after some events: (blocker, rkey) to blocked.
  type Records = map<Pair, string>

  function Live(events: seq<Event>): Records {
    if events == [] then map[] else LiveAfter(Live(events[..|events| - 1]), events[|events| - 1])
  }

  function LiveAfter(live: Records, e: Event): Records {
    match e
    case Create(blocker, blocked, rkey) => live[(blocker, rkey) := blocked]
    case Delete(blocker, rkey) => live - {(blocker, rkey)}
    case Restarting => live
  }

  // Records name an rkey and a subject; the handlers drop events that do not.
  predicate Named(e: Event) {
    e.Create? ==> e.rkey != "" && e.blocked != ""
  }

  ghost predicate Follows(states: seq<State>, events: seq<Event>) {
    && |states| == |events| + 1 && states[0] == EMPTY
    && (forall i | 0 <= i < |events| :: Named(events[i]))
    && (forall i | 0 <= i < |events| :: Next(states[i], OpOf(events[i]), states[i + 1]))
  }

  ghost predicate HasRecord(live: Records, blocker: string, blocked: string) {
    exists rkey :: (blocker, rkey) in live && live[(blocker, rkey)] == blocked
  }

  // ---------------------------------------------------------- one record per pair and rkey

  // A live rkey is only written again with its own subject, and a pair with a live
  // record gets no second rkey.
  ghost predicate OneRecord(live: Records, e: Event) {
    e.Create? ==>
      && ((e.blocker, e.rkey) in live ==> live[(e.blocker, e.rkey)] == e.blocked)
      && (forall rkey | (e.blocker, rkey) in live && live[(e.blocker, rkey)] == e.blocked :: rkey == e.rkey)
  }

  ghost predicate WellFormed(events: seq<Event>) {
    forall i | 0 <= i < |events| :: OneRecord(Live(events[..i]), events[i])
  }

  // The rkey index is the set of live records, and the table is its inverse.
  ghost predicate Mirrors(s: State, live: Records) {
    && s.blocksByRKey == live
    && s.blocks == s.blockRows.Keys
    && (forall k | k in live :: k.1 != "" && live[k] != "" && (k.0, live[k]) in s.blockRows && s.blockRows[(k.0, live[k])] == k.1)
    && (forall p | p in s.blockRows :: (p.0, s.blockRows[p]) in live && live[(p.0, s.blockRows[p])] == p.1)
  }

  lemma CreateMirrors(s: State, live: Records, e: Event)
    requires Mirrors(s, live) && e.Create? && Named(e) && OneRecord(live, e)
    ensures Mirrors(AddBlock(s, e.blocker, e.blocked, e.rkey), LiveAfter(live, e))
  {
    if (e.blocker, e.blocked) in s.blockRows {
      ReplayMirrors(s, live, e);
    } else {
      NewRecordMirrors(s, live, e);
    }
  }

  lemma ReplayMirrors(s: State, live: Records, e: Event)
    requires Mirrors(s, live) && e.Create? && Named(e) && OneRecord(live, e) && (e.blocker, e.blocked) in s.blockRows
    ensures AddBlock(s, e.blocker, e.blocked, e.rkey) == s && LiveAfter(live, e) == live
  {
    var pair := (e.blocker, e.blocked);
    assert (e.blocker, s.blockRows[pair]) in live && s.blockRows[pair] == e.rkey;
    assert s.blocks + {pair} == s.blocks && live[(e.blocker, e.rkey) := e.blocked] == live;
  }

  lemma NewRecordMirrors(s: State, live: Records, e: Event)
    requires Mirrors(s, live) && e.Create? && Named(e) && OneRecord(live, e) && (e.blocker, e.blocked) !in s.blockRows
    ensures Mirrors(AddBlock(s, e.blocker, e.blocked, e.rkey), LiveAfter(live, e))
  {
    var s', live' := AddBlock(s, e.blocker, e.blocked, e.rkey), LiveAfter(live, e);
    assert (e.blocker, e.rkey) !in live;
    assert s'.blocks == s'.blockRows.Keys && s'.blocksByRKey == live';
    assert forall p | p in s.blockRows :: (p.0, s.blockRows[p]) in live;
  }

  lemma DeleteMirrors(s: State, live: Records, e: Event)
    requires Mirrors(s, live) && e.Delete?
    ensures Mirrors(RemoveBlockByRKey(s, e.blocker, e.rkey), LiveAfter(live, e))
  {
    var s' := RemoveBlockByRKey(s, e.blocker, e.rkey);
    if (e.blocker, e.rkey) !in live {
      assert LiveAfter(live, e) == live;
    }
  }

  lemma NextMirrors(s: State, live: Records, e: Event, s': State)
    requires Mirrors(s, live) && Named(e) && OneRecord(live, e) && Next(s, OpOf(e), s')
    ensures Mirrors(s', LiveAfter(live, e))
  {
    match e
    case Create(_, _, _) => CreateMirrors(s, live, e);
    case Delete(_, _) => DeleteMirrors(s, live, e);
    case Restarting => IndexIsDetermined(s'.blocksByRKey, live, s.blockRows);
  }

  // Rows that are the inverse of live leave only one possible index.
  lemma IndexIsDetermined(index: Records, live: Records, rows: map<Pair, string>)
    requires IndexesRows(index, rows)
    requires forall k | k in live :: k.1 != "" && (k.0, live[k]) in rows && rows[(k.0, live[k])] == k.1
    requires forall p | p in rows :: (p.0, rows[p]) in live && live[(p.0, rows[p])] == p.1
    ensures index == live
  {
    forall k | k in live
      ensures k in index
    {
      var p := (k.0, live[k]);
      assert (p.0, rows[p]) == k;
    }
  }

  // Main result: on every well-formed stream, restarts included, a pair is blocked exactly
  // when a live record exists in either direction, and the rkey index is the live records.
  lemma {:induction false} WellFormedStream(states: seq<State>, events: seq<Event>)
    requires Follows(states, events) && WellFormed(events)
    ensures Mirrors(states[|events|], Live(events))
    ensures forall x, y :: IsBlocked(states[|events|], x, y) <==>
      HasRecord(Live(events), x, y) || HasRecord(Live(events), y, x)
  {
    if events == [] {
    } else {
      var n := |events| - 1;
      assert forall i | 0 <= i < n :: events[..n][..i] == events[..i];
      WellFormedStream(states[..n + 1], events[..n]);
      NextMirrors(states[n], Live(events[..n]), events[n], states[n + 1]);
    }
    forall x, y
      ensures (x, y) in states[|events|].blocks <==> HasRecord(Live(events), x, y)
    {
      PairBlockedIff(states[|events|], Live(events), x, y);
    }
  }

  lemma PairBlockedIff(s: State, live: Records, x: string, y: string)
    requires Mirrors(s, live)
    ensures (x, y) in s.blocks <==> HasRecord(live, x, y)
  {
    if (x, y) in s.blockRows {
      assert (x, s.blockRows[(x, y)]) in live;
    }
    if HasRecord(live, x, y) {
      var rkey :| (x, rkey) in live && live[(x, rkey)] == y;
      assert (x, live[(x, rkey)]) in s.blockRows;
    }
  }

  // Main result: a restart in the middle of a well-formed stream rebuilds the same rkey index.
  lemma RestartKeepsIndex(states: seq<State>, events: seq<Event>, s': State)
    requires Follows(states, events) && WellFormed(events) && Restarted(states[|events|], s')
    ensures s'.blocksByRKey == states[|events|].blocksByRKey
  {
    WellFormedStream(states, events);
    var s := states[|events|];
    IndexIsDetermined(s'.blocksByRKey, Live(events), s.blockRows);
  }

  // ------------------------------------------------------------------ streams that fail

  // A stream the store does not follow: two records for one pair, the first one deleted.
  // The pair still has a live record but is no longer blocked.
  lemma SecondRecordIsLost(a: string, b: string, r1: string, r2: string)
    requires b != "" && r1 != "" && r2 != "" && r1 != r2
    ensures var s := Apply(Apply(Apply(EMPTY, Block(a, b, r1)), Block(a, b, r2)), UnblockByRKey(a, r1));
      HasRecord(Live([Create(a, b, r1), Create(a, b, r2), Delete(a, r1)]), a, b) && !IsBlocked(s, a, b)
  {
    var events := [Create(a, b, r1), Create(a, b, r2), Delete(a, r1)];
    assert events[..2] == [Create(a, b, r1), Create(a, b, r2)] && events[..2][..1] == [Create(a, b, r1)];
    assert [Create(a, b, r1)][..0] == [];
    assert Live([Create(a, b, r1)]) == map[(a, r1) := b];
    assert Live(events[..2]) == map[(a, r1) := b, (a, r2) := b];
    assert Live(events)[(a, r2)] == b;
  }

  // Another one: a pair written twice, its first rkey written again with another subject, a
  // restart, and the second rkey deleted. The restart forgot that rkey, so the pair stays
  // blocked without a record.
  lemma RestartForgetsRKey(a: string, b: string, d: string, r1: string, r2: string, restarted: State)
    requires b != d && r1 != "" && r1 != r2
    requires Restarted(Apply(Apply(Apply(EMPTY, Block(a, b, r1)), Block(a, b, r2)), Block(a, d, r1)), restarted)
    ensures IsBlocked(RemoveBlockByRKey(restarted, a, r2), a, b)
    ensures !HasRecord(map[(a, r1) := b, (a, r2) := b][(a, r1) := d] - {(a, r2)}, a, b)
  {
    var rows := map[(a, b) := r1, (a, d) := r1];
    assert restarted.blockRows == rows;
    assert (a, r2) !in restarted.blocksByRKey;
  }
}
