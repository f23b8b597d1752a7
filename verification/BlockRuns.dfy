// How long the gateway keeps the promise that a block suppresses notifications: runs of the
// watcher's commits, handled or lost, of token requests, of backfills and of restarts.
module BlockRuns {
  import opened Common
  import opened Push
  import S = StoreState
  import Runs = StoreRuns
  import C = Consumer
  import B = BlockStream

  datatype Event =
    | Handled(actor: string, commit: C.Commit)                            // by the watcher
    | Lost(actor: string, commit: C.Commit)                               // before it is handled
    | Backfilled(blocker: string, blocked: string, rkey: string)          // one listed record
    | Asked(op: Runs.Op)                                                  // tokens, restarts

  // A backfill skips records without a subject or an rkey.
  function Backfill(s: S.State, blocker: string, blocked: string, rkey: string): S.State {
    if blocked == "" || rkey == "" then s else S.AddBlock(s, blocker, blocked, rkey)
  }

  // A commit is lost when it cannot be read, when the queue is full, when a restart comes
  // before it is recorded, or when it is sent while the process is down.
  ghost predicate Step(setup: C.Setup, s: S.State, e: Event, s': S.State) {
    match e
    case Handled(actor, c) =>
      exists calls :: C.Sent(C.RequestsOf(s, actor, c, setup), C.Recorded(s, actor, c), calls, s', setup)
    case Lost(_, _) => s' == s
    case Backfilled(blocker, blocked, rkey) => s' == Backfill(s, blocker, blocked, rkey)
    case Asked(op) => (op.Register? || op.Unregister? || op.Restart?) && Runs.Next(s, op, s')
  }

  ghost predicate Run(setup: C.Setup, states: seq<S.State>, events: seq<Event>) {
    && |states| == |events| + 1 && states[0] == S.EMPTY
    && forall i | 0 <= i < |events| :: Step(setup, states[i], events[i], states[i + 1])
  }

  // ---------------------------------------------------------- the records of the network

  predicate Writes(c: C.Commit) {
    c.operation == "create" || c.operation == "update"
  }

  // The subject a commit writes into a block record, if it is one.
  function Written(c: C.Commit): Option<string> {
    if Writes(c) && c.record.Graph? && c.record.subject != "" then Some(c.record.subject) else None
  }

  // The records of the network after the first n events, those whose commit is lost
  // included. Commits count in the order in which they are handled or lost.
  function Live(events: seq<Event>, n: nat): B.Records
    requires n <= |events|
  {
    if n == 0 then map[] else LiveAfter(Live(events, n - 1), events[n - 1])
  }

  // Commits to the block collection that change a record.
  predicate OnBlocks(e: Event) {
    (e.Handled? || e.Lost?) && e.commit.collection == C.BLOCK && (Writes(e.commit) || e.commit.operation == "delete")
  }

  function Key(e: Event): S.Pair
    requires e.Handled? || e.Lost?
  {
    (e.actor, e.commit.rkey)
  }

  function LiveAfter(live: B.Records, e: Event): B.Records {
    if !OnBlocks(e) then live
    else
      match Written(e.commit)
      case Some(subject) => live[Key(e) := subject]
      case None => live - {Key(e)}
  }

  // Whether a record other than the one at this rkey holds the pair.
  ghost predicate Another(live: B.Records, blocker: string, blocked: string, rkey: string) {
    exists other :: other != rkey && (blocker, other) in live && live[(blocker, other)] == blocked
  }

  lemma RecordAfter(live: B.Records, e: Event, blocker: string, blocked: string)
    requires OnBlocks(e)
    ensures B.HasRecord(LiveAfter(live, e), blocker, blocked) <==>
      if blocker == e.actor then Written(e.commit) == Some(blocked) || Another(live, blocker, blocked, e.commit.rkey)
      else B.HasRecord(live, blocker, blocked)
  {
    var live' := LiveAfter(live, e);
    if B.HasRecord(live', blocker, blocked) {
      var r :| (blocker, r) in live' && live'[(blocker, r)] == blocked;
      assert (blocker, r) == Key(e) || ((blocker, r) in live && live[(blocker, r)] == blocked);
    }
    if blocker == e.actor && Another(live, blocker, blocked, e.commit.rkey) {
      var r :| r != e.commit.rkey && (blocker, r) in live && live[(blocker, r)] == blocked;
      assert (blocker, r) in live' && live'[(blocker, r)] == blocked;
    }
    if blocker == e.actor && Written(e.commit) == Some(blocked) {
      assert Key(e) in live' && live'[Key(e)] == blocked;
    }
    if blocker != e.actor && B.HasRecord(live, blocker, blocked) {
      var r :| (blocker, r) in live && live[(blocker, r)] == blocked;
      assert (blocker, r) in live' && live'[(blocker, r)] == blocked;
    }
  }

  lemma RecordBefore(live: B.Records, blocker: string, blocked: string, rkey: string)
    ensures B.HasRecord(live, blocker, blocked) <==>
      Another(live, blocker, blocked, rkey) || ((blocker, rkey) in live && live[(blocker, rkey)] == blocked)
  {
    if B.HasRecord(live, blocker, blocked) {
      var r :| (blocker, r) in live && live[(blocker, r)] == blocked;
      assert r == rkey || Another(live, blocker, blocked, rkey);
    }
    if Another(live, blocker, blocked, rkey) {
      var r :| r != rkey && (blocker, r) in live && live[(blocker, r)] == blocked;
      assert B.HasRecord(live, blocker, blocked);
    }
    if (blocker, rkey) in live && live[(blocker, rkey)] == blocked {
      assert B.HasRecord(live, blocker, blocked);
    }
  }

  // ----------------------------------------------------------- what an event does to pairs

  // The pair a commit adds: the watcher wants one side registered.
  predicate Adds(s: S.State, e: Event) {
    && e.Handled? && OnBlocks(e) && e.commit.operation == "create" && Written(e.commit).Some?
    && (e.actor in s.registered || Written(e.commit).value in s.registered)
  }

  // The subject the rkey index names for a deletion, or "".
  function Removed(s: S.State, e: Event): string
    requires OnBlocks(e)
  {
    if e.Handled? && e.commit.operation == "delete" && e.commit.rkey != "" then S.Lookup(s.blocksByRKey, Key(e)) else ""
  }

  // The blocked pairs afterwards.
  function PairsAfter(s: S.State, e: Event): set<S.Pair> {
    match e
    case Handled(actor, c) =>
      if Adds(s, e) then s.blocks + {(actor, Written(c).value)}
      else if OnBlocks(e) && Removed(s, e) != "" then s.blocks - {(actor, Removed(s, e))}
      else s.blocks
    case Backfilled(blocker, blocked, rkey) =>
      if blocked == "" || rkey == "" then s.blocks else s.blocks + {(blocker, blocked)}
    case Lost(_, _) => s.blocks
    case Asked(_) => s.blocks
  }

  ghost predicate TableIsIndexed(s: S.State) {
    s.blocks == s.blockRows.Keys
  }

  lemma StepPairs(setup: C.Setup, s: S.State, e: Event, s': S.State)
    requires TableIsIndexed(s) && Step(setup, s, e, s')
    ensures s'.blocks == PairsAfter(s, e) && TableIsIndexed(s')
  {
    if e.Handled? {
      var calls :| C.Sent(C.RequestsOf(s, e.actor, e.commit, setup), C.Recorded(s, e.actor, e.commit), calls, s', setup);
      C.SentPrunes(C.RequestsOf(s, e.actor, e.commit, setup), C.Recorded(s, e.actor, e.commit), calls, s', setup);
      RecordedPairs(s, e);
    }
  }

  lemma RecordedPairs(s: S.State, e: Event)
    requires TableIsIndexed(s) && e.Handled?
    ensures var s' := C.Recorded(s, e.actor, e.commit); s'.blocks == PairsAfter(s, e) && TableIsIndexed(s')
  {
    var c := e.commit;
    if c.collection != C.BLOCK {
      assert C.Recorded(s, e.actor, c).blocks == s.blocks && C.Recorded(s, e.actor, c).blockRows == s.blockRows;
    } else if c.operation == "create" {
      CreatedPairs(s, e);
    } else if c.operation == "delete" && c.rkey != "" {
      DeletedPairs(s, e);
    } else {
      assert C.Recorded(s, e.actor, c) == s;
    }
  }

  lemma CreatedPairs(s: S.State, e: Event)
    requires TableIsIndexed(s) && e.Handled? && e.commit.collection == C.BLOCK && e.commit.operation == "create"
    ensures var s' := C.Recorded(s, e.actor, e.commit); s'.blocks == PairsAfter(s, e) && TableIsIndexed(s')
  {
    assert C.Recorded(s, e.actor, e.commit) ==
      if Adds(s, e) then S.AddBlock(s, e.actor, e.commit.record.subject, e.commit.rkey) else s;
  }

  lemma DeletedPairs(s: S.State, e: Event)
    requires TableIsIndexed(s) && e.Handled? && e.commit.collection == C.BLOCK && e.commit.operation == "delete"
    requires e.commit.rkey != ""
    ensures var s' := C.Recorded(s, e.actor, e.commit); s'.blocks == PairsAfter(s, e) && TableIsIndexed(s')
  {
    assert C.Recorded(s, e.actor, e.commit) == S.RemoveBlockByRKey(s, e.actor, e.commit.rkey);
  }

  lemma StepAgrees(setup: C.Setup, s: S.State, e: Event, s': S.State)
    requires Runs.IndexesAgree(s) && Step(setup, s, e, s')
    ensures Runs.IndexesAgree(s')
  {
    match e
    case Handled(actor, c) =>
      var rs, mid := C.RequestsOf(s, actor, c, setup), C.Recorded(s, actor, c);
      var calls :| C.Sent(rs, mid, calls, s', setup);
      C.RecordAgrees(s, actor, c);
      C.SentPrunes(rs, mid, calls, s', setup);
      C.PrunedAgrees(mid, s', C.AttemptsOf(calls));
    case Lost(_, _) =>
    case Backfilled(blocker, blocked, rkey) =>
      Runs.NextAgrees(s, Runs.Block(blocker, blocked, rkey), S.AddBlock(s, blocker, blocked, rkey));
    case Asked(op) => Runs.NextAgrees(s, op, s');
  }

  lemma {:induction false} RunAgrees(setup: C.Setup, states: seq<S.State>, events: seq<Event>, i: nat)
    requires Run(setup, states, events) && i <= |events|
    ensures Runs.IndexesAgree(states[i])
  {
    if i == 0 {
      assert forall did :: S.TokensOf(S.EMPTY.tokens, did) == {};
    } else {
      RunAgrees(setup, states, events, i - 1);
      StepAgrees(setup, states[i - 1], events[i - 1], states[i]);
    }
  }

  // Who is registered afterwards, as far as it matters: commits and the like only take away.
  lemma StepRegistered(setup: C.Setup, s: S.State, e: Event, s': S.State)
    requires Runs.IndexesAgree(s) && Step(setup, s, e, s')
    ensures OnBlocks(e) || e.Backfilled? || (e.Asked? && e.op.Restart?) ==> s'.registered == s.registered
    ensures e.Asked? && e.op.Register? ==> s'.registered == s.registered + if Accepted(s, e) then {e.op.did} else {}
    ensures !Accepted(s, e) ==> s'.registered <= s.registered
  {
    if e.Handled? {
      HandledRegistered(setup, s, e, s');
    }
  }

  lemma HandledRegistered(setup: C.Setup, s: S.State, e: Event, s': S.State)
    requires Runs.IndexesAgree(s) && e.Handled? && Step(setup, s, e, s')
    ensures s'.registered <= s.registered && (OnBlocks(e) ==> s'.registered == s.registered)
  {
    var rs, mid := C.RequestsOf(s, e.actor, e.commit, setup), C.Recorded(s, e.actor, e.commit);
    var calls :| C.Sent(rs, mid, calls, s', setup);
    RecordedRegistered(s, e.actor, e.commit);
    if OnBlocks(e) {
      assert rs == [];
    } else {
      C.SentPrunes(rs, mid, calls, s', setup);
      C.DidsShrink(mid.tokens, s'.tokens);
    }
  }

  lemma RecordedRegistered(s: S.State, actor: string, c: C.Commit)
    ensures C.Recorded(s, actor, c).registered == s.registered && C.Recorded(s, actor, c).tokens == s.tokens
  {
  }

  // A registration that goes through.
  predicate Accepted(s: S.State, e: Event) {
    e.Asked? && e.op.Register? && S.CanRegister(s, e.op.did, e.op.platform, e.op.token)
  }

  // ------------------------------------------------------------------- the promise kept

  // A block exists between the two.
  ghost predicate BlockExists(live: B.Records, x: string, y: string) {
    B.HasRecord(live, x, y) || B.HasRecord(live, y, x)
  }

  // If a block exists between the two and one of them can be notified, the two are blocked.
  ghost predicate Silent(s: S.State, live: B.Records, x: string, y: string) {
    BlockExists(live, x, y) && (x in s.registered || y in s.registered) ==> S.IsBlocked(s, x, y)
  }

  // Which is to say: if a block exists, no notification between them passes its gate.
  lemma SilentIsNoOpenGate(s: S.State, live: B.Records, x: string, y: string)
    ensures Silent(s, live, x, y) <==>
      (BlockExists(live, x, y) ==> forall r: C.Request |
        (r.actor == x && r.target == y) || (r.actor == y && r.target == x) :: !C.Gate(s, r))
  {
    var there, back := C.Request(x, y, "follow", "", "", ""), C.Request(y, x, "follow", "", "", "");
    assert C.Gate(s, there) <==> y in s.registered && !S.IsBlocked(s, x, y);
    assert C.Gate(s, back) <==> x in s.registered && !S.IsBlocked(s, x, y);
  }

  // The other one of the two.
  function OtherOf(x: string, y: string, one: string): string {
    if one == x then y else x
  }

  // What an event must not do while one of the two is registered. A commit that writes a
  // record between them must be handled as a creation, or the two must be blocked already; a
  // handled deletion must not take their pair while another record holds the two, unless the
  // other direction is blocked; and neither may be registered over a record that is not
  // blocked.
  ghost predicate Keeps(s: S.State, live: B.Records, e: Event, x: string, y: string) {
    && (OnBlocks(e) && (e.actor == x || e.actor == y) && (x in s.registered || y in s.registered) ==>
          var o := OtherOf(x, y, e.actor);
          && (Written(e.commit) == Some(o) ==> Adds(s, e) || S.IsBlocked(s, x, y))
          && (Removed(s, e) != "" && Removed(s, e) == o && RecordLeft(live, e, o) ==> o != e.actor && (o, e.actor) in s.blocks))
    && (Accepted(s, e) && (e.op.did == x || e.op.did == y) && BlockExists(live, x, y) ==> S.IsBlocked(s, x, y))
  }

  // A record other than the deleted one holds the two, in either direction.
  ghost predicate RecordLeft(live: B.Records, e: Event, subject: string)
    requires e.Handled? || e.Lost?
  {
    Another(live, e.actor, subject, e.commit.rkey) || (subject != e.actor && B.HasRecord(live, subject, e.actor))
  }

  lemma StepSilent(setup: C.Setup, s: S.State, live: B.Records, e: Event, s': S.State, x: string, y: string)
    requires Runs.IndexesAgree(s) && Step(setup, s, e, s') && Silent(s, live, x, y)
    ensures Silent(s', LiveAfter(live, e), x, y) <==> Keeps(s, live, e, x, y)
  {
    StepPairs(setup, s, e, s');
    StepRegistered(setup, s, e, s');
    if OnBlocks(e) {
      if e.actor == x || e.actor == y {
        BlockBetween(s, live, e, s', x, y);
      } else {
        BlockElsewhere(s, live, e, s', x, y);
      }
    }
  }

  lemma BlockElsewhere(s: S.State, live: B.Records, e: Event, s': S.State, x: string, y: string)
    requires OnBlocks(e) && e.actor != x && e.actor != y
    requires s'.blocks == PairsAfter(s, e) && s'.registered == s.registered && Silent(s, live, x, y)
    ensures Silent(s', LiveAfter(live, e), x, y)
  {
    RecordAfter(live, e, x, y);
    RecordAfter(live, e, y, x);
  }

  lemma BlockBetween(s: S.State, live: B.Records, e: Event, s': S.State, x: string, y: string)
    requires OnBlocks(e) && (e.actor == x || e.actor == y)
    requires s'.blocks == PairsAfter(s, e) && s'.registered == s.registered && Silent(s, live, x, y)
    ensures Silent(s', LiveAfter(live, e), x, y) <==> Keeps(s, live, e, x, y)
  {
    var a, o := e.actor, OtherOf(x, y, e.actor);
    RecordAfter(live, e, a, o);
    RecordAfter(live, e, o, a);
    RecordBefore(live, a, o, e.commit.rkey);
    assert BlockExists(LiveAfter(live, e), x, y) <==> Written(e.commit) == Some(o) || RecordLeft(live, e, o);
    assert S.IsBlocked(s, x, y) <==> (a, o) in s.blocks || (o, a) in s.blocks;
  }

  ghost predicate SilentThroughout(states: seq<S.State>, events: seq<Event>, from: nat, x: string, y: string)
    requires |states| == |events| + 1
  {
    forall j | from <= j <= |events| :: Silent(states[j], Live(events, j), x, y)
  }

  ghost predicate KeepsThroughout(states: seq<S.State>, events: seq<Event>, from: nat, x: string, y: string)
    requires |states| == |events| + 1
  {
    forall j | from <= j < |events| :: Keeps(states[j], Live(events, j), events[j], x, y)
  }

  // Main result: for any two people, from any moment at which the promise holds for them,
  // such as the empty store, it holds ever after exactly when every event keeps it. Backfills,
  // unregistrations and the loading of the indexes always do; a block commit between the two,
  // those lost over a restart included, and a registration of one of them, as Keeps says.
  lemma PromiseKeptExactly(setup: C.Setup, states: seq<S.State>, events: seq<Event>, from: nat, x: string, y: string)
    requires Run(setup, states, events) && from <= |events| && Silent(states[from], Live(events, from), x, y)
    ensures SilentThroughout(states, events, from, x, y) <==> KeepsThroughout(states, events, from, x, y)
  {
    forall j: nat | from <= j < |events| && Silent(states[j], Live(events, j), x, y)
      ensures Silent(states[j + 1], Live(events, j + 1), x, y) <==> Keeps(states[j], Live(events, j), events[j], x, y)
    {
      RunAgrees(setup, states, events, j);
      StepSilent(setup, states[j], Live(events, j), events[j], states[j + 1], x, y);
    }
    if KeepsThroughout(states, events, from, x, y) {
      forall j | from <= j <= |events|
        ensures Silent(states[j], Live(events, j), x, y)
      {
        SilentUpTo(states, events, from, j, x, y);
      }
    }
    if SilentThroughout(states, events, from, x, y) {
      forall j: nat | from <= j < |events|
        ensures Keeps(states[j], Live(events, j), events[j], x, y)
      {
        assert Silent(states[j], Live(events, j), x, y) && Silent(states[j + 1], Live(events, j + 1), x, y);
      }
    }
  }

  lemma {:induction false} SilentUpTo(states: seq<S.State>, events: seq<Event>, from: nat, j: nat, x: string, y: string)
    requires |states| == |events| + 1 && from <= j <= |events| && Silent(states[from], Live(events, from), x, y)
    requires forall k | from <= k < |events| && Silent(states[k], Live(events, k), x, y) ::
      Silent(states[k + 1], Live(events, k + 1), x, y)
    ensures Silent(states[j], Live(events, j), x, y)
  {
    if j == from {
    } else {
      SilentUpTo(states, events, from, j - 1, x, y);
    }
  }

  // Main result: while the promise is kept for two people between whom a block exists, no
  // commit sends a notification from one to the other, whatever holds for anybody else.
  lemma NoNotificationAcrossABlock(setup: C.Setup, s: S.State, live: B.Records, actor: string, c: C.Commit,
                                   calls: C.Calls, s': S.State, a: Attempt<C.Notification>)
    requires C.Sent(C.RequestsOf(s, actor, c, setup), C.Recorded(s, actor, c), calls, s', setup)
    requires a in C.AttemptsOf(calls) && Silent(s, live, actor, a.note.recipientDid)
    ensures !BlockExists(live, actor, a.note.recipientDid)
  {
    C.CommitNotifiesOnlyAllowed(s, s', actor, c, calls, setup);
  }

  // A record that a backfill lists is silent from then on.
  lemma ListedIsSilent(s: S.State, live: B.Records, x: string, y: string, rkey: string)
    requires y != "" && rkey != ""
    ensures Silent(Backfill(s, x, y, rkey), live, x, y)
  {
  }

  // Registering over a record that the store has missed breaks it, until a backfill lists it.
  lemma RegistrationBreaksIt(x: string, y: string, token: string, rkey: string)
    requires x != y && y != "" && rkey != ""
    ensures var create := C.Commit("create", C.BLOCK, rkey, C.Graph(y));
      var s := C.Recorded(S.EMPTY, x, create);
      var live := LiveAfter(map[], Handled(x, create));
      && Keeps(S.EMPTY, map[], Handled(x, create), x, y)
      && (forall did, t :: did == x || did == y ==> !Keeps(s, live, Asked(Runs.Register(did, "ios", t, "app")), x, y))
      && !Silent(S.RegisterToken(s, y, "ios", token, "app"), live, x, y)
      && Silent(Backfill(S.RegisterToken(s, y, "ios", token, "app"), x, y, rkey), live, x, y)
  {
    var live := LiveAfter(map[], Handled(x, C.Commit("create", C.BLOCK, rkey, C.Graph(y))));
    assert (x, rkey) in live && live[(x, rkey)] == y;
    assert B.HasRecord(live, x, y);
    forall did, t
      ensures S.CanRegister(S.EMPTY, did, "ios", t)
    {
      assert S.TokensOf(S.EMPTY.tokens, did) - {t} == {};
    }
  }

  // A block whose commit is lost breaks it, whoever is registered: two registered people,
  // the block of one by the other dropped, and a follow that still notifies.
  lemma LostBlockIsMissed(x: string, y: string, token: string, token': string, rkey: string)
    requires x != y && y != ""
    ensures var s := S.RegisterToken(S.RegisterToken(S.EMPTY, x, "ios", token, "app"), y, "ios", token', "app");
      var lost := Lost(x, C.Commit("create", C.BLOCK, rkey, C.Graph(y)));
      && BlockExists(LiveAfter(map[], lost), x, y) && !Keeps(s, map[], lost, x, y)
      && C.Gate(s, C.Request(x, y, "follow", "", "", ""))
  {
    Runs.FirstTokenRegisters(S.EMPTY, x, token);
    Runs.FirstTokenRegisters(S.RegisterToken(S.EMPTY, x, "ios", token, "app"), y, token');
    var live := LiveAfter(map[], Lost(x, C.Commit("create", C.BLOCK, rkey, C.Graph(y))));
    assert (x, rkey) in live && live[(x, rkey)] == y;
  }

  // Workers may handle the creation and the deletion of one record in the wrong order. Then
  // the network has no record left, but the pair stays blocked, as long as a side is registered.
  lemma ReorderedBlockStays(s: S.State, x: string, y: string, rkey: string)
    requires y != "" && rkey != "" && (x, rkey) !in s.blocksByRKey && (x in s.registered || y in s.registered)
    ensures var create := C.Commit("create", C.BLOCK, rkey, C.Graph(y));
      var delete := C.Commit("delete", C.BLOCK, rkey, C.Unreadable);
      && LiveAfter(LiveAfter(map[], Handled(x, create)), Handled(x, delete)) == map[]
      && (x, y) !in C.Recorded(C.Recorded(s, x, create), x, delete).blocks
      && (x, y) in C.Recorded(C.Recorded(s, x, delete), x, create).blocks
  {
    var create := C.Commit("create", C.BLOCK, rkey, C.Graph(y));
    assert LiveAfter(map[], Handled(x, create)) == map[(x, rkey) := y];
  }

  // ---------------------------------------------------- exactly the records, per blocker

  // The blocked pairs of one blocker are those with a record.
  ghost predicate Follows(s: S.State, live: B.Records, x: string) {
    forall y :: (x, y) in s.blocks <==> B.HasRecord(live, x, y)
  }

  // What keeps it so. The commit that writes a record must be handled while a side is
  // registered, or its pair must be blocked already; a handled deletion must not take a pair
  // that another record holds; a record that goes without its pair, as when its deletion is
  // lost, must leave another one behind; and a backfill must list a record that still exists.
  ghost predicate Safe(s: S.State, live: B.Records, e: Event, x: string) {
    && (OnBlocks(e) && e.actor == x ==>
          && (Written(e.commit).Some? ==> Adds(s, e) || (x, Written(e.commit).value) in s.blocks)
          && (Removed(s, e) != "" ==> !Another(live, x, Removed(s, e), e.commit.rkey))
          && (Key(e) in live && Some(live[Key(e)]) != Written(e.commit) && live[Key(e)] != Removed(s, e) ==>
                Another(live, x, live[Key(e)], e.commit.rkey)))
    && (e.Backfilled? && e.blocker == x && e.blocked != "" && e.rkey != "" ==> B.HasRecord(live, x, e.blocked))
  }

  lemma StepFollows(setup: C.Setup, s: S.State, live: B.Records, e: Event, s': S.State, x: string)
    requires TableIsIndexed(s) && Step(setup, s, e, s') && Follows(s, live, x)
    requires forall k | k in live :: live[k] != ""
    ensures Follows(s', LiveAfter(live, e), x) <==> Safe(s, live, e, x)
  {
    StepPairs(setup, s, e, s');
    if OnBlocks(e) {
      BlockFollows(s, live, e, s', x);
    }
  }

  lemma BlockFollows(s: S.State, live: B.Records, e: Event, s': S.State, x: string)
    requires OnBlocks(e) && s'.blocks == PairsAfter(s, e) && Follows(s, live, x)
    requires forall k | k in live :: live[k] != ""
    ensures Follows(s', LiveAfter(live, e), x) <==> Safe(s, live, e, x)
  {
    if x != e.actor {
      forall y
        ensures B.HasRecord(LiveAfter(live, e), x, y) <==> B.HasRecord(live, x, y)
      {
        RecordAfter(live, e, x, y);
      }
    } else {
      forall y
        ensures B.HasRecord(LiveAfter(live, e), x, y) <==>
          Written(e.commit) == Some(y) || Another(live, x, y, e.commit.rkey)
        ensures B.HasRecord(live, x, y) <==>
          Another(live, x, y, e.commit.rkey) || ((x, e.commit.rkey) in live && live[(x, e.commit.rkey)] == y)
      {
        RecordAfter(live, e, x, y);
        RecordBefore(live, x, y, e.commit.rkey);
      }
    }
  }

  lemma {:induction false} LiveNamesSubjects(events: seq<Event>, n: nat)
    requires n <= |events|
    ensures forall k | k in Live(events, n) :: Live(events, n)[k] != ""
  {
    if n == 0 {
    } else {
      LiveNamesSubjects(events, n - 1);
    }
  }

  ghost predicate FollowsThroughout(states: seq<S.State>, events: seq<Event>, from: nat, x: string)
    requires |states| == |events| + 1
  {
    forall j | from <= j <= |events| :: Follows(states[j], Live(events, j), x)
  }

  ghost predicate SafeThroughout(states: seq<S.State>, events: seq<Event>, from: nat, x: string)
    requires |states| == |events| + 1
  {
    forall j | from <= j < |events| :: Safe(states[j], Live(events, j), events[j], x)
  }

  // Main result: from any moment at which the blocked pairs of x are its records, they stay
  // so exactly when every event of x is safe, whatever others do and across restarts.
  lemma FollowedExactlyWhileSafe(setup: C.Setup, states: seq<S.State>, events: seq<Event>, from: nat, x: string)
    requires Run(setup, states, events) && from <= |events| && Follows(states[from], Live(events, from), x)
    ensures FollowsThroughout(states, events, from, x) <==> SafeThroughout(states, events, from, x)
  {
    forall j: nat | from <= j < |events| && Follows(states[j], Live(events, j), x)
      ensures Follows(states[j + 1], Live(events, j + 1), x) <==> Safe(states[j], Live(events, j), events[j], x)
    {
      FollowStep(setup, states, events, j, x);
    }
    if SafeThroughout(states, events, from, x) {
      forall j | from <= j <= |events|
        ensures Follows(states[j], Live(events, j), x)
      {
        FollowedUpTo(states, events, from, j, x);
      }
    }
    if FollowsThroughout(states, events, from, x) {
      forall j: nat | from <= j < |events|
        ensures Safe(states[j], Live(events, j), events[j], x)
      {
        assert Follows(states[j], Live(events, j), x) && Follows(states[j + 1], Live(events, j + 1), x);
      }
    }
  }

  lemma FollowStep(setup: C.Setup, states: seq<S.State>, events: seq<Event>, j: nat, x: string)
    requires Run(setup, states, events) && j < |events| && Follows(states[j], Live(events, j), x)
    ensures Follows(states[j + 1], Live(events, j + 1), x) <==> Safe(states[j], Live(events, j), events[j], x)
  {
    RunAgrees(setup, states, events, j);
    LiveNamesSubjects(events, j);
    StepFollows(setup, states[j], Live(events, j), events[j], states[j + 1], x);
  }

  lemma {:induction false} FollowedUpTo(states: seq<S.State>, events: seq<Event>, from: nat, j: nat, x: string)
    requires |states| == |events| + 1 && from <= j <= |events| && Follows(states[from], Live(events, from), x)
    requires forall k | from <= k < |events| && Follows(states[k], Live(events, k), x) ::
      Follows(states[k + 1], Live(events, k + 1), x)
    ensures Follows(states[j], Live(events, j), x)
  {
    if j == from {
    } else {
      FollowedUpTo(states, events, from, j - 1, x);
    }
  }

  // ---------------------------------------------------------------------- the backfill

  // Meanwhile x writes and deletes no block record, whatever others do.
  ghost predicate OnlyBackfills(events: seq<Event>, i: nat, j: nat, x: string)
    requires j <= |events|
  {
    forall k | i <= k < j :: !(OnBlocks(events[k]) && events[k].actor == x)
  }

  predicate Lists(e: Event, x: string, y: string) {
    e.Backfilled? && e.blocker == x && e.blocked == y != "" && e.rkey != ""
  }

  ghost predicate Listed(events: seq<Event>, i: nat, j: nat, x: string, y: string)
    requires j <= |events|
  {
    exists k :: i <= k < j && Lists(events[k], x, y)
  }

  predicate OnlyListed(s: S.State, s': S.State, e: Event, x: string, y: string) {
    (x, y) in s'.blocks <==> (x, y) in s.blocks || Lists(e, x, y)
  }

  lemma BackfillStep(setup: C.Setup, states: seq<S.State>, events: seq<Event>, j: nat, x: string, y: string)
    requires Run(setup, states, events) && j < |events| && !(OnBlocks(events[j]) && events[j].actor == x)
    ensures OnlyListed(states[j], states[j + 1], events[j], x, y)
    ensures B.HasRecord(Live(events, j + 1), x, y) <==> B.HasRecord(Live(events, j), x, y)
  {
    RunAgrees(setup, states, events, j);
    StepPairs(setup, states[j], events[j], states[j + 1]);
    if OnBlocks(events[j]) {
      RecordAfter(Live(events, j), events[j], x, y);
    }
  }

  lemma {:induction false} BackfillAdds(states: seq<S.State>, events: seq<Event>, i: nat, j: nat, x: string, y: string)
    requires |states| == |events| + 1 && i <= j <= |events|
    requires forall k | i <= k < j :: OnlyListed(states[k], states[k + 1], events[k], x, y)
    ensures (x, y) in states[j].blocks <==> (x, y) in states[i].blocks || Listed(events, i, j, x, y)
  {
    if i == j {
    } else {
      BackfillAdds(states, events, i, j - 1, x, y);
      ListedNext(events, i, j - 1, x, y);
      assert OnlyListed(states[j - 1], states[j], events[j - 1], x, y);
    }
  }

  lemma {:induction false} RecordsStay(events: seq<Event>, i: nat, j: nat, x: string, y: string)
    requires i <= j <= |events|
    requires forall k: nat | i <= k < j :: B.HasRecord(Live(events, k + 1), x, y) <==> B.HasRecord(Live(events, k), x, y)
    ensures B.HasRecord(Live(events, j), x, y) <==> B.HasRecord(Live(events, i), x, y)
  {
    if i == j {
    } else {
      RecordsStay(events, i, j - 1, x, y);
    }
  }

  lemma ListedNext(events: seq<Event>, i: nat, j: nat, x: string, y: string)
    requires i <= j < |events|
    ensures Listed(events, i, j + 1, x, y) <==> Listed(events, i, j, x, y) || Lists(events[j], x, y)
  {
  }

  // Main result: a backfill heals. If the store has no pair of x without a record, then
  // once the backfill has listed records of every pair that lacks one in the store, and none
  // that are gone, the pairs of x are exactly its records, earlier blocks included.
  lemma BackfillHealsExactly(setup: C.Setup, states: seq<S.State>, events: seq<Event>, i: nat, j: nat, x: string)
    requires Run(setup, states, events) && i <= j <= |events| && OnlyBackfills(events, i, j, x)
    requires forall y :: (x, y) in states[i].blocks ==> B.HasRecord(Live(events, i), x, y)
    ensures Follows(states[j], Live(events, j), x) <==>
      forall y :: if B.HasRecord(Live(events, i), x, y) then (x, y) in states[i].blocks || Listed(events, i, j, x, y)
                  else !Listed(events, i, j, x, y)
  {
    forall y
      ensures (x, y) in states[j].blocks <==> (x, y) in states[i].blocks || Listed(events, i, j, x, y)
      ensures B.HasRecord(Live(events, j), x, y) <==> B.HasRecord(Live(events, i), x, y)
    {
      forall k: nat | i <= k < j
        ensures OnlyListed(states[k], states[k + 1], events[k], x, y)
        ensures B.HasRecord(Live(events, k + 1), x, y) <==> B.HasRecord(Live(events, k), x, y)
      {
        BackfillStep(setup, states, events, k, x, y);
      }
      BackfillAdds(states, events, i, j, x, y);
      RecordsStay(events, i, j, x, y);
    }
  }
}
