// What the token and verification operations do to rows, in the terms of their arguments.
module StoreLaws {
  import opened StoreState
  import opened StoreRuns
  import Stores

  // The token rows of a DID.
  function Held(s: State, did: string): set<Pair> {
    set k | k in s.tokens && k.0 == did
  }

  lemma HeldAreTokens(s: State, did: string)
    ensures |Held(s, did)| == |TokensOf(s.tokens, did)|
  {
    assert Held(s, did) == Pairs(did, TokensOf(s.tokens, did));
    PairsCount(did, TokensOf(s.tokens, did));
  }

  function Pairs(did: string, ts: set<string>): set<Pair> {
    set t | t in ts :: (did, t)
  }

  lemma {:induction false} PairsCount(did: string, ts: set<string>)
    ensures |Pairs(did, ts)| == |ts|
  {
    if ts == {} {
    } else {
      var t :| t in ts;
      PairsCount(did, ts - {t});
      assert Pairs(did, ts) == Pairs(did, ts - {t}) + {(did, t)};
    }
  }

  // Main result: in every reachable state, a token that the DID has is always accepted, a
  // new one exactly when the DID has fewer than 20, and only on the three platforms; the
  // row then holds what was given, and no other row changes.
  lemma RegisterTokenExactly(states: seq<State>, ops: seq<Op>, did: string, platform: string, token: string, appId: string)
    requires Run(states, ops)
    ensures var s := states[|ops|];
      var s' := RegisterToken(s, did, platform, token, appId);
      var accepted := (platform == "ios" || platform == "android" || platform == "web")
        && ((did, token) in s.tokens || |Held(s, did)| < 20);
      && (CanRegister(s, did, platform, token) <==> accepted)
      && (!accepted ==> s' == s)
      && (accepted ==>
            && (did, token) in s'.tokens && s'.tokens[(did, token)].platform == platform && s'.tokens[(did, token)].appId == appId
            && (forall k | k != (did, token) :: k in s'.tokens <==> k in s.tokens)
            && (forall k | k != (did, token) && k in s.tokens :: s'.tokens[k] == s.tokens[k])
            && s'.registered == s.registered + {did}
            && s' == s.(tokens := s'.tokens, registered := s'.registered))
  {
    RunAgrees(states, ops);
    var s := states[|ops|];
    HeldAreTokens(s, did);
    var ts := TokensOf(s.tokens, did);
    if (did, token) in s.tokens {
      assert |ts - {token}| == |ts| - 1;
    } else {
      assert ts - {token} == ts;
    }
  }

  // Main result: what was registered is listed, with its platform and app, and an earlier
  // row of the same token is not.
  lemma RegisteredIsListed(s: State, did: string, platform: string, token: string, appId: string, rows: seq<Stores.PushToken>)
    requires CanRegister(s, did, platform, token)
    requires Stores.RowsOf(rows, RegisterToken(s, did, platform, token, appId).tokens, did)
    ensures Stores.PushToken(did, platform, token, appId) in rows
    ensures forall row | row in rows && row.pushToken == token :: row == Stores.PushToken(did, platform, token, appId)
    ensures forall t | t != token && (did, t) in s.tokens ::
      Stores.PushToken(did, s.tokens[(did, t)].platform, t, s.tokens[(did, t)].appId) in rows
  {
    var tokens := RegisterToken(s, did, platform, token, appId).tokens;
    assert Stores.RowOf(tokens, did, token) in rows;
    forall t | t != token && (did, t) in s.tokens
      ensures Stores.PushToken(did, s.tokens[(did, t)].platform, t, s.tokens[(did, t)].appId) in rows
    {
      assert Stores.RowOf(tokens, did, t) in rows;
    }
  }

  // Main result: unregistering removes the one row that agrees in all four, and nothing
  // else; the DID stays registered exactly when it has a row left.
  lemma UnregisterTokenExactly(states: seq<State>, ops: seq<Op>, did: string, platform: string, token: string, appId: string)
    requires Run(states, ops)
    ensures var s := states[|ops|];
      var s' := UnregisterToken(s, did, platform, token, appId);
      && (forall k :: k in s'.tokens <==>
            k in s.tokens && !(k == (did, token) && s.tokens[k].platform == platform && s.tokens[k].appId == appId))
      && (forall k | k in s'.tokens :: s'.tokens[k] == s.tokens[k])
      && (forall d :: d in s'.registered <==> exists t :: (d, t) in s'.tokens)
      && s' == s.(tokens := s'.tokens, registered := s'.registered)
  {
    RunAgrees(states, ops);
    var s := states[|ops|];
    var s' := UnregisterToken(s, did, platform, token, appId);
    UnregisterAgrees(s, did, platform, token, appId);
    forall d
      ensures d in s'.registered <==> exists t :: (d, t) in s'.tokens
    {
      if d in s'.registered {
        var k :| k in s'.tokens && k.0 == d;
        assert (d, k.1) in s'.tokens;
      }
      if t :| (d, t) in s'.tokens {
        assert (d, t).0 == d;
      }
    }
  }

  // ------------------------------------------------------------------- verifications

  // The operation writes or deletes the record.
  predicate Touches(op: Op, verifier: string, rkey: string) {
    || (op.Verify? && op.verifier == verifier && op.rkey == rkey)
    || (op.UnverifyByRKey? && op.verifier == verifier && op.rkey == rkey)
  }

  // Among the first n operations, the last one on the record gave it this subject.
  ghost predicate LastGave(ops: seq<Op>, n: nat, verifier: string, rkey: string, subject: string)
    requires n <= |ops|
  {
    exists i :: 0 <= i < n && ops[i] == Verify(verifier, subject, rkey) && forall j | i < j < n :: !Touches(ops[j], verifier, rkey)
  }

  lemma LastGaveNext(ops: seq<Op>, n: nat, verifier: string, rkey: string, subject: string)
    requires n < |ops|
    ensures LastGave(ops, n + 1, verifier, rkey, subject) <==>
      if Touches(ops[n], verifier, rkey) then ops[n] == Verify(verifier, subject, rkey) else LastGave(ops, n, verifier, rkey, subject)
  {
    if !Touches(ops[n], verifier, rkey) && LastGave(ops, n, verifier, rkey, subject) {
      var i :| 0 <= i < n && ops[i] == Verify(verifier, subject, rkey) && forall j | i < j < n :: !Touches(ops[j], verifier, rkey);
      assert forall j | i < j < n + 1 :: !Touches(ops[j], verifier, rkey);
    }
    if LastGave(ops, n + 1, verifier, rkey, subject) {
      var i :| 0 <= i < n + 1 && ops[i] == Verify(verifier, subject, rkey)
        && forall j | i < j < n + 1 :: !Touches(ops[j], verifier, rkey);
      assert i == n || !Touches(ops[n], verifier, rkey);
    }
  }

  // Main result: after every run, restarts included, a verifier's rkey names a subject
  // exactly when the last operation on it was a verification of that subject.
  lemma {:induction false} VerificationIsTheLast(states: seq<State>, ops: seq<Op>, n: nat, verifier: string, rkey: string, subject: string)
    requires Run(states, ops) && n <= |ops|
    requires forall i | 0 <= i < |ops| :: ops[i].Verify? ==> ops[i].subject != ""
    ensures states[n].verificationsByRKey == states[n].verificationRows
    ensures (verifier, rkey) in states[n].verificationsByRKey && states[n].verificationsByRKey[(verifier, rkey)] == subject <==>
      LastGave(ops, n, verifier, rkey, subject)
    ensures (verifier, rkey) in states[n].verificationsByRKey ==> states[n].verificationsByRKey[(verifier, rkey)] != ""
  {
    if n == 0 {
    } else {
      VerificationIsTheLast(states, ops, n - 1, verifier, rkey, subject);
      LastGaveNext(ops, n - 1, verifier, rkey, subject);
      assert Next(states[n - 1], ops[n - 1], states[n]);
    }
  }

  // --------------------------------------------------------------------------- blocks

  // The operation gives the rkey of the blocker a subject, or deletes the record.
  predicate Rewrites(op: Op, blocker: string, rkey: string) {
    || (op.Block? && op.blocker == blocker && op.rkey == rkey)
    || (op.UnblockByRKey? && op.blocker == blocker && op.rkey == rkey)
  }

  // The subject that the last of the first n operations on the record gave it, or "".
  function LastSubject(ops: seq<Op>, n: nat, blocker: string, rkey: string): string
    requires n <= |ops|
  {
    if n == 0 then ""
    else if !Rewrites(ops[n - 1], blocker, rkey) then LastSubject(ops, n - 1, blocker, rkey)
    else if ops[n - 1].Block? then ops[n - 1].blocked else ""
  }

  // Main result: without restarts, the rkey index names the subject that was given last, also
  // when an rkey is given again with another subject.
  lemma {:induction false} RKeyNamesTheLast(states: seq<State>, ops: seq<Op>, n: nat, blocker: string, rkey: string)
    requires Run(states, ops) && n <= |ops| && rkey != ""
    requires forall i | 0 <= i < |ops| :: !ops[i].Restart?
    ensures Lookup(states[n].blocksByRKey, (blocker, rkey)) == LastSubject(ops, n, blocker, rkey)
  {
    if n == 0 {
    } else {
      RKeyNamesTheLast(states, ops, n - 1, blocker, rkey);
      assert Next(states[n - 1], ops[n - 1], states[n]);
      RKeyAfter(states[n - 1], ops[n - 1], blocker, rkey);
    }
  }

  lemma RKeyAfter(s: State, op: Op, blocker: string, rkey: string)
    requires !op.Restart? && rkey != ""
    ensures Lookup(Apply(s, op).blocksByRKey, (blocker, rkey)) ==
      if !Rewrites(op, blocker, rkey) then Lookup(s.blocksByRKey, (blocker, rkey)) else if op.Block? then op.blocked else ""
  {
  }

  // A row keeps the rkey it was made with, and the index takes every nonempty one.
  lemma AddBlockExactly(s: State, blocker: string, blocked: string, rkey: string)
    ensures var s' := AddBlock(s, blocker, blocked, rkey);
      && s'.blockRows == s.blockRows[(blocker, blocked) :=
           if (blocker, blocked) in s.blockRows then s.blockRows[(blocker, blocked)] else rkey]
      && (forall k :: k in s'.blocksByRKey <==> k in s.blocksByRKey || (rkey != "" && k == (blocker, rkey)))
      && (rkey != "" ==> s'.blocksByRKey[(blocker, rkey)] == blocked)
      && (forall k | k in s.blocksByRKey && k != (blocker, rkey) :: s'.blocksByRKey[k] == s.blocksByRKey[k])
      && (forall x, y :: IsBlocked(s', x, y) <==> IsBlocked(s, x, y) || (x == blocker && y == blocked) || (x == blocked && y == blocker))
  {
    var s' := AddBlock(s, blocker, blocked, rkey);
    forall x, y
      ensures IsBlocked(s', x, y) <==> IsBlocked(s, x, y) || (x == blocker && y == blocked) || (x == blocked && y == blocker)
    {
      assert (x, y) in s'.blocks <==> (x, y) in s.blocks || (x == blocker && y == blocked);
      assert (y, x) in s'.blocks <==> (y, x) in s.blocks || (y == blocker && x == blocked);
    }
  }

  // Removing by an rkey takes the row and the pair of the subject it names, and the entry.
  lemma RemoveBlockByRKeyExactly(s: State, blocker: string, rkey: string)
    ensures var s', blocked := RemoveBlockByRKey(s, blocker, rkey), Lookup(s.blocksByRKey, (blocker, rkey));
      if blocked == "" then s' == s
      else
        && (forall p :: p in s'.blockRows <==> p in s.blockRows && p != (blocker, blocked))
        && (forall p | p in s'.blockRows :: s'.blockRows[p] == s.blockRows[p])
        && (forall p :: p in s'.blocks <==> p in s.blocks && p != (blocker, blocked))
        && (forall k :: k in s'.blocksByRKey <==> k in s.blocksByRKey && k != (blocker, rkey))
        && (forall k | k in s'.blocksByRKey :: s'.blocksByRKey[k] == s.blocksByRKey[k])
  {
  }
}
