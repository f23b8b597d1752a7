// What holds after every sequence of store operations and restarts.
module StoreRuns {
  import opened Common
  import opened StoreState

  datatype Op =
    | Register(did: string, platform: string, token: string, appId: string)
    | Unregister(did: string, platform: string, token: string, appId: string)
    | Block(blocker: string, blocked: string, rkey: string)
    | Unblock(blocker: string, blocked: string)
    | UnblockByRKey(blocker: string, rkey: string)
    | Verify(verifier: string, subject: string, rkey: string)
    | UnverifyByRKey(verifier: string, rkey: string)
    | Restart

  // What the operations other than a restart do.
  function Apply(s: State, op: Op): State
    requires !op.Restart?
  {
    match op
    case Register(did, platform, token, appId) => RegisterToken(s, did, platform, token, appId)
    case Unregister(did, platform, token, appId) => UnregisterToken(s, did, platform, token, appId)
    case Block(blocker, blocked, rkey) => AddBlock(s, blocker, blocked, rkey)
    case Unblock(blocker, blocked) => RemoveBlock(s, blocker, blocked)
    case UnblockByRKey(blocker, rkey) => RemoveBlockByRKey(s, blocker, rkey)
    case Verify(verifier, subject, rkey) => AddVerification(s, verifier, subject, rkey)
    case UnverifyByRKey(verifier, rkey) => RemoveVerificationByRKey(s, verifier, rkey)
  }

  ghost predicate Next(s: State, op: Op, s': State) {
    if op.Restart? then Restarted(s, s') else s' == Apply(s, op)
  }

  // A run records the states around the operations, from an empty database.
  ghost predicate Run(states: seq<State>, ops: seq<Op>) {
    && |states| == |ops| + 1 && states[0] == EMPTY
    && forall i | 0 <= i < |ops| :: Next(states[i], ops[i], states[i + 1])
  }

  // ------------------------------------------------------------------------- invariant

  // Every index holds what its table holds, and no DID has more tokens than the cap.
  ghost predicate IndexesAgree(s: State) {
    && s.registered == DidsOf(s.tokens)
    && s.blocks == s.blockRows.Keys
    && s.verificationsByRKey == s.verificationRows
    && forall did :: |TokensOf(s.tokens, did)| <= MAX_TOKENS_PER_DID
  }

  lemma RegisterAgrees(s: State, did: string, platform: string, token: string, appId: string)
    requires IndexesAgree(s)
    ensures IndexesAgree(RegisterToken(s, did, platform, token, appId))
  {
    if CanRegister(s, did, platform, token) {
      var s' := RegisterToken(s, did, platform, token, appId);
      DidsAfterPut(s.tokens, did, token, Device(platform, appId));
      forall d
        ensures |TokensOf(s'.tokens, d)| <= MAX_TOKENS_PER_DID
      {
        TokensAfterPut(s.tokens, did, token, Device(platform, appId), d);
        if d == did {
          assert TokensOf(s'.tokens, d) == (TokensOf(s.tokens, d) - {token}) + {token};
        }
      }
    }
  }

  lemma DidsAfterPut(tokens: map<Pair, Device>, did: string, token: string, device: Device)
    ensures DidsOf(tokens[(did, token) := device]) == DidsOf(tokens) + {did}
  {
    var after := tokens[(did, token) := device];
    assert (did, token) in after;
    forall k | k in tokens
      ensures k.0 in DidsOf(after)
    {
      assert k in after;
    }
  }

  lemma TokensAfterPut(tokens: map<Pair, Device>, did: string, token: string, device: Device, d: string)
    ensures TokensOf(tokens[(did, token) := device], d) ==
      if d == did then TokensOf(tokens, d) + {token} else TokensOf(tokens, d)
  {
    var after := tokens[(did, token) := device];
    assert (did, token) in after;
    forall t | t in TokensOf(tokens, d)
      ensures t in TokensOf(after, d)
    {
      assert (d, t) in after;
    }
  }

  lemma FirstTokenRegisters(s: State, did: string, token: string)
    requires forall k | k in s.tokens :: k.0 != did
    ensures RegisterToken(s, did, "ios", token, "app") ==
      s.(tokens := s.tokens[(did, token) := Device("ios", "app")], registered := s.registered + {did})
  {
    assert TokensOf(s.tokens, did) - {token} == {};
  }

  lemma UnregisterAgrees(s: State, did: string, platform: string, token: string, appId: string)
    requires IndexesAgree(s)
    ensures IndexesAgree(UnregisterToken(s, did, platform, token, appId))
  {
    var s' := UnregisterToken(s, did, platform, token, appId);
    assert s'.tokens.Keys <= s.tokens.Keys && forall k | k in s.tokens && k.0 != did :: k in s'.tokens;
    forall d
      ensures TokensOf(s'.tokens, d) <= TokensOf(s.tokens, d)
      ensures |TokensOf(s'.tokens, d)| <= MAX_TOKENS_PER_DID
    {
      SubsetSize(TokensOf(s'.tokens, d), TokensOf(s.tokens, d));
    }
    forall d
      ensures d in s'.registered <==> d in DidsOf(s'.tokens)
    {
      HasTokensIffListed(s'.tokens, d);
      HasTokensIffListed(s.tokens, d);
      if d != did {
        assert forall t | (d, t) in s.tokens :: (d, t) in s'.tokens;
      }
    }
  }

  lemma HasTokensIffListed(tokens: map<Pair, Device>, did: string)
    ensures TokensOf(tokens, did) != {} <==> did in DidsOf(tokens)
  {
    if did in DidsOf(tokens) {
      var k :| k in tokens && k.0 == did;
      assert k.1 in TokensOf(tokens, did);
    }
  }

  lemma NextAgrees(s: State, op: Op, s': State)
    requires IndexesAgree(s) && Next(s, op, s')
    ensures IndexesAgree(s')
  {
    match op
    case Register(did, platform, token, appId) => RegisterAgrees(s, did, platform, token, appId);
    case Unregister(did, platform, token, appId) => UnregisterAgrees(s, did, platform, token, appId);
    case _ =>
  }

  // -------------------------------------------------------------------------- results

  // Main result: after every sequence of operations and restarts the indexes agree with
  // the tables, and a DID is registered exactly when it has a token.
  lemma {:induction false} RunAgrees(states: seq<State>, ops: seq<Op>)
    requires Run(states, ops)
    ensures IndexesAgree(states[|ops|])
    ensures forall did :: did in states[|ops|].registered <==> TokensOf(states[|ops|].tokens, did) != {}
  {
    if ops != [] {
      var n := |ops| - 1;
      RunAgrees(states[..n + 1], ops[..n]);
      NextAgrees(states[n], ops[n], states[n + 1]);
    } else {
      assert forall did :: TokensOf(EMPTY.tokens, did) == {};
    }
    forall did
      ensures did in states[|ops|].registered <==> TokensOf(states[|ops|].tokens, did) != {}
    {
      HasTokensIffListed(states[|ops|].tokens, did);
    }
  }

  // Main result: restarting after any run changes no answer about registrations, blocks
  // and verifications.
  lemma RestartChangesNoAnswer(states: seq<State>, ops: seq<Op>, s': State)
    requires Run(states, ops) && Restarted(states[|ops|], s')
    ensures var s := states[|ops|];
      && (forall did :: did in s'.registered <==> did in s.registered)
      && (forall x, y :: IsBlocked(s', x, y) <==> IsBlocked(s, x, y))
      && (forall k :: Lookup(s'.verificationsByRKey, k) == Lookup(s.verificationsByRKey, k))
  {
    RunAgrees(states, ops);
  }
}
