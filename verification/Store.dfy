// The store as an object: nested maps in memory, each method one atomic step.
module Stores {
  import S = StoreState

  type Pair = S.Pair

  // ------------------------------------------------------------------- flat and nested

  function Inner<V>(m: map<string, map<string, V>>, a: string): map<string, V> {
    if a in m then m[a] else map[]
  }

  function Row(m: map<string, set<string>>, a: string): set<string> {
    if a in m then m[a] else {}
  }

  // The nested map holds the same entries as the flat one.
  ghost predicate Flattens<V>(m: map<string, map<string, V>>, flat: map<Pair, V>) {
    && (forall a, b | a in m && b in m[a] :: (a, b) in flat && flat[(a, b)] == m[a][b])
    && (forall k | k in flat :: k.0 in m && k.1 in m[k.0])
  }

  ghost predicate FlattensSet(m: map<string, set<string>>, flat: set<Pair>) {
    && (forall a, b | a in m && b in m[a] :: (a, b) in flat)
    && (forall k | k in flat :: k.0 in m && k.1 in m[k.0])
  }

  lemma PutFlattens<V>(m: map<string, map<string, V>>, flat: map<Pair, V>, a: string, b: string, v: V)
    requires Flattens(m, flat)
    ensures Flattens(m[a := Inner(m, a)[b := v]], flat[(a, b) := v])
  {
  }

  lemma DeleteFlattens<V>(m: map<string, map<string, V>>, flat: map<Pair, V>, a: string, b: string)
    requires Flattens(m, flat) && a in m
    ensures Flattens(m[a := m[a] - {b}], flat - {(a, b)})
  {
  }

  lemma PutFlattensSet(m: map<string, set<string>>, flat: set<Pair>, a: string, b: string)
    requires FlattensSet(m, flat)
    ensures FlattensSet(m[a := Row(m, a) + {b}], flat + {(a, b)})
  {
  }

  lemma DeleteFlattensSet(m: map<string, set<string>>, flat: set<Pair>, a: string, b: string)
    requires FlattensSet(m, flat) && a in m
    ensures FlattensSet(m[a := m[a] - {b}], flat - {(a, b)})
  {
  }

  // ------------------------------------------------------------------------- the store

  datatype PushToken = PushToken(actorDID: string, platform: string, pushToken: string, appID: string)

  class Store {
    // the database
    var tokens: map<Pair, S.Device>
    var blockRows: map<Pair, string>
    var verificationRows: map<Pair, string>
    // memory
    var registeredDIDs: set<string>
    var blocks: map<string, set<string>>
    var blocksByRKey: map<string, map<string, string>>
    var verificationsByRKey: map<string, map<string, string>>

    ghost var state: S.State  // all of the above, flat

    ghost predicate Valid()
      reads this
    {
      && state.tokens == tokens && state.blockRows == blockRows && state.verificationRows == verificationRows
      && state.registered == registeredDIDs
      && FlattensSet(blocks, state.blocks)
      && Flattens(blocksByRKey, state.blocksByRKey)
      && Flattens(verificationsByRKey, state.verificationsByRKey)
    }

    // Opening a database, whose tables outlive the process.
    constructor (tokens: map<Pair, S.Device>, blockRows: map<Pair, string>, verificationRows: map<Pair, string>)
      ensures Valid()
      ensures S.Restarted(S.EMPTY.(tokens := tokens, blockRows := blockRows, verificationRows := verificationRows), state)
    {
      this.tokens, this.blockRows, this.verificationRows := tokens, blockRows, verificationRows;
      registeredDIDs, blocks, blocksByRKey, verificationsByRKey := {}, map[], map[], map[];
      state := S.EMPTY.(tokens := tokens, blockRows := blockRows, verificationRows := verificationRows);
      new;
      LoadIntoMemory();
    }

    // Fills the indexes from the tables, whose rows come in any order.
    method LoadIntoMemory()
      requires Valid() && state.registered == {} && state.blocks == {}
      requires state.blocksByRKey == map[] && state.verificationsByRKey == map[]
      modifies this
      ensures Valid() && S.Restarted(old(state), state)
    {
      LoadRegistered();
      LoadBlocks();
      LoadVerifications();
    }

    // Each DID that has a row is listed once.
    method LoadRegistered()
      requires Valid() && state.registered == {}
      modifies this`registeredDIDs, this`state
      ensures Valid() && state == old(state).(registered := S.DidsOf(tokens))
    {
      var dids := S.DidsOf(tokens);
      var todo := dids;
      AllDids(dids);
      while todo != {}
        invariant Valid() && todo <= dids
        invariant state == old(state).(registered := dids - todo)
        decreases todo
      {
        var did :| did in todo;
        DidLoaded(dids, todo, did);
        registeredDIDs := registeredDIDs + {did};
        state := state.(registered := registeredDIDs);
        todo := todo - {did};
      }
    }

    method LoadBlocks()
      requires Valid() && state.blocks == {} && state.blocksByRKey == map[]
      modifies this`blocks, this`blocksByRKey, this`state
      ensures Valid() && state == old(state).(blocks := blockRows.Keys, blocksByRKey := state.blocksByRKey)
      ensures S.IndexesRows(state.blocksByRKey, blockRows)
    {
      var todo := blockRows.Keys;
      NoBlockRows(blockRows);
      while todo != {}
        invariant Valid() && todo <= blockRows.Keys
        invariant state == old(state).(blocks := blockRows.Keys - todo, blocksByRKey := state.blocksByRKey)
        invariant S.IndexesRows(state.blocksByRKey, blockRows - todo)
        decreases todo
      {
        var p :| p in todo;
        LoadBlock(p, todo);
        todo := todo - {p};
      }
    }

    // One row of the blocks table.
    method LoadBlock(p: Pair, ghost todo: set<Pair>)
      requires Valid() && p in todo && todo <= blockRows.Keys
      requires state.blocks == blockRows.Keys - todo && S.IndexesRows(state.blocksByRKey, blockRows - todo)
      modifies this`blocks, this`blocksByRKey, this`state
      ensures Valid()
      ensures state == old(state).(blocks := blockRows.Keys - (todo - {p}), blocksByRKey := state.blocksByRKey)
      ensures S.IndexesRows(state.blocksByRKey, blockRows - (todo - {p}))
    {
      var rkey := blockRows[p];
      BlockRowLoaded(state.blocksByRKey, blockRows, todo, p);
      Remember(p.0, p.1, rkey);
    }

    // The in-memory half of recording a block.
    method Remember(blocker: string, blocked: string, rkey: string)
      requires Valid()
      modifies this`blocks, this`blocksByRKey, this`state
      ensures Valid()
      ensures state == old(state).(
        blocks := old(state).blocks + {(blocker, blocked)},
        blocksByRKey := if rkey == "" then old(state).blocksByRKey else old(state).blocksByRKey[(blocker, rkey) := blocked])
    {
      PutFlattensSet(blocks, state.blocks, blocker, blocked);
      blocks := blocks[blocker := Row(blocks, blocker) + {blocked}];
      state := state.(blocks := state.blocks + {(blocker, blocked)});
      if rkey != "" {
        PutFlattens(blocksByRKey, state.blocksByRKey, blocker, rkey, blocked);
        blocksByRKey := blocksByRKey[blocker := Inner(blocksByRKey, blocker)[rkey := blocked]];
        state := state.(blocksByRKey := state.blocksByRKey[(blocker, rkey) := blocked]);
      }
    }

    method LoadVerifications()
      requires Valid() && state.verificationsByRKey == map[]
      modifies this`verificationsByRKey, this`state
      ensures Valid() && state == old(state).(verificationsByRKey := verificationRows)
    {
      var todo := verificationRows.Keys;
      NoMoreRows(verificationRows);
      while todo != {}
        invariant Valid() && todo <= verificationRows.Keys
        invariant state == old(state).(verificationsByRKey := verificationRows - todo)
        decreases todo
      {
        var k :| k in todo;
        RememberVerification(k.0, verificationRows[k], k.1);
        RowLoaded(verificationRows, todo, k);
        todo := todo - {k};
      }
      NoMoreRows(verificationRows);
    }

    method RegisterToken(did: string, platform: string, token: string, appId: string) returns (ok: bool)
      requires Valid()
      modifies this`tokens, this`registeredDIDs, this`state
      ensures Valid() && state == S.RegisterToken(old(state), did, platform, token, appId)
      ensures ok == S.CanRegister(old(state), did, platform, token)
    {
      var existing := |S.TokensOf(tokens, did) - {token}|;
      if existing >= S.MAX_TOKENS_PER_DID {
        return false;
      }
      if !S.KnownPlatform(platform) {
        return false;
      }
      tokens := tokens[(did, token) := S.Device(platform, appId)];
      registeredDIDs := registeredDIDs + {did};
      state := state.(tokens := tokens, registered := registeredDIDs);
      return true;
    }

    method UnregisterToken(did: string, platform: string, token: string, appId: string)
      requires Valid()
      modifies this`tokens, this`registeredDIDs, this`state
      ensures Valid() && state == S.UnregisterToken(old(state), did, platform, token, appId)
    {
      if (did, token) in tokens && tokens[(did, token)] == S.Device(platform, appId) {
        tokens := tokens - {(did, token)};
      }
      var count := |S.TokensOf(tokens, did)|;
      if count == 0 {
        registeredDIDs := registeredDIDs - {did};
      }
      state := state.(tokens := tokens, registered := registeredDIDs);
    }

    predicate IsRegistered(did: string)
      reads this
    {
      did in registeredDIDs
    }

    // The rows of one DID, in any order.
    method GetTokensForDID(did: string) returns (rows: seq<PushToken>)
      ensures RowsOf(rows, tokens, did)
    {
      rows := [];
      var todo := S.TokensOf(tokens, did);
      while todo != {}
        invariant todo <= S.TokensOf(tokens, did)
        invariant |rows| + |todo| == |S.TokensOf(tokens, did)|
        invariant forall i | 0 <= i < |rows| ::
            rows[i].pushToken !in todo && (did, rows[i].pushToken) in tokens && rows[i] == RowOf(tokens, did, rows[i].pushToken)
        invariant forall t | (did, t) in tokens && t !in todo :: RowOf(tokens, did, t) in rows
        invariant forall i, j | 0 <= i < j < |rows| :: rows[i].pushToken != rows[j].pushToken
        decreases todo
      {
        var t :| t in todo;
        todo := todo - {t};
        rows := rows + [RowOf(tokens, did, t)];
      }
    }

    method AddBlock(blocker: string, blocked: string, rkey: string)
      requires Valid()
      modifies this`blockRows, this`blocks, this`blocksByRKey, this`state
      ensures Valid() && state == S.AddBlock(old(state), blocker, blocked, rkey)
    {
      if (blocker, blocked) !in blockRows {
        blockRows := blockRows[(blocker, blocked) := rkey];
      }
      state := state.(blockRows := blockRows);
      Remember(blocker, blocked, rkey);
    }

    // Looks a block up by rkey and removes it; returns its subject, or "".
    method RemoveBlockByRKey(blocker: string, rkey: string) returns (blocked: string)
      requires Valid()
      modifies this`blockRows, this`blocks, this`blocksByRKey, this`state
      ensures Valid() && state == S.RemoveBlockByRKey(old(state), blocker, rkey)
      ensures blocked == S.Lookup(old(state).blocksByRKey, (blocker, rkey))
    {
      blocked := "";
      if blocker in blocksByRKey && rkey in blocksByRKey[blocker] {
        blocked := blocksByRKey[blocker][rkey];
      }
      if blocked == "" {
        return;
      }
      RemoveBlock(blocker, blocked);
      ForgetRKey(blocker, rkey);
    }

    method ForgetRKey(blocker: string, rkey: string)
      requires Valid()
      modifies this`blocksByRKey, this`state
      ensures Valid() && state == old(state).(blocksByRKey := old(state).blocksByRKey - {(blocker, rkey)})
    {
      if blocker in blocksByRKey {
        DeleteFlattens(blocksByRKey, state.blocksByRKey, blocker, rkey);
        blocksByRKey := blocksByRKey[blocker := blocksByRKey[blocker] - {rkey}];
      }
      state := state.(blocksByRKey := state.blocksByRKey - {(blocker, rkey)});
    }

    method RemoveBlock(blocker: string, blocked: string)
      requires Valid()
      modifies this`blockRows, this`blocks, this`state
      ensures Valid() && state == S.RemoveBlock(old(state), blocker, blocked)
    {
      blockRows := blockRows - {(blocker, blocked)};
      if blocker in blocks {
        DeleteFlattensSet(blocks, state.blocks, blocker, blocked);
        blocks := blocks[blocker := blocks[blocker] - {blocked}];
      }
      state := S.RemoveBlock(state, blocker, blocked);
    }

    predicate IsBlocked(actor: string, target: string)
      reads this
      ensures Valid() ==> IsBlocked(actor, target) == S.IsBlocked(state, actor, target)
    {
      || (target in blocks && actor in blocks[target])
      || (actor in blocks && target in blocks[actor])
    }

    method AddVerification(verifier: string, subject: string, rkey: string)
      requires Valid()
      modifies this`verificationRows, this`verificationsByRKey, this`state
      ensures Valid() && state == S.AddVerification(old(state), verifier, subject, rkey)
    {
      verificationRows := verificationRows[(verifier, rkey) := subject];
      state := state.(verificationRows := verificationRows);
      RememberVerification(verifier, subject, rkey);
    }

    // The in-memory half of recording a verification.
    method RememberVerification(verifier: string, subject: string, rkey: string)
      requires Valid()
      modifies this`verificationsByRKey, this`state
      ensures Valid()
      ensures state == old(state).(verificationsByRKey := old(state).verificationsByRKey[(verifier, rkey) := subject])
    {
      PutFlattens(verificationsByRKey, state.verificationsByRKey, verifier, rkey, subject);
      verificationsByRKey := verificationsByRKey[verifier := Inner(verificationsByRKey, verifier)[rkey := subject]];
      state := state.(verificationsByRKey := state.verificationsByRKey[(verifier, rkey) := subject]);
    }

    // Removes a verification by rkey; returns its subject, or "".
    method RemoveVerificationByRKey(verifier: string, rkey: string) returns (subject: string)
      requires Valid()
      modifies this`verificationRows, this`verificationsByRKey, this`state
      ensures Valid() && state == S.RemoveVerificationByRKey(old(state), verifier, rkey)
      ensures subject == S.Lookup(old(state).verificationsByRKey, (verifier, rkey))
    {
      subject := "";
      if verifier in verificationsByRKey && rkey in verificationsByRKey[verifier] {
        subject := verificationsByRKey[verifier][rkey];
      }
      if subject == "" {
        return;
      }
      verificationRows := verificationRows - {(verifier, rkey)};
      state := state.(verificationRows := verificationRows);
      ForgetVerification(verifier, rkey);
    }

    method ForgetVerification(verifier: string, rkey: string)
      requires Valid()
      modifies this`verificationsByRKey, this`state
      ensures Valid()
      ensures state == old(state).(verificationsByRKey := old(state).verificationsByRKey - {(verifier, rkey)})
    {
      if verifier in verificationsByRKey {
        DeleteFlattens(verificationsByRKey, state.verificationsByRKey, verifier, rkey);
        verificationsByRKey := verificationsByRKey[verifier := verificationsByRKey[verifier] - {rkey}];
      }
      state := state.(verificationsByRKey := state.verificationsByRKey - {(verifier, rkey)});
    }
  }

  function RowOf(tokens: map<Pair, S.Device>, did: string, token: string): PushToken
    requires (did, token) in tokens
  {
    var d := tokens[(did, token)];
    PushToken(did, d.platform, token, d.appId)
  }

  // Every row of the DID, once.
  ghost predicate RowsOf(rows: seq<PushToken>, tokens: map<Pair, S.Device>, did: string) {
    && |rows| == |S.TokensOf(tokens, did)|
    && (forall i | 0 <= i < |rows| ::
          (did, rows[i].pushToken) in tokens && rows[i] == RowOf(tokens, did, rows[i].pushToken))
    && (forall t | (did, t) in tokens :: RowOf(tokens, did, t) in rows)
    && (forall i, j | 0 <= i < j < |rows| :: rows[i].pushToken != rows[j].pushToken)
  }

  lemma AllDids(dids: set<string>)
    ensures dids - dids == {} && dids - {} == dids
  {
  }

  lemma DidLoaded(dids: set<string>, todo: set<string>, did: string)
    requires did in todo && todo <= dids
    ensures dids - (todo - {did}) == dids - todo + {did}
  {
  }

  lemma RowLoaded(rows: map<Pair, string>, todo: set<Pair>, k: Pair)
    requires k in todo && k in rows
    ensures rows - (todo - {k}) == (rows - todo)[k := rows[k]]
  {
  }

  lemma NoMoreRows(rows: map<Pair, string>)
    ensures rows - {} == rows
    ensures rows - rows.Keys == map[]
  {
  }

  lemma NoBlockRows(rows: map<Pair, string>)
    ensures rows.Keys - rows.Keys == {} && S.IndexesRows(map[], rows - rows.Keys)
    ensures rows.Keys - {} == rows.Keys && rows - {} == rows
  {
  }

  // One more row keeps an index an index of the rows read so far.
  lemma BlockRowLoaded(index: map<Pair, string>, rows: map<Pair, string>, todo: set<Pair>, p: Pair)
    requires p in todo && todo <= rows.Keys && S.IndexesRows(index, rows - todo)
    ensures S.IndexesRows(if rows[p] == "" then index else index[(p.0, rows[p]) := p.1], rows - (todo - {p}))
    ensures rows.Keys - todo + {p} == rows.Keys - (todo - {p})
  {
    assert (rows - (todo - {p})) - {p} == rows - todo;
    IndexOneRow(index, rows - (todo - {p}), p);
  }

  lemma IndexOneRow(index: map<Pair, string>, rows: map<Pair, string>, p: Pair)
    requires p in rows && S.IndexesRows(index, rows - {p})
    ensures S.IndexesRows(if rows[p] == "" then index else index[(p.0, rows[p]) := p.1], rows)
  {
  }
}
