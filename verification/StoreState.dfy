// The store as a value: its SQL tables and the in-memory indexes beside them.
module StoreState {
  const MAX_TOKENS_PER_DID: nat := 20

  type Pair = (string, string)

  datatype Device = Device(platform: string, appId: string)

  datatype State = State(
    // tables, keyed by their primary keys
    tokens: map<Pair, Device>,            // (actor DID, push token)
    blockRows: map<Pair, string>,         // (blocker, blocked) to rkey
    verificationRows: map<Pair, string>,  // (verifier, rkey) to subject
    // memory
    registered: set<string>,
    blocks: set<Pair>,                    // (blocker, blocked)
    blocksByRKey: map<Pair, string>,      // (blocker, rkey) to blocked
    verificationsByRKey: map<Pair, string>)

  const EMPTY := State(map[], map[], map[], {}, {}, map[], map[])

  function TokensOf(tokens: map<Pair, Device>, did: string): set<string> {
    set k | k in tokens && k.0 == did :: k.1
  }

  function DidsOf(tokens: map<Pair, Device>): set<string> {
    set k | k in tokens :: k.0
  }

  // ----------------------------------------------------------------------- operations

  predicate KnownPlatform(platform: string) {
    platform == "ios" || platform == "android" || platform == "web"
  }

  // The cap counts the DID's other tokens; the table accepts three platforms.
  predicate CanRegister(s: State, did: string, platform: string, token: string) {
    |TokensOf(s.tokens, did) - {token}| < MAX_TOKENS_PER_DID && KnownPlatform(platform)
  }

  function RegisterToken(s: State, did: string, platform: string, token: string, appId: string): State {
    if CanRegister(s, did, platform, token) then
      s.(tokens := s.tokens[(did, token) := Device(platform, appId)], registered := s.registered + {did})
    else s
  }

  function UnregisterToken(s: State, did: string, platform: string, token: string, appId: string): State {
    var tokens := if (did, token) in s.tokens && s.tokens[(did, token)] == Device(platform, appId)
      then s.tokens - {(did, token)} else s.tokens;
    s.(tokens := tokens, registered := if TokensOf(tokens, did) == {} then s.registered - {did} else s.registered)
  }

  // INSERT OR IGNORE keeps the first rkey of a pair; the index records every rkey.
  function AddBlock(s: State, blocker: string, blocked: string, rkey: string): State {
    var pair := (blocker, blocked);
    s.(blockRows := if pair in s.blockRows then s.blockRows else s.blockRows[pair := rkey],
       blocks := s.blocks + {pair},
       blocksByRKey := if rkey == "" then s.blocksByRKey else s.blocksByRKey[(blocker, rkey) := blocked])
  }

  function RemoveBlock(s: State, blocker: string, blocked: string): State {
    s.(blockRows := s.blockRows - {(blocker, blocked)}, blocks := s.blocks - {(blocker, blocked)})
  }

  // The empty string stands for "not found".
  function Lookup(index: map<Pair, string>, key: Pair): string {
    if key in index then index[key] else ""
  }

  function RemoveBlockByRKey(s: State, blocker: string, rkey: string): State {
    var blocked := Lookup(s.blocksByRKey, (blocker, rkey));
    if blocked == "" then s
    else RemoveBlock(s, blocker, blocked).(blocksByRKey := s.blocksByRKey - {(blocker, rkey)})
  }

  function AddVerification(s: State, verifier: string, subject: string, rkey: string): State {
    s.(verificationRows := s.verificationRows[(verifier, rkey) := subject],
       verificationsByRKey := s.verificationsByRKey[(verifier, rkey) := subject])
  }

  function RemoveVerificationByRKey(s: State, verifier: string, rkey: string): State {
    if Lookup(s.verificationsByRKey, (verifier, rkey)) == "" then s
    else s.(verificationRows := s.verificationRows - {(verifier, rkey)},
            verificationsByRKey := s.verificationsByRKey - {(verifier, rkey)})
  }

  predicate IsBlocked(s: State, actor: string, target: string) {
    (target, actor) in s.blocks || (actor, target) in s.blocks
  }

  // An rkey index built from the rows in some order: every nonempty rkey is there and
  // names the subject of a row that carries it.
  ghost predicate IndexesRows(index: map<Pair, string>, rows: map<Pair, string>) {
    && (forall p | p in rows && rows[p] != "" :: (p.0, rows[p]) in index)
    && (forall k | k in index :: k.1 != "" && (k.0, index[k]) in rows && rows[(k.0, index[k])] == k.1)
  }

  // loadIntoMemory: the tables stay, the indexes are built again.
  ghost predicate Restarted(s: State, s': State) {
    && s'.tokens == s.tokens && s'.blockRows == s.blockRows && s'.verificationRows == s.verificationRows
    && s'.registered == DidsOf(s.tokens)
    && s'.blocks == s.blockRows.Keys
    && IndexesRows(s'.blocksByRKey, s.blockRows)
    && s'.verificationsByRKey == s.verificationRows
  }
}
