// What the watcher does with a commit: which notifications it asks for, which of them
// pass the gates, and what sending them does to the token table.
module Consumer {
  import opened Common
  import opened Strings
  import opened Push
  import S = StoreState
  import Runs = StoreRuns
  import opened Stores
  import PostText

  // -------------------------------------------------------------------------- records

  datatype Feature = Feature(kind: string, did: string)

  datatype Record =
    | Unreadable
    | LikeOrRepost(subjectURI: string, via: Option<string>)
    | Post(text: string, replyParent: Option<string>, embed: Option<(string, Option<string>)>, facets: seq<seq<Feature>>)
    | Graph(subject: string)  // follow, block and verification

  datatype Commit = Commit(operation: string, collection: string, rkey: string, record: Record)

  // The DID between "at://" and the next slash.
  function ExtractDID(uri: string): string {
    if "at://" <= uri then
      var rest := uri[5..];
      match Cut(rest, '/') case None => rest case Some((did, _)) => did
    else ""
  }

  function RecordURI(actor: string, collection: string, rkey: string): string {
    "at://" + actor + "/" + collection + "/" + rkey
  }

  lemma ExtractOfRecordURI(actor: string, collection: string, rkey: string)
    requires '/' !in actor
    ensures ExtractDID(RecordURI(actor, collection, rkey)) == actor
  {
    var uri := RecordURI(actor, collection, rkey);
    assert uri[5..] == actor + ['/'] + (collection + "/" + rkey);
    CutAt(actor, '/', collection + "/" + rkey);
  }

  // ------------------------------------------------------------------------- requests

  // One call of sendNotification.
  datatype Request = Request(
    actor: string, target: string, reason: string, recordURI: string, subjectURI: string, postText: string)

  datatype Notification = Notification(
    token: string, platform: string, reason: string, uri: string, recipientDid: string, actorDid: string,
    subject: Option<string>, reasonSubject: Option<string>, bodyText: Option<string>)

  predicate FetchesSubjectText(reason: string) {
    reason == "like" || reason == "repost" || reason == "like-via-repost" || reason == "repost-via-repost"
  }

  predicate CarriesActorPostText(reason: string) {
    reason == "reply" || reason == "quote" || reason == "mention"
  }

  // How a consumer is set up: the fetcher of subject texts, if any, and the text limit.
  // The fetcher may answer differently each time.
  datatype Setup = Setup(fetchText: Option<(nat, string) -> string>, maxRunes: int)

  function ShortText(text: string, setup: Setup): string {
    PostText.Truncated(PostText.Sanitized(text), setup.maxRunes)
  }

  // The text of a request whose fetch, if any, is the nth.
  function TextOf(r: Request, setup: Setup, nth: nat): string {
    if r.postText == "" && r.subjectURI != "" && setup.fetchText.Some? && FetchesSubjectText(r.reason)
    then ShortText(setup.fetchText.value(nth, r.subjectURI), setup)
    else r.postText
  }

  function NonEmpty(s: string): Option<string> {
    if s == "" then None else Some(s)
  }

  function NoteFor(r: Request, setup: Setup, nth: nat, row: PushToken): Notification {
    var text := TextOf(r, setup, nth);
    Notification(row.pushToken, row.platform, r.reason, r.recordURI, r.target, r.actor,
                 NonEmpty(r.subjectURI), NonEmpty(text),
                 if CarriesActorPostText(r.reason) then NonEmpty(text) else None)
  }

  // -------------------------------------------------------- what a commit asks for

  const LIKE := "app.bsky.feed.like"
  const REPOST := "app.bsky.feed.repost"
  const POST := "app.bsky.feed.post"
  const FOLLOW := "app.bsky.graph.follow"
  const BLOCK := "app.bsky.graph.block"
  const VERIFICATION := "app.bsky.graph.verification"

  // The author of the subject, and whoever reposted it into the actor's view.
  function SubjectRequests(actor: string, c: Commit, direct: string, viaRepost: string): seq<Request>
    requires c.record.LikeOrRepost?
  {
    var target := ExtractDID(c.record.subjectURI);
    if target == "" || target == actor then []
    else
      var uri := RecordURI(actor, c.collection, c.rkey);
      [Request(actor, target, direct, uri, c.record.subjectURI, "")] +
      if c.record.via.None? then []
      else
        var reposter := ExtractDID(c.record.via.value);
        if reposter == "" || reposter == actor || reposter == target then []
        else [Request(actor, reposter, viaRepost, uri, c.record.subjectURI, "")]
  }

  function MentionRequests(actor: string, features: seq<Feature>, uri: string, text: string): seq<Request> {
    if features == [] then []
    else
      var f := features[|features| - 1];
      MentionRequests(actor, features[..|features| - 1], uri, text) +
      if f.kind == "app.bsky.richtext.facet#mention" && f.did != "" && f.did != actor
      then [Request(actor, f.did, "mention", uri, "", text)] else []
  }

  function Flat(facets: seq<seq<Feature>>): seq<Feature> {
    if facets == [] then [] else Flat(facets[..|facets| - 1]) + facets[|facets| - 1]
  }

  function ReplyRequests(actor: string, c: Commit, text: string): seq<Request>
    requires c.record.Post?
  {
    if c.record.replyParent.None? then []
    else
      var target := ExtractDID(c.record.replyParent.value);
      if target == "" || target == actor then []
      else [Request(actor, target, "reply", RecordURI(actor, POST, c.rkey), c.record.replyParent.value, text)]
  }

  function QuoteRequests(actor: string, c: Commit, text: string): seq<Request>
    requires c.record.Post?
  {
    match c.record.embed
    case Some(("app.bsky.embed.record", Some(quoted))) =>
      var target := ExtractDID(quoted);
      if target == "" || target == actor then []
      else [Request(actor, target, "quote", RecordURI(actor, POST, c.rkey), quoted, text)]
    case _ => []
  }

  function PostRequests(actor: string, c: Commit, setup: Setup): seq<Request>
    requires c.record.Post?
  {
    var text := ShortText(c.record.text, setup);
    ReplyRequests(actor, c, text) + QuoteRequests(actor, c, text) +
    MentionRequests(actor, Flat(c.record.facets), RecordURI(actor, POST, c.rkey), text)
  }

  function VerificationRequests(s: S.State, actor: string, subject: string, rkey: string, reason: string): seq<Request> {
    if subject == "" || subject !in s.registered then []
    else [Request(actor, subject, reason, RecordURI(actor, VERIFICATION, rkey), "", "")]
  }

  // Every call of sendNotification a commit leads to in state s.
  function RequestsOf(s: S.State, actor: string, c: Commit, setup: Setup): seq<Request> {
    if c.operation == "create" then
      if c.collection == LIKE && c.record.LikeOrRepost? then SubjectRequests(actor, c, "like", "like-via-repost")
      else if c.collection == REPOST && c.record.LikeOrRepost? then SubjectRequests(actor, c, "repost", "repost-via-repost")
      else if c.collection == POST && c.record.Post? then PostRequests(actor, c, setup)
      else if c.collection == FOLLOW && c.record.Graph? && c.record.subject != "" && c.record.subject != actor then
        [Request(actor, c.record.subject, "follow", RecordURI(actor, FOLLOW, c.rkey), "", "")]
      else if c.collection == VERIFICATION && c.record.Graph? then
        VerificationRequests(s, actor, c.record.subject, c.rkey, "verified")
      else []
    else if c.operation == "delete" && c.collection == VERIFICATION && c.rkey != "" then
      VerificationRequests(s, actor, S.Lookup(s.verificationsByRKey, (actor, c.rkey)), c.rkey, "unverified")
    else []
  }

  // The bookkeeping a commit leads to before anything is sent.
  function Recorded(s: S.State, actor: string, c: Commit): S.State {
    if c.operation == "create" && c.record.Graph? && c.record.subject != "" then
      if c.collection == BLOCK && (actor in s.registered || c.record.subject in s.registered)
      then S.AddBlock(s, actor, c.record.subject, c.rkey)
      else if c.collection == VERIFICATION then S.AddVerification(s, actor, c.record.subject, c.rkey)
      else s
    else if c.operation == "delete" && c.rkey != "" then
      if c.collection == BLOCK then S.RemoveBlockByRKey(s, actor, c.rkey)
      else if c.collection == VERIFICATION then S.RemoveVerificationByRKey(s, actor, c.rkey)
      else s
    else s
  }

  // ------------------------------------------------------------------ what sending does

  type Attempts = seq<Attempt<Notification>>

  predicate Gate(s: S.State, r: Request) {
    r.target in s.registered && !S.IsBlocked(s, r.actor, r.target)
  }

  ghost function DeadTokens(att: Attempts): set<S.Pair> {
    set a | a in att && a.outcome.TokenInvalid? :: (a.note.recipientDid, a.note.token)
  }

  // The tokens reported invalid are gone; registrations follow the table; the rest stays.
  ghost predicate TokensPruned(s: S.State, s': S.State, att: Attempts) {
    && s'.tokens == s.tokens - DeadTokens(att)
    && s' == s.(tokens := s'.tokens, registered := S.DidsOf(s'.tokens))
  }

  // An attempt was made for a request, to a device its recipient had.
  ghost predicate AttemptFor(a: Attempt<Notification>, r: Request, s: S.State, setup: Setup) {
    (r.target, a.note.token) in s.tokens &&
    exists nth: nat :: a.note == NoteFor(r, setup, nth, RowOf(s.tokens, r.target, a.note.token))
  }

  ghost predicate Reached(att: Attempts, r: Request, setup: Setup, row: PushToken) {
    exists a, nth: nat :: a in att && a.note == NoteFor(r, setup, nth, row)
  }

  // One request: if its gate is open, one attempt for each row of the target, in some order.
  ghost predicate SentOne(r: Request, s: S.State, s': S.State, att: Attempts, setup: Setup) {
    && TokensPruned(s, s', att)
    && if Gate(s, r) then exists rows: seq<PushToken>, nth: nat ::
         RowsOf(rows, s.tokens, r.target) && InRowOrder(att, rows, r, setup, nth) && |att| == |rows|
       else att == []
  }

  // The attempts of one request so far, in the order of the rows.
  ghost predicate InRowOrder(att: Attempts, rows: seq<PushToken>, r: Request, setup: Setup, nth: nat) {
    |att| <= |rows| && forall j | 0 <= j < |att| :: att[j].note == NoteFor(r, setup, nth, rows[j])
  }

  ghost predicate DistinctTokens(att: Attempts) {
    forall i, j | 0 <= i < j < |att| :: att[i].note.token != att[j].note.token
  }

  function Opened(s: S.State, r: Request): nat {
    if Gate(s, r) then 1 else 0
  }

  // One call of sendNotification: the state it found and the attempts it made.
  datatype Call = Call(before: S.State, att: Attempts)

  type Calls = seq<Call>

  // Requests handled one after the other, each in the state that the one before left.
  ghost predicate Sent(rs: seq<Request>, s: S.State, calls: Calls, s': S.State, setup: Setup)
    decreases |rs|
  {
    && |calls| == |rs|
    && if rs == [] then s' == s && s.registered == S.DidsOf(s.tokens)
       else
         var n := |rs| - 1;
         Sent(rs[..n], s, calls[..n], calls[n].before, setup) && SentOne(rs[n], calls[n].before, s', calls[n].att, setup)
  }

  function AttemptsOf(calls: Calls): Attempts {
    if calls == [] then [] else AttemptsOf(calls[..|calls| - 1]) + calls[|calls| - 1].att
  }

  // The calls that found their gate open.
  function Matched(rs: seq<Request>, calls: Calls): nat
    requires |calls| == |rs|
  {
    if rs == [] then 0
    else var n := |rs| - 1; Matched(rs[..n], calls[..n]) + Opened(calls[n].before, rs[n])
  }

  function DeliveredIn(att: Attempts): nat {
    if att == [] then 0
    else DeliveredIn(att[..|att| - 1]) + if att[|att| - 1].outcome.Delivered? then 1 else 0
  }

  lemma DeadOfAppend(a: Attempts, b: Attempts)
    ensures DeadTokens(a + b) == DeadTokens(a) + DeadTokens(b)
  {
  }

  lemma PrunedTwice(s: S.State, s1: S.State, s2: S.State, a: Attempts, b: Attempts)
    requires TokensPruned(s, s1, a) && TokensPruned(s1, s2, b)
    ensures TokensPruned(s, s2, a + b)
  {
    DeadOfAppend(a, b);
    assert s2.tokens == s.tokens - (DeadTokens(a) + DeadTokens(b));
  }

  lemma PrunedNothing(s: S.State)
    requires s.registered == S.DidsOf(s.tokens)
    ensures TokensPruned(s, s, [])
  {
    assert DeadTokens([]) == {};
    assert s.tokens - {} == s.tokens;
  }

  // One more call.
  lemma SentMore(rs: seq<Request>, r: Request, s: S.State, calls: Calls, call: Call, s': S.State, setup: Setup)
    requires Sent(rs, s, calls, call.before, setup) && SentOne(r, call.before, s', call.att, setup)
    ensures Sent(rs + [r], s, calls + [call], s', setup)
    ensures AttemptsOf(calls + [call]) == AttemptsOf(calls) + call.att
    ensures Matched(rs + [r], calls + [call]) == Matched(rs, calls) + Opened(call.before, r)
  {
    assert (rs + [r])[..|rs|] == rs;
    assert (calls + [call])[..|calls|] == calls;
  }

  // All in all, dead tokens are gone.
  lemma {:induction false} SentPrunes(rs: seq<Request>, s: S.State, calls: Calls, s': S.State, setup: Setup)
    requires Sent(rs, s, calls, s', setup)
    ensures s.registered == S.DidsOf(s.tokens) && TokensPruned(s, s', AttemptsOf(calls))
    decreases |rs|
  {
    if rs == [] {
      PrunedNothing(s);
    } else {
      var n := |rs| - 1;
      SentPrunes(rs[..n], s, calls[..n], calls[n].before, setup);
      PrunedTwice(s, calls[n].before, s', AttemptsOf(calls[..n]), calls[n].att);
    }
  }

  // Every attempt is for a request whose gate was open.
  lemma {:induction false} SentOnlyForOpenGates(rs: seq<Request>, s: S.State, calls: Calls, s': S.State, setup: Setup,
                                                a: Attempt<Notification>) returns (r: Request)
    requires Sent(rs, s, calls, s', setup) && a in AttemptsOf(calls)
    ensures r in rs && Gate(s, r) && AttemptFor(a, r, s, setup)
    decreases |rs|
  {
    var n := |rs| - 1;
    var mid := calls[n].before;
    SentPrunes(rs[..n], s, calls[..n], mid, setup);
    InOneOf(AttemptsOf(calls[..n]), calls[n].att, a);
    if a in AttemptsOf(calls[..n]) {
      r := SentOnlyForOpenGates(rs[..n], s, calls[..n], mid, setup, a);
    } else {
      r := rs[n];
      CallForOpenGate(r, mid, s', calls[n].att, setup, a);
      OpenBefore(s, mid, AttemptsOf(calls[..n]), r, setup, a);
    }
  }

  lemma CallForOpenGate(r: Request, s: S.State, s': S.State, att: Attempts, setup: Setup, a: Attempt<Notification>)
    requires SentOne(r, s, s', att, setup) && a in att
    ensures Gate(s, r) && AttemptFor(a, r, s, setup)
  {
    EachDeviceOnce(r, s, s', att, setup);
  }

  lemma OpenBefore(s: S.State, s': S.State, att: Attempts, r: Request, setup: Setup, a: Attempt<Notification>)
    requires s.registered == S.DidsOf(s.tokens) && TokensPruned(s, s', att)
    requires Gate(s', r) && AttemptFor(a, r, s', setup)
    ensures Gate(s, r) && AttemptFor(a, r, s, setup)
  {
    DidsShrink(s.tokens, s'.tokens);
    var nth: nat :| a.note == NoteFor(r, setup, nth, RowOf(s'.tokens, r.target, a.note.token));
    TokenLeft(s, s', att, r.target, a.note.token);
    assert a.note == NoteFor(r, setup, nth, RowOf(s.tokens, r.target, a.note.token));
  }

  // Main result: every device left to an unblocked target has been reached.
  lemma {:induction false} SentMissesNobody(rs: seq<Request>, s: S.State, calls: Calls, s': S.State, setup: Setup,
                                            r: Request, t: string)
    requires Sent(rs, s, calls, s', setup)
    requires r in rs && !S.IsBlocked(s, r.actor, r.target) && (r.target, t) in s'.tokens
    ensures Reached(AttemptsOf(calls), r, setup, RowOf(s'.tokens, r.target, t))
    decreases |rs|
  {
    var n := |rs| - 1;
    var mid := calls[n].before;
    SentPrunes(rs[..n], s, calls[..n], mid, setup);
    LastOrBefore(rs, r);
    TokenLeft(mid, s', calls[n].att, r.target, t);
    if r == rs[n] {
      CallReaches(r, mid, s', calls[n].att, setup, t);
    } else {
      SentMissesNobody(rs[..n], s, calls[..n], mid, setup, r, t);
    }
    ReachedInBoth(AttemptsOf(calls[..n]), calls[n].att, r, setup, RowOf(s'.tokens, r.target, t));
  }

  lemma InOneOf<T>(a: seq<T>, b: seq<T>, x: T)
    requires x in a + b
    ensures x in a || x in b
  {
  }

  lemma LastOrBefore<T>(s: seq<T>, x: T)
    requires x in s
    ensures x == s[|s| - 1] || x in s[..|s| - 1]
  {
  }

  lemma TokenLeft(s: S.State, s': S.State, att: Attempts, did: string, t: string)
    requires TokensPruned(s, s', att) && (did, t) in s'.tokens
    ensures (did, t) in s.tokens && RowOf(s.tokens, did, t) == RowOf(s'.tokens, did, t)
  {
  }

  lemma CallReaches(r: Request, s: S.State, s': S.State, att: Attempts, setup: Setup, t: string)
    requires SentOne(r, s, s', att, setup) && s.registered == S.DidsOf(s.tokens)
    requires !S.IsBlocked(s, r.actor, r.target) && (r.target, t) in s.tokens
    ensures Reached(att, r, setup, RowOf(s.tokens, r.target, t))
  {
    assert Gate(s, r);
    EachDeviceOnce(r, s, s', att, setup);
  }

  lemma ReachedInBoth(a: Attempts, b: Attempts, r: Request, setup: Setup, row: PushToken)
    requires Reached(a, r, setup, row) || Reached(b, r, setup, row)
    ensures Reached(a + b, r, setup, row)
  {
    var x, nth: nat :| (x in a || x in b) && x.note == NoteFor(r, setup, nth, row);
    assert x in a + b;
  }

  lemma DidsShrink(tokens: map<S.Pair, S.Device>, fewer: map<S.Pair, S.Device>)
    requires fewer.Keys <= tokens.Keys
    ensures S.DidsOf(fewer) <= S.DidsOf(tokens)
  {
    forall k | k in fewer
      ensures k.0 in S.DidsOf(tokens)
    {
      assert k in tokens;
    }
  }

  // ------------------------------------------------------------- how much is sent

  // The devices that requests in state s would reach, each request counted.
  function Devices(rs: seq<Request>, s: S.State): nat {
    if rs == [] then 0
    else Devices(rs[..|rs| - 1], s) + DevicesOf(rs[|rs| - 1], s)
  }

  function DevicesOf(r: Request, s: S.State): nat {
    if S.IsBlocked(s, r.actor, r.target) then 0 else |S.TokensOf(s.tokens, r.target)|
  }

  function OpenGates(rs: seq<Request>, s: S.State): nat {
    if rs == [] then 0 else OpenGates(rs[..|rs| - 1], s) + Opened(s, rs[|rs| - 1])
  }

  // Fewer tokens and the same blocks.
  ghost predicate Fewer(s: S.State, s': S.State) {
    && s'.tokens.Keys <= s.tokens.Keys && s'.blocks == s.blocks
    && s.registered == S.DidsOf(s.tokens) && s'.registered == S.DidsOf(s'.tokens)
  }

  lemma FewerOf(r: Request, s: S.State, s': S.State)
    requires Fewer(s, s')
    ensures DevicesOf(r, s') <= DevicesOf(r, s) && Opened(s', r) <= Opened(s, r)
  {
    DidsShrink(s.tokens, s'.tokens);
    SubsetSize(S.TokensOf(s'.tokens, r.target), S.TokensOf(s.tokens, r.target));
  }

  lemma {:induction false} FewerInAll(rs: seq<Request>, s: S.State, s': S.State)
    requires Fewer(s, s')
    ensures Devices(rs, s') <= Devices(rs, s) && OpenGates(rs, s') <= OpenGates(rs, s)
  {
    if rs == [] {
    } else {
      FewerInAll(rs[..|rs| - 1], s, s');
      FewerOf(rs[|rs| - 1], s, s');
    }
  }

  lemma OneCounted(r: Request, s: S.State, s': S.State, att: Attempts, setup: Setup)
    requires SentOne(r, s, s', att, setup) && s.registered == S.DidsOf(s.tokens)
    ensures |att| == DevicesOf(r, s) && Opened(s, r) <= |att| && Fewer(s, s')
  {
    Runs.HasTokensIffListed(s.tokens, r.target);
    if Gate(s, r) {
      EachDeviceOnce(r, s, s', att, setup);
    }
  }

  lemma {:induction false} AttemptsBetween(rs: seq<Request>, s: S.State, calls: Calls, s': S.State, setup: Setup)
    requires Sent(rs, s, calls, s', setup)
    ensures Fewer(s, s')
    ensures Devices(rs, s') <= |AttemptsOf(calls)| <= Devices(rs, s)
    ensures OpenGates(rs, s') <= Matched(rs, calls) <= OpenGates(rs, s)
    ensures Matched(rs, calls) <= |AttemptsOf(calls)|
    decreases |rs|
  {
    if rs == [] {
    } else {
      var n := |rs| - 1;
      var mid := calls[n].before;
      AttemptsBetween(rs[..n], s, calls[..n], mid, setup);
      OneCounted(rs[n], mid, s', calls[n].att, setup);
      FewerInAll(rs[..n], mid, s');
      FewerOf(rs[n], mid, s');
      FewerOf(rs[n], s, mid);
    }
  }

  // Main result: the attempts of a series of requests number the devices they would reach
  // before anything is sent, if no device is reported dead; in any case they are no more,
  // and no fewer than the devices left would take. So do the matched requests.
  lemma AttemptsCounted(rs: seq<Request>, s: S.State, calls: Calls, s': S.State, setup: Setup)
    requires Sent(rs, s, calls, s', setup)
    ensures Devices(rs, s') <= |AttemptsOf(calls)| <= Devices(rs, s)
    ensures OpenGates(rs, s') <= Matched(rs, calls) <= OpenGates(rs, s)
    ensures (forall a | a in AttemptsOf(calls) :: !a.outcome.TokenInvalid?) ==>
      |AttemptsOf(calls)| == Devices(rs, s) && Matched(rs, calls) == OpenGates(rs, s)
  {
    AttemptsBetween(rs, s, calls, s', setup);
    SentPrunes(rs, s, calls, s', setup);
    if forall a | a in AttemptsOf(calls) :: !a.outcome.TokenInvalid? {
      NobodyDead(s, s', AttemptsOf(calls));
      FewerInAll(rs, s', s);
    }
  }

  lemma NobodyDead(s: S.State, s': S.State, att: Attempts)
    requires TokensPruned(s, s', att) && s.registered == S.DidsOf(s.tokens)
    requires forall a | a in att :: !a.outcome.TokenInvalid?
    ensures Fewer(s', s)
  {
    assert DeadTokens(att) == {};
    assert s'.tokens == s.tokens;
  }

  // How many attempts went to a device, and how many requests asked for its owner.
  function PushesTo(att: Attempts, did: string, token: string): nat {
    if att == [] then 0
    else
      var n := att[|att| - 1].note;
      PushesTo(att[..|att| - 1], did, token) + if n.recipientDid == did && n.token == token then 1 else 0
  }

  function RequestsTo(rs: seq<Request>, s: S.State, did: string): nat {
    if rs == [] then 0 else RequestsTo(rs[..|rs| - 1], s, did) + AsksFor(rs[|rs| - 1], s, did)
  }

  function AsksFor(r: Request, s: S.State, did: string): nat {
    if r.target == did && !S.IsBlocked(s, r.actor, did) then 1 else 0
  }

  lemma {:induction false} PushesOfBoth(a: Attempts, b: Attempts, did: string, token: string)
    ensures PushesTo(a + b, did, token) == PushesTo(a, did, token) + PushesTo(b, did, token)
  {
    if b == [] {
      assert a + b == a;
    } else {
      assert (a + b)[..|a + b| - 1] == a + b[..|b| - 1];
      PushesOfBoth(a, b[..|b| - 1], did, token);
    }
  }

  lemma {:induction false} PushesOfDistinct(att: Attempts, did: string, token: string)
    requires DistinctTokens(att)
    ensures PushesTo(att, did, token) == if exists a :: a in att && a.note.recipientDid == did && a.note.token == token then 1 else 0
  {
    if att == [] {
    } else {
      var front, last := att[..|att| - 1], att[|att| - 1];
      assert att == front + [last];
      PushesOfDistinct(front, did, token);
      assert forall a | a in front :: a.note.token != last.note.token;
      assert forall a | a in att :: a in front || a == last;
      assert last in att && forall a | a in front :: a in att;
    }
  }

  lemma PushesOfOne(r: Request, s: S.State, s': S.State, att: Attempts, setup: Setup, did: string, token: string)
    requires SentOne(r, s, s', att, setup) && s.registered == S.DidsOf(s.tokens)
    ensures PushesTo(att, did, token) <= AsksFor(r, s, did)
    ensures (did, token) in s.tokens ==> PushesTo(att, did, token) == AsksFor(r, s, did)
  {
    if Gate(s, r) {
      EachDeviceOnce(r, s, s', att, setup);
      PushesOfDistinct(att, did, token);
      if (did, token) in s.tokens && r.target == did {
        assert Reached(att, r, setup, RowOf(s.tokens, did, token));
      }
    } else {
      assert (did, token) in s.tokens ==> did in s.registered;
    }
  }

  // Main result: no device gets more pushes than there are requests for its owner, and a
  // device that is not reported dead gets exactly one for each unblocked request.
  lemma {:induction false} OnePushPerRequest(rs: seq<Request>, s: S.State, calls: Calls, s': S.State, setup: Setup,
                                             did: string, token: string)
    requires Sent(rs, s, calls, s', setup)
    ensures Fewer(s, s')
    ensures PushesTo(AttemptsOf(calls), did, token) <= RequestsTo(rs, s, did)
    ensures (did, token) in s'.tokens ==> PushesTo(AttemptsOf(calls), did, token) == RequestsTo(rs, s, did)
    decreases |rs|
  {
    if rs == [] {
    } else {
      var n := |rs| - 1;
      var mid := calls[n].before;
      OnePushPerRequest(rs[..n], s, calls[..n], mid, setup, did, token);
      OneCounted(rs[n], mid, s', calls[n].att, setup);
      PushesOfOne(rs[n], mid, s', calls[n].att, setup, did, token);
      PushesOfBoth(AttemptsOf(calls[..n]), calls[n].att, did, token);
    }
  }

  // ---------------------------------------------------------------------- the watcher

  lemma PrunedByUnregister(s: S.State, s1: S.State, att: Attempts, x: Attempt<Notification>, row: PushToken)
    requires TokensPruned(s, s1, att) && Runs.IndexesAgree(s1)
    requires (row.actorDID, row.pushToken) in s1.tokens && row == RowOf(s1.tokens, row.actorDID, row.pushToken)
    requires x.outcome.TokenInvalid? && x.note.recipientDid == row.actorDID && x.note.token == row.pushToken
    ensures TokensPruned(s, S.UnregisterToken(s1, row.actorDID, row.platform, row.pushToken, row.appID), att + [x])
  {
    Runs.UnregisterAgrees(s1, row.actorDID, row.platform, row.pushToken, row.appID);
    DeadOfAppend(att, [x]);
    assert DeadTokens([x]) == {(row.actorDID, row.pushToken)};
    assert s.tokens - (DeadTokens(att) + {(row.actorDID, row.pushToken)}) == s1.tokens - {(row.actorDID, row.pushToken)};
  }

  lemma PrunedByNothing(s: S.State, s1: S.State, att: Attempts, x: Attempt<Notification>)
    requires TokensPruned(s, s1, att) && !x.outcome.TokenInvalid?
    ensures TokensPruned(s, s1, att + [x])
  {
    DeadOfAppend(att, [x]);
    assert DeadTokens([x]) == {};
    assert DeadTokens(att) + {} == DeadTokens(att);
  }

  lemma OneMoreRow(att: Attempts, x: Attempt<Notification>, rows: seq<PushToken>, r: Request, setup: Setup, nth: nat)
    requires InRowOrder(att, rows, r, setup, nth) && |att| < |rows| && x.note == NoteFor(r, setup, nth, rows[|att|])
    ensures InRowOrder(att + [x], rows, r, setup, nth)
  {
  }

  lemma DeliveredInOneMore(att: Attempts, x: Attempt<Notification>)
    ensures DeliveredIn(att + [x]) == DeliveredIn(att) + if x.outcome.Delivered? then 1 else 0
  {
    assert (att + [x])[..|att|] == att;
  }

  lemma NextRowStays(s: S.State, s1: S.State, att: Attempts, rows: seq<PushToken>, r: Request, setup: Setup,
                     nth: nat)
    requires RowsOf(rows, s.tokens, r.target) && InRowOrder(att, rows, r, setup, nth) && |att| < |rows|
    requires TokensPruned(s, s1, att)
    ensures (r.target, rows[|att|].pushToken) in s1.tokens
    ensures rows[|att|] == RowOf(s1.tokens, r.target, rows[|att|].pushToken)
  {
    var row := rows[|att|];
    forall a | a in att
      ensures a.note.token != row.pushToken
    {
      var j :| 0 <= j < |att| && att[j] == a;
      assert rows[j].pushToken != row.pushToken;
    }
  }

  // What one call of sendNotification comes to: each device once.
  lemma EachDeviceOnce(r: Request, s: S.State, s': S.State, att: Attempts, setup: Setup)
    requires SentOne(r, s, s', att, setup) && Gate(s, r)
    ensures |att| == |S.TokensOf(s.tokens, r.target)| && DistinctTokens(att)
    ensures forall t | (r.target, t) in s.tokens :: Reached(att, r, setup, RowOf(s.tokens, r.target, t))
    ensures forall a | a in att :: AttemptFor(a, r, s, setup)
  {
    var rows: seq<PushToken>, nth: nat :|
      RowsOf(rows, s.tokens, r.target) && InRowOrder(att, rows, r, setup, nth) && |att| == |rows|;
    forall t | (r.target, t) in s.tokens
      ensures Reached(att, r, setup, RowOf(s.tokens, r.target, t))
    {
      var j :| 0 <= j < |rows| && rows[j] == RowOf(s.tokens, r.target, t);
      assert att[j] in att && att[j].note == NoteFor(r, setup, nth, RowOf(s.tokens, r.target, t));
    }
    forall a | a in att
      ensures AttemptFor(a, r, s, setup)
    {
      var j :| 0 <= j < |att| && att[j] == a;
      assert a.note == NoteFor(r, setup, nth, RowOf(s.tokens, r.target, a.note.token));
    }
    assert forall j | 0 <= j < |att| :: att[j].note.token == rows[j].pushToken;
  }

  lemma {:induction false} DeliveredInBoth(a: Attempts, b: Attempts)
    ensures DeliveredIn(a + b) == DeliveredIn(a) + DeliveredIn(b)
  {
    if b == [] {
      assert a + b == a;
    } else {
      assert (a + b)[..|a + b| - 1] == a + b[..|b| - 1];
      DeliveredInBoth(a, b[..|b| - 1]);
    }
  }

  lemma FlatNext(facets: seq<seq<Feature>>, i: nat)
    requires i < |facets|
    ensures Flat(facets[..i + 1]) == Flat(facets[..i]) + facets[i]
  {
    assert facets[..i + 1][..i] == facets[..i];
  }

  lemma AllFeatures(earlier: seq<Feature>, features: seq<Feature>)
    ensures earlier + features[..0] == earlier && earlier + features[..|features|] == earlier + features
  {
  }

  lemma OneMoreMention(actor: string, earlier: seq<Feature>, features: seq<Feature>, j: nat, uri: string, text: string,
                       rs: seq<Request>)
    requires j < |features|
    ensures var f, soFar := features[j], rs + MentionRequests(actor, earlier + features[..j], uri, text);
      rs + MentionRequests(actor, earlier + features[..j + 1], uri, text) ==
        if f.kind == "app.bsky.richtext.facet#mention" && f.did != "" && f.did != actor
        then soFar + [Request(actor, f.did, "mention", uri, "", text)] else soFar
  {
    var more := earlier + features[..j + 1];
    assert more[..|more| - 1] == earlier + features[..j] && more[|more| - 1] == features[j];
    var before := MentionRequests(actor, earlier + features[..j], uri, text);
    assert before + [] == before;
    AppendTwice(rs, before, [Request(actor, features[j].did, "mention", uri, "", text)]);
  }

  // The state, log and counters at some moment.
  datatype Mark = Mark(state: S.State, log: Attempts, sent: nat, errors: nat, matched: nat)

  lemma AppendTwice<T>(a: seq<T>, b: seq<T>, c: seq<T>)
    ensures (a + b) + c == a + (b + c)
  {
  }

  lemma CallAdded(rs: seq<Request>, r: Request, m: Mark, calls: Calls, call: Call, before: Attempts, after: Attempts,
                  s': S.State, setup: Setup)
    requires Sent(rs, m.state, calls, call.before, setup) && SentOne(r, call.before, s', call.att, setup)
    requires before == m.log + AttemptsOf(calls) && before <= after && call.att == after[|before|..]
    ensures var all := AttemptsOf(calls + [call]);
      && Sent(rs + [r], m.state, calls + [call], s', setup) && after == m.log + all
      && DeliveredIn(all) == DeliveredIn(AttemptsOf(calls)) + DeliveredIn(call.att)
      && |all| == |AttemptsOf(calls)| + |call.att|
      && Matched(rs + [r], calls + [call]) == Matched(rs, calls) + Opened(call.before, r)
  {
    SentMore(rs, r, m.state, calls, call, s', setup);
    DeliveredInBoth(AttemptsOf(calls), call.att);
    LogGrew(m.log, AttemptsOf(calls), before, after);
  }

  lemma LogGrew<T>(start: seq<T>, att: seq<T>, before: seq<T>, after: seq<T>)
    requires before == start + att && before <= after
    ensures after == start + (att + after[|before|..])
  {
    assert after == before + after[|before|..];
    AppendTwice(start, att, after[|before|..]);
  }

  // What a verification commit deletes and asks for.
  lemma UnverifyAgrees(s: S.State, actor: string, c: Commit, setup: Setup)
    requires Runs.IndexesAgree(s) && c.collection == VERIFICATION && c.operation == "delete" && c.rkey != ""
    ensures var s' := S.RemoveVerificationByRKey(s, actor, c.rkey);
      && Runs.IndexesAgree(s') && Recorded(s, actor, c) == s'
      && RequestsOf(s, actor, c, setup) ==
           VerificationRequests(s', actor, S.Lookup(s.verificationsByRKey, (actor, c.rkey)), c.rkey, "unverified")
  {
    Runs.NextAgrees(s, Runs.UnverifyByRKey(actor, c.rkey), S.RemoveVerificationByRKey(s, actor, c.rkey));
  }

  class Watcher {
    const store: Store
    const sender: Sender<Notification>
    const setup: Setup
    var pushesSent: nat
    var pushErrors: nat
    var matchedEvents: nat

    // The store is in a state that its operations and restarts can reach.
    ghost predicate Valid()
      reads this, store, sender
    {
      store.Valid() && Runs.IndexesAgree(store.state)
    }

    constructor (store: Store, sender: Sender<Notification>, setup: Setup)
      requires store.Valid() && Runs.IndexesAgree(store.state)
      ensures Valid() && this.store == store && this.sender == sender && this.setup == setup
    {
      this.store, this.sender, this.setup := store, sender, setup;
      pushesSent, pushErrors, matchedEvents := 0, 0, 0;
    }

    ghost predicate Counted(sent: nat, errors: nat, att: Attempts)
      reads this
    {
      pushesSent == sent + DeliveredIn(att) && pushesSent + pushErrors == sent + errors + |att|
    }

    // sendNotification
    method SendNotification(r: Request)
      requires Valid()
      modifies this, store`tokens, store`registeredDIDs, store`state, sender`log
      ensures Valid() && old(sender.log) <= sender.log
      ensures SentOne(r, old(store.state), store.state, sender.log[|old(sender.log)|..], setup)
      ensures Counted(old(pushesSent), old(pushErrors), sender.log[|old(sender.log)|..])
      ensures matchedEvents == old(matchedEvents) + Opened(old(store.state), r)
    {
      if !store.IsRegistered(r.target) || store.IsBlocked(r.actor, r.target) {
        PrunedNothing(store.state);
        return;
      }
      var rows := store.GetTokensForDID(r.target);
      matchedEvents := matchedEvents + 1;
      ghost var att := SendToAll(r, rows, matchedEvents);
      assert sender.log[|old(sender.log)|..] == att;
    }

    // The loop of sendNotification, all rows with the text of the same fetch.
    method SendToAll(r: Request, rows: seq<PushToken>, nth: nat) returns (ghost att: Attempts)
      requires Valid() && Gate(store.state, r) && RowsOf(rows, store.tokens, r.target)
      modifies this`pushesSent, this`pushErrors, store`tokens, store`registeredDIDs, store`state, sender`log
      ensures Valid() && sender.log == old(sender.log) + att
      ensures SentOne(r, old(store.state), store.state, att, setup)
      ensures Counted(old(pushesSent), old(pushErrors), att)
    {
      ghost var m := Now();
      att := [];
      PrunedNothing(m.state);
      for i := 0 to |rows|
        invariant |att| == i && Sending(r, rows, nth, m, att)
      {
        att := SendNext(r, rows, i, nth, m, att);
      }
    }

    // The rows dealt with since the mark.
    ghost predicate Sending(r: Request, rows: seq<PushToken>, nth: nat, m: Mark, att: Attempts)
      reads this, store, sender
    {
      && Valid() && Gate(m.state, r) && RowsOf(rows, m.state.tokens, r.target)
      && sender.log == m.log + att
      && InRowOrder(att, rows, r, setup, nth) && TokensPruned(m.state, store.state, att)
      && Counted(m.sent, m.errors, att)
    }

    method SendNext(r: Request, rows: seq<PushToken>, i: nat, nth: nat, ghost m: Mark, ghost att: Attempts)
      returns (ghost att': Attempts)
      requires Sending(r, rows, nth, m, att) && |att| == i < |rows|
      modifies this`pushesSent, this`pushErrors, store`tokens, store`registeredDIDs, store`state, sender`log
      ensures Sending(r, rows, nth, m, att') && |att'| == i + 1
    {
      NextRowStays(m.state, store.state, att, rows, r, setup, nth);
      ghost var x := SendTo(r, rows[i], nth, m.state, att);
      OneMoreRow(att, x, rows, r, setup, nth);
      DeliveredInOneMore(att, x);
      att' := att + [x];
    }

    // The loop body: one device.
    method SendTo(r: Request, row: PushToken, nth: nat, ghost before: S.State, ghost att: Attempts)
      returns (ghost x: Attempt<Notification>)
      requires Valid() && TokensPruned(before, store.state, att)
      requires (r.target, row.pushToken) in store.state.tokens
      requires row == RowOf(store.state.tokens, r.target, row.pushToken)
      modifies this`pushesSent, this`pushErrors, store`tokens, store`registeredDIDs, store`state, sender`log
      ensures Valid() && sender.log == old(sender.log) + [x] && x.note == NoteFor(r, setup, nth, row)
      ensures TokensPruned(before, store.state, att + [x])
      ensures pushesSent == old(pushesSent) + if x.outcome.Delivered? then 1 else 0
      ensures pushErrors == old(pushErrors) + if x.outcome.Delivered? then 0 else 1
    {
      var note := NoteFor(r, setup, nth, row);
      var outcome := sender.Send(note);
      x := Attempt(note, outcome);
      if outcome.Delivered? {
        PrunedByNothing(before, store.state, att, x);
        pushesSent := pushesSent + 1;
      } else {
        pushErrors := pushErrors + 1;
        if outcome.TokenInvalid? {
          PrunedByUnregister(before, store.state, att, x, row);
          Runs.UnregisterAgrees(store.state, row.actorDID, row.platform, row.pushToken, row.appID);
          store.UnregisterToken(row.actorDID, row.platform, row.pushToken, row.appID);
        } else {
          PrunedByNothing(before, store.state, att, x);
        }
      }
    }

    // Where a commit's sends are counted from.
    ghost function Now(): Mark
      reads this, store, sender
    {
      Mark(store.state, sender.log, pushesSent, pushErrors, matchedEvents)
    }

    // What has been done for the requests since the mark.
    ghost predicate Progress(rs: seq<Request>, m: Mark, calls: Calls)
      reads this, store, sender
    {
      && Valid() && Sent(rs, m.state, calls, store.state, setup)
      && sender.log == m.log + AttemptsOf(calls)
      && Counted(m.sent, m.errors, AttemptsOf(calls))
      && matchedEvents == m.matched + Matched(rs, calls)
    }

    lemma NoProgress()
      requires Valid()
      ensures Progress([], Now(), [])
    {
    }

    // One more call of sendNotification.
    method Ask(r: Request, ghost rs: seq<Request>, ghost m: Mark, ghost calls: Calls) returns (ghost calls': Calls)
      requires Progress(rs, m, calls)
      modifies this, store`tokens, store`registeredDIDs, store`state, sender`log
      ensures Progress(rs + [r], m, calls')
    {
      ghost var between := store.state;
      SendNotification(r);
      ghost var call := Call(between, sender.log[|old(sender.log)|..]);
      CallAdded(rs, r, m, calls, call, old(sender.log), sender.log, store.state, setup);
      calls' := calls + [call];
    }

    // handleLike and handleRepost, which differ in their reasons.
    method HandleSubject(actor: string, c: Commit, direct: string, viaRepost: string) returns (ghost calls: Calls)
      requires Valid() && c.record.LikeOrRepost?
      modifies this, store`tokens, store`registeredDIDs, store`state, sender`log
      ensures Progress(SubjectRequests(actor, c, direct, viaRepost), old(Now()), calls)
    {
      ghost var m := Now();
      NoProgress();
      calls := [];
      var target := ExtractDID(c.record.subjectURI);
      if target == "" || target == actor {
        return;
      }
      var uri := RecordURI(actor, c.collection, c.rkey);
      var first := Request(actor, target, direct, uri, c.record.subjectURI, "");
      ghost var rs: seq<Request> := [];
      calls := Ask(first, rs, m, calls);
      rs := rs + [first];
      if c.record.via.Some? {
        var reposter := ExtractDID(c.record.via.value);
        if reposter != "" && reposter != actor && reposter != target {
          calls := Ask(Request(actor, reposter, viaRepost, uri, c.record.subjectURI, ""), rs, m, calls);
        }
      }
    }

    method HandlePost(actor: string, c: Commit) returns (ghost calls: Calls)
      requires Valid() && c.record.Post?
      modifies this, store`tokens, store`registeredDIDs, store`state, sender`log
      ensures Progress(PostRequests(actor, c, setup), old(Now()), calls)
    {
      ghost var m := Now();
      NoProgress();
      var uri := RecordURI(actor, POST, c.rkey);
      var text := ShortText(c.record.text, setup);
      calls := HandleReply(actor, c, uri, text, m);
      calls := HandleQuote(actor, c, uri, text, ReplyRequests(actor, c, text), m, calls);
      ghost var rs := ReplyRequests(actor, c, text) + QuoteRequests(actor, c, text);
      calls := HandleMentions(actor, c.record.facets, uri, text, rs, m, calls);
    }

    method HandleReply(actor: string, c: Commit, uri: string, text: string, ghost m: Mark) returns (ghost calls: Calls)
      requires c.record.Post? && uri == RecordURI(actor, POST, c.rkey) && Progress([], m, [])
      modifies this, store`tokens, store`registeredDIDs, store`state, sender`log
      ensures Progress(ReplyRequests(actor, c, text), m, calls)
    {
      calls := [];
      if c.record.replyParent.Some? {
        var target := ExtractDID(c.record.replyParent.value);
        if target != "" && target != actor {
          calls := Ask(Request(actor, target, "reply", uri, c.record.replyParent.value, text), [], m, calls);
        }
      }
    }

    method HandleQuote(actor: string, c: Commit, uri: string, text: string,
                       ghost rs: seq<Request>, ghost m: Mark, ghost before: Calls) returns (ghost calls: Calls)
      requires c.record.Post? && uri == RecordURI(actor, POST, c.rkey) && Progress(rs, m, before)
      modifies this, store`tokens, store`registeredDIDs, store`state, sender`log
      ensures Progress(rs + QuoteRequests(actor, c, text), m, calls)
    {
      calls := before;
      assert rs + [] == rs;
      if c.record.embed.Some? && c.record.embed.value.0 == "app.bsky.embed.record" && c.record.embed.value.1.Some? {
        var quoted := c.record.embed.value.1.value;
        var target := ExtractDID(quoted);
        if target != "" && target != actor {
          calls := Ask(Request(actor, target, "quote", uri, quoted, text), rs, m, calls);
        }
      }
    }

    // The loops over facets and their features.
    method HandleMentions(actor: string, facets: seq<seq<Feature>>, uri: string, text: string,
                          ghost rs: seq<Request>, ghost m: Mark, ghost before: Calls) returns (ghost calls: Calls)
      requires Progress(rs, m, before)
      modifies this, store`tokens, store`registeredDIDs, store`state, sender`log
      ensures Progress(rs + MentionRequests(actor, Flat(facets), uri, text), m, calls)
    {
      calls := before;
      ghost var earlier: seq<Feature> := [];
      assert rs + [] == rs;
      for i := 0 to |facets|
        invariant Progress(rs + MentionRequests(actor, earlier, uri, text), m, calls)
        invariant earlier == Flat(facets[..i])
      {
        calls := HandleFeatures(actor, earlier, facets[i], uri, text, rs, m, calls);
        earlier := earlier + facets[i];
        FlatNext(facets, i);
      }
      assert facets[..|facets|] == facets;
    }

    method HandleFeatures(actor: string, ghost earlier: seq<Feature>, features: seq<Feature>, uri: string, text: string,
                          ghost rs: seq<Request>, ghost m: Mark, ghost before: Calls) returns (ghost calls: Calls)
      requires Progress(rs + MentionRequests(actor, earlier, uri, text), m, before)
      modifies this, store`tokens, store`registeredDIDs, store`state, sender`log
      ensures Progress(rs + MentionRequests(actor, earlier + features, uri, text), m, calls)
    {
      calls := before;
      ghost var soFar := rs + MentionRequests(actor, earlier, uri, text);
      AllFeatures(earlier, features);
      for j := 0 to |features|
        invariant Progress(soFar, m, calls)
        invariant soFar == rs + MentionRequests(actor, earlier + features[..j], uri, text)
      {
        OneMoreMention(actor, earlier, features, j, uri, text, rs);
        calls := HandleFeature(actor, features[j], uri, text, soFar, m, calls);
        soFar := rs + MentionRequests(actor, earlier + features[..j + 1], uri, text);
      }
    }

    method HandleFeature(actor: string, f: Feature, uri: string, text: string,
                         ghost rs: seq<Request>, ghost m: Mark, ghost before: Calls) returns (ghost calls: Calls)
      requires Progress(rs, m, before)
      modifies this, store`tokens, store`registeredDIDs, store`state, sender`log
      ensures Progress(if f.kind == "app.bsky.richtext.facet#mention" && f.did != "" && f.did != actor
                       then rs + [Request(actor, f.did, "mention", uri, "", text)] else rs, m, calls)
    {
      calls := before;
      if f.kind == "app.bsky.richtext.facet#mention" && f.did != "" && f.did != actor {
        calls := Ask(Request(actor, f.did, "mention", uri, "", text), rs, m, calls);
      }
    }

    // handleVerificationCreate and handleVerificationDelete after their bookkeeping.
    method HandleVerified(actor: string, subject: string, rkey: string, reason: string) returns (ghost calls: Calls)
      requires Valid() && subject != ""
      modifies this, store`tokens, store`registeredDIDs, store`state, sender`log
      ensures Progress(VerificationRequests(old(store.state), actor, subject, rkey, reason), old(Now()), calls)
    {
      NoProgress();
      calls := [];
      if store.IsRegistered(subject) {
        calls := Ask(Request(actor, subject, reason, RecordURI(actor, VERIFICATION, rkey), "", ""), [], Now(), calls);
      }
    }

    method HandleBlock(actor: string, c: Commit)
      requires Valid() && c.collection == BLOCK
      modifies store
      ensures Valid() && store.state == Recorded(old(store.state), actor, c)
    {
      if c.operation == "create" {
        if !c.record.Graph? || c.record.subject == "" {
          return;
        }
        if store.IsRegistered(actor) || store.IsRegistered(c.record.subject) {
          Runs.NextAgrees(store.state, Runs.Block(actor, c.record.subject, c.rkey),
                          S.AddBlock(store.state, actor, c.record.subject, c.rkey));
          store.AddBlock(actor, c.record.subject, c.rkey);
        }
      } else if c.operation == "delete" && c.rkey != "" {
        Runs.NextAgrees(store.state, Runs.UnblockByRKey(actor, c.rkey), S.RemoveBlockByRKey(store.state, actor, c.rkey));
        var _ := store.RemoveBlockByRKey(actor, c.rkey);
      }
    }

    method HandleVerification(actor: string, c: Commit) returns (ghost calls: Calls)
      requires Valid() && c.collection == VERIFICATION
      modifies this, store, sender`log
      ensures Progress(RequestsOf(old(store.state), actor, c, setup),
                       old(Now()).(state := Recorded(old(store.state), actor, c)), calls)
    {
      NoProgress();
      calls := [];
      if c.operation == "create" {
        calls := HandleVerificationCreate(actor, c);
      } else if c.operation == "delete" && c.rkey != "" {
        calls := HandleVerificationDelete(actor, c);
      }
    }

    method HandleVerificationCreate(actor: string, c: Commit) returns (ghost calls: Calls)
      requires Valid() && c.collection == VERIFICATION && c.operation == "create"
      modifies this, store, sender`log
      ensures Progress(RequestsOf(old(store.state), actor, c, setup),
                       old(Now()).(state := Recorded(old(store.state), actor, c)), calls)
    {
      NoProgress();
      calls := [];
      if !c.record.Graph? || c.record.subject == "" {
        return;
      }
      Runs.NextAgrees(store.state, Runs.Verify(actor, c.record.subject, c.rkey),
                      S.AddVerification(store.state, actor, c.record.subject, c.rkey));
      store.AddVerification(actor, c.record.subject, c.rkey);
      calls := HandleVerified(actor, c.record.subject, c.rkey, "verified");
    }

    method HandleVerificationDelete(actor: string, c: Commit) returns (ghost calls: Calls)
      requires Valid() && c.collection == VERIFICATION && c.operation == "delete" && c.rkey != ""
      modifies this, store, sender`log
      ensures Progress(RequestsOf(old(store.state), actor, c, setup),
                       old(Now()).(state := Recorded(old(store.state), actor, c)), calls)
    {
      NoProgress();
      calls := [];
      UnverifyAgrees(store.state, actor, c, setup);
      var subject := store.RemoveVerificationByRKey(actor, c.rkey);
      if subject == "" {
        return;
      }
      calls := HandleVerified(actor, subject, c.rkey, "unverified");
    }

    method HandleCommit(actor: string, c: Commit) returns (ghost calls: Calls)
      requires Valid()
      modifies this, store, sender`log
      ensures Progress(RequestsOf(old(store.state), actor, c, setup),
                       old(Now()).(state := Recorded(old(store.state), actor, c)), calls)
    {
      NoProgress();
      calls := [];
      if c.collection == BLOCK {
        HandleBlock(actor, c);
        NoProgress();
      } else if c.collection == VERIFICATION {
        calls := HandleVerification(actor, c);
      } else if c.operation == "create" {
        if c.collection == LIKE && c.record.LikeOrRepost? {
          calls := HandleSubject(actor, c, "like", "like-via-repost");
        } else if c.collection == REPOST && c.record.LikeOrRepost? {
          calls := HandleSubject(actor, c, "repost", "repost-via-repost");
        } else if c.collection == POST && c.record.Post? {
          calls := HandlePost(actor, c);
        } else if c.collection == FOLLOW && c.record.Graph? && c.record.subject != "" && c.record.subject != actor {
          calls := Ask(Request(actor, c.record.subject, "follow", RecordURI(actor, FOLLOW, c.rkey), "", ""), [], Now(), []);
        }
      }
    }
  }

  // What keeps the indexes of the store and its tables in agreement.
  lemma RecordAgrees(s: S.State, actor: string, c: Commit)
    requires Runs.IndexesAgree(s)
    ensures Runs.IndexesAgree(Recorded(s, actor, c))
  {
    if c.operation == "create" && c.record.Graph? {
      Runs.NextAgrees(s, Runs.Block(actor, c.record.subject, c.rkey), S.AddBlock(s, actor, c.record.subject, c.rkey));
      Runs.NextAgrees(s, Runs.Verify(actor, c.record.subject, c.rkey), S.AddVerification(s, actor, c.record.subject, c.rkey));
    } else {
      Runs.NextAgrees(s, Runs.UnblockByRKey(actor, c.rkey), S.RemoveBlockByRKey(s, actor, c.rkey));
      Runs.NextAgrees(s, Runs.UnverifyByRKey(actor, c.rkey), S.RemoveVerificationByRKey(s, actor, c.rkey));
    }
  }

  lemma PrunedAgrees(s: S.State, s': S.State, att: Attempts)
    requires Runs.IndexesAgree(s) && TokensPruned(s, s', att)
    ensures Runs.IndexesAgree(s')
  {
    forall did
      ensures |S.TokensOf(s'.tokens, did)| <= S.MAX_TOKENS_PER_DID
    {
      SubsetSize(S.TokensOf(s'.tokens, did), S.TokensOf(s.tokens, did));
    }
  }

  // -------------------------------------------------------------------------- results

  predicate AboutVerification(reason: string) {
    reason == "verified" || reason == "unverified"
  }

  predicate FromCommit(r: Request, actor: string) {
    r.actor == actor && r.target != "" && (r.target != actor || AboutVerification(r.reason))
  }

  lemma {:induction false} MentionsFromCommit(actor: string, features: seq<Feature>, uri: string, text: string)
    ensures forall r | r in MentionRequests(actor, features, uri, text) ::
        FromCommit(r, actor) && r.postText == text && r.reason == "mention"
  {
    if features == [] {
    } else {
      MentionsFromCommit(actor, features[..|features| - 1], uri, text);
    }
  }

  lemma PostRequestsFromCommit(actor: string, c: Commit, setup: Setup)
    requires c.record.Post?
    ensures forall r | r in PostRequests(actor, c, setup) :: FromCommit(r, actor)
  {
    var text := ShortText(c.record.text, setup);
    MentionsFromCommit(actor, Flat(c.record.facets), RecordURI(actor, POST, c.rkey), text);
    assert forall r | r in ReplyRequests(actor, c, text) :: FromCommit(r, actor);
    assert forall r | r in QuoteRequests(actor, c, text) :: FromCommit(r, actor);
  }

  lemma SubjectRequestsFromCommit(actor: string, c: Commit, direct: string, viaRepost: string)
    requires c.record.LikeOrRepost?
    ensures var rs := SubjectRequests(actor, c, direct, viaRepost);
      && (forall r | r in rs :: FromCommit(r, actor))
      && |rs| <= 2 && (|rs| == 2 ==> rs[0].target != rs[1].target)
  {
  }

  lemma RequestsFromCommit(s: S.State, actor: string, c: Commit, setup: Setup)
    ensures forall r | r in RequestsOf(s, actor, c, setup) :: FromCommit(r, actor)
    ensures c.collection == LIKE || c.collection == REPOST ==>
      var rs := RequestsOf(s, actor, c, setup); |rs| <= 2 && (|rs| == 2 ==> rs[0].target != rs[1].target)
  {
    var rs := RequestsOf(s, actor, c, setup);
    if c.record.Post? {
      PostRequestsFromCommit(actor, c, setup);
      assert c.collection == LIKE || c.collection == REPOST ==> rs == [];
    } else if c.record.LikeOrRepost? {
      SubjectRequestsFromCommit(actor, c, "like", "like-via-repost");
      SubjectRequestsFromCommit(actor, c, "repost", "repost-via-repost");
    } else {
      assert |rs| <= 1;
      assert rs != [] ==> FromCommit(rs[0], actor);
    }
  }

  // Bookkeeping for a commit that sends leaves the gates as they were.
  lemma GatesKeep(s: S.State, actor: string, c: Commit, r: Request, setup: Setup)
    requires r in RequestsOf(s, actor, c, setup)
    ensures Gate(Recorded(s, actor, c), r) <==> Gate(s, r)
  {
  }

  // Main result: whatever the commit, the store and the provider's answers, every
  // notification goes to someone registered, unblocked in both directions, and other than
  // the actor unless it is about a verification.
  lemma CommitNotifiesOnlyAllowed(s: S.State, s': S.State, actor: string, c: Commit, calls: Calls, setup: Setup)
    requires Sent(RequestsOf(s, actor, c, setup), Recorded(s, actor, c), calls, s', setup)
    ensures forall a | a in AttemptsOf(calls) ::
        && a.note.recipientDid in s.registered
        && !S.IsBlocked(s, actor, a.note.recipientDid)
        && a.note.actorDid == actor
        && (a.note.recipientDid != actor || AboutVerification(a.note.reason))
  {
    forall a | a in AttemptsOf(calls)
      ensures a.note.recipientDid in s.registered && !S.IsBlocked(s, actor, a.note.recipientDid)
      ensures a.note.actorDid == actor && (a.note.recipientDid != actor || AboutVerification(a.note.reason))
    {
      var r := RequestBehind(s, s', actor, c, calls, setup, a);
    }
  }

  // The request an attempt was made for.
  lemma RequestBehind(s: S.State, s': S.State, actor: string, c: Commit, calls: Calls, setup: Setup,
                      a: Attempt<Notification>) returns (r: Request)
    requires Sent(RequestsOf(s, actor, c, setup), Recorded(s, actor, c), calls, s', setup) && a in AttemptsOf(calls)
    ensures r in RequestsOf(s, actor, c, setup) && Gate(s, r) && FromCommit(r, actor)
    ensures a.note.recipientDid == r.target && a.note.actorDid == r.actor && a.note.reason == r.reason
  {
    var mid := Recorded(s, actor, c);
    r := SentOnlyForOpenGates(RequestsOf(s, actor, c, setup), mid, calls, s', setup, a);
    RequestsFromCommit(s, actor, c, setup);
    GatesKeep(s, actor, c, r, setup);
  }

  // Main result: a like or repost reaches at most two people.
  lemma LikeReachesAtMostTwo(s: S.State, s': S.State, actor: string, c: Commit, calls: Calls, setup: Setup)
    requires Sent(RequestsOf(s, actor, c, setup), Recorded(s, actor, c), calls, s', setup)
    requires c.collection == LIKE || c.collection == REPOST
    ensures |Recipients(AttemptsOf(calls))| <= 2
  {
    RequestsFromCommit(s, actor, c, setup);
    RecipientsWithin(s, s', actor, c, calls, setup);
    TargetsAtMost(RequestsOf(s, actor, c, setup));
    SubsetSize(Recipients(AttemptsOf(calls)), Targets(RequestsOf(s, actor, c, setup)));
  }

  ghost function Targets(rs: seq<Request>): set<string> {
    set r | r in rs :: r.target
  }

  lemma {:induction false} TargetsAtMost(rs: seq<Request>)
    ensures |Targets(rs)| <= |rs|
  {
    if rs == [] {
    } else {
      TargetsAtMost(rs[1..]);
      assert Targets(rs) == {rs[0].target} + Targets(rs[1..]);
    }
  }

  lemma RecipientsWithin(s: S.State, s': S.State, actor: string, c: Commit, calls: Calls, setup: Setup)
    requires Sent(RequestsOf(s, actor, c, setup), Recorded(s, actor, c), calls, s', setup)
    ensures Recipients(AttemptsOf(calls)) <= Targets(RequestsOf(s, actor, c, setup))
  {
    forall a | a in AttemptsOf(calls)
      ensures a.note.recipientDid in Targets(RequestsOf(s, actor, c, setup))
    {
      var r := RequestBehind(s, s', actor, c, calls, setup, a);
    }
  }

  ghost function Recipients(att: Attempts): set<string> {
    set a | a in att :: a.note.recipientDid
  }

  // A new block record takes effect exactly when one of its two sides is
  // registered at that moment (or the pair was blocked before).
  lemma BlockCountsExactly(s: S.State, actor: string, c: Commit)
    requires c.collection == BLOCK && c.operation == "create" && c.record.Graph? && c.record.subject != ""
    ensures S.IsBlocked(Recorded(s, actor, c), actor, c.record.subject) <==>
      S.IsBlocked(s, actor, c.record.subject) || actor in s.registered || c.record.subject in s.registered
  {
  }

  // So a block made before its target registers does not suppress a later notification, as
  // long as the blocker has not registered, which would fetch its earlier records.
  lemma EarlierBlockIsMissed(blocker: string, target: string, token: string, rkey: string)
    requires blocker != target && target != ""
    ensures var s := Recorded(S.EMPTY, blocker, Commit("create", BLOCK, rkey, Graph(target)));
      Gate(S.RegisterToken(s, target, "ios", token, "app"), Request(blocker, target, "follow", "", "", ""))
  {
    assert S.TokensOf(S.EMPTY.tokens, target) - {token} == {};
  }

  // A text that fits the lock screen: clean, and cut to the limit plus an ellipsis.
  predicate FitText(text: string, setup: Setup) {
    PostText.Clean(text) && (setup.maxRunes > 0 ==> |text| <= setup.maxRunes + 1)
  }

  lemma RequestTextsFit(s: S.State, actor: string, c: Commit, setup: Setup)
    ensures forall r | r in RequestsOf(s, actor, c, setup) :: r.postText == "" || FitText(r.postText, setup)
  {
    if c.record.Post? {
      PostTextsFit(actor, c, setup);
      assert RequestsOf(s, actor, c, setup) == PostRequests(actor, c, setup) || RequestsOf(s, actor, c, setup) == []
        || c.operation != "create";
    } else if c.record.LikeOrRepost? {
      NoTextOnSubjects(actor, c, "like", "like-via-repost");
      NoTextOnSubjects(actor, c, "repost", "repost-via-repost");
    }
  }

  lemma NoTextOnSubjects(actor: string, c: Commit, direct: string, viaRepost: string)
    requires c.record.LikeOrRepost?
    ensures forall r | r in SubjectRequests(actor, c, direct, viaRepost) :: r.postText == ""
  {
  }

  lemma PostTextsFit(actor: string, c: Commit, setup: Setup)
    requires c.record.Post?
    ensures forall r | r in PostRequests(actor, c, setup) :: FitText(r.postText, setup)
  {
    var text := ShortText(c.record.text, setup);
    PostText.CleanWhenShort(c.record.text, setup.maxRunes);
    MentionsFromCommit(actor, Flat(c.record.facets), RecordURI(actor, POST, c.rkey), text);
    assert forall r | r in ReplyRequests(actor, c, text) + QuoteRequests(actor, c, text) :: r.postText == text;
  }

  // Main result: every post text that leaves the gateway is a single clean line within the
  // limit, and only replies, quotes and mentions carry the actor's own text.
  lemma CommitTextsFit(s: S.State, s': S.State, actor: string, c: Commit, calls: Calls, setup: Setup)
    requires Sent(RequestsOf(s, actor, c, setup), Recorded(s, actor, c), calls, s', setup)
    ensures forall a | a in AttemptsOf(calls) ::
        && (a.note.reasonSubject.Some? ==> FitText(a.note.reasonSubject.value, setup))
        && (a.note.bodyText.Some? ==> CarriesActorPostText(a.note.reason) && a.note.bodyText == a.note.reasonSubject)
  {
    RequestTextsFit(s, actor, c, setup);
    var mid := Recorded(s, actor, c);
    forall a | a in AttemptsOf(calls)
      ensures a.note.reasonSubject.Some? ==> FitText(a.note.reasonSubject.value, setup)
      ensures a.note.bodyText.Some? ==> CarriesActorPostText(a.note.reason) && a.note.bodyText == a.note.reasonSubject
    {
      var r := SentOnlyForOpenGates(RequestsOf(s, actor, c, setup), mid, calls, s', setup, a);
      var nth: nat :| a.note == NoteFor(r, setup, nth, RowOf(mid.tokens, r.target, a.note.token));
      TextFits(r, setup, nth);
    }
  }

  lemma TextFits(r: Request, setup: Setup, nth: nat)
    requires r.postText == "" || FitText(r.postText, setup)
    ensures TextOf(r, setup, nth) == "" || FitText(TextOf(r, setup, nth), setup)
  {
    if setup.fetchText.Some? {
      PostText.CleanWhenShort(setup.fetchText.value(nth, r.subjectURI), setup.maxRunes);
    }
  }

  lemma TokensStay(did: string, s: S.State, s': S.State, att: Attempts)
    requires TokensPruned(s, s', att) && forall a | a in att :: a.note.recipientDid == did
    ensures forall t | (did, t) in s.tokens ::
      (did, t) in s'.tokens <==> forall a | a in att && a.note.token == t :: !a.outcome.TokenInvalid?
    ensures forall k | k in s.tokens && k.0 != did :: k in s'.tokens && s'.tokens[k] == s.tokens[k]
  {
  }

  // Main result: a DID stays registered exactly when one of its devices was not reported
  // dead, and tokens of other DIDs are not touched.
  lemma SendingPrunes(r: Request, s: S.State, s': S.State, att: Attempts, setup: Setup)
    requires SentOne(r, s, s', att, setup) && Gate(s, r) && s.registered == S.DidsOf(s.tokens)
    ensures r.target in s'.registered <==>
      exists t :: (r.target, t) in s.tokens && forall a | a in att && a.note.token == t :: !a.outcome.TokenInvalid?
    ensures forall k | k in s.tokens && k.0 != r.target :: k in s'.tokens && s'.tokens[k] == s.tokens[k]
  {
    EachDeviceOnce(r, s, s', att, setup);
    TokensStay(r.target, s, s', att);
    Runs.HasTokensIffListed(s'.tokens, r.target);
    if r.target in s'.registered {
      var t :| t in S.TokensOf(s'.tokens, r.target);
      assert (r.target, t) in s.tokens;
    }
    if t :| (r.target, t) in s.tokens && forall a | a in att && a.note.token == t :: !a.outcome.TokenInvalid? {
      assert t in S.TokensOf(s'.tokens, r.target);
    }
  }
}
