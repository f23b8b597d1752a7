// Whom a commit notifies, why and with what, in the terms of its record.
module WhoIsTold {
  import opened Common
  import opened Strings
  import opened Push
  import opened Consumer
  import S = StoreState
  import Runs = StoreRuns
  import Blocks = BlockRuns
  import PostText
  import Stores

  // ------------------------------------------------------------------- whose URI it is

  // The URI is the DID's, with or without a path.
  predicate OfDid(uri: string, t: string) {
    t != "" && '/' !in t && (uri == "at://" + t || "at://" + t + "/" <= uri)
  }

  lemma RecordURIOfDid(t: string, collection: string, rkey: string)
    requires t != "" && '/' !in t
    ensures OfDid(RecordURI(t, collection, rkey), t)
  {
    assert RecordURI(t, collection, rkey) == ("at://" + t + "/") + (collection + "/" + rkey);
  }

  // A URI that names somebody.
  predicate NamesSomebody(uri: string) {
    "at://" <= uri && |uri| > 5 && uri[5] != '/'
  }

  lemma ExtractIs(uri: string, t: string)
    requires t != ""
    ensures ExtractDID(uri) == t <==> OfDid(uri, t)
  {
    if OfDid(uri, t) {
      ExtractOfDid(uri, t);
    }
    if ExtractDID(uri) == t {
      ExtractedOfDid(uri, t);
    }
  }

  lemma ExtractedOfDid(uri: string, t: string)
    requires t != "" && ExtractDID(uri) == t
    ensures OfDid(uri, t)
  {
    var rest := uri[5..];
    assert uri == "at://" + rest;
    match Cut(rest, '/')
    case None =>
    case Some((did, path)) => assert uri == ("at://" + did + "/") + path;
  }

  lemma ExtractOfDid(uri: string, t: string)
    requires OfDid(uri, t)
    ensures ExtractDID(uri) == t
  {
    var rest := uri[5..];
    if uri == "at://" + t {
      assert rest == t;
    } else {
      var path := uri[|t| + 6..];
      assert uri == ("at://" + t + "/") + path;
      assert rest == t + ['/'] + path;
      CutAt(t, '/', path);
    }
  }

  lemma ExtractNamesSomebody(uri: string)
    ensures ExtractDID(uri) != "" <==> NamesSomebody(uri)
  {
    if "at://" <= uri {
      var rest := uri[5..];
      assert |uri| > 5 ==> rest[0] == uri[5];
      if rest != "" && rest[0] == '/' {
        assert rest == "" + ['/'] + rest[1..];
        CutAt("", '/', rest[1..]);
      }
    }
  }

  // ---------------------------------------------------------------- counting by reason

  function PushesWith(att: Attempts, did: string, token: string, reason: string): nat {
    if att == [] then 0
    else
      var n := att[|att| - 1].note;
      PushesWith(att[..|att| - 1], did, token, reason) +
      if n.recipientDid == did && n.token == token && n.reason == reason then 1 else 0
  }

  function RequestsWith(rs: seq<Request>, did: string, reason: string): nat {
    if rs == [] then 0 else RequestsWith(rs[..|rs| - 1], did, reason) + OneWith(rs[|rs| - 1], did, reason)
  }

  function OneWith(r: Request, did: string, reason: string): nat {
    if r.target == did && r.reason == reason then 1 else 0
  }

  lemma {:induction false} RequestsInBoth(a: seq<Request>, b: seq<Request>, did: string, reason: string)
    ensures RequestsWith(a + b, did, reason) == RequestsWith(a, did, reason) + RequestsWith(b, did, reason)
  {
    if b == [] {
      assert a + b == a;
    } else {
      assert (a + b)[..|a + b| - 1] == a + b[..|b| - 1];
      RequestsInBoth(a, b[..|b| - 1], did, reason);
    }
  }

  lemma {:induction false} PushesInBoth(a: Attempts, b: Attempts, did: string, token: string, reason: string)
    ensures PushesWith(a + b, did, token, reason) == PushesWith(a, did, token, reason) + PushesWith(b, did, token, reason)
  {
    if b == [] {
      assert a + b == a;
    } else {
      assert (a + b)[..|a + b| - 1] == a + b[..|b| - 1];
      PushesInBoth(a, b[..|b| - 1], did, token, reason);
    }
  }

  // All attempts of one call have the reason of its request.
  lemma {:induction false} OneReason(att: Attempts, did: string, token: string, reason: string, only: string)
    requires forall a | a in att :: a.note.reason == only
    ensures PushesWith(att, did, token, reason) == if reason == only then PushesTo(att, did, token) else 0
  {
    if att == [] {
    } else {
      assert att[|att| - 1] in att;
      OneReason(att[..|att| - 1], did, token, reason, only);
    }
  }

  lemma CallWith(r: Request, s: S.State, s': S.State, att: Attempts, setup: Setup, did: string, token: string, reason: string)
    requires SentOne(r, s, s', att, setup) && s.registered == S.DidsOf(s.tokens)
    requires !S.IsBlocked(s, r.actor, did) && (did, token) in s.tokens
    ensures PushesWith(att, did, token, reason) == OneWith(r, did, reason)
  {
    PushesOfOne(r, s, s', att, setup, did, token);
    if Gate(s, r) {
      EachDeviceOnce(r, s, s', att, setup);
    }
    OneReason(att, did, token, reason, r.reason);
  }

  // A living device of an unblocked DID gets as many pushes for a reason as there are requests.
  lemma {:induction false} PushesAreRequests(rs: seq<Request>, s: S.State, calls: Calls, s': S.State, setup: Setup,
                                             actor: string, did: string, token: string, reason: string)
    requires Sent(rs, s, calls, s', setup) && (forall r | r in rs :: r.actor == actor)
    requires !S.IsBlocked(s, actor, did) && (did, token) in s'.tokens
    ensures PushesWith(AttemptsOf(calls), did, token, reason) == RequestsWith(rs, did, reason)
    decreases |rs|
  {
    if rs == [] {
    } else {
      var n := |rs| - 1;
      var mid := calls[n].before;
      SentPrunes(rs[..n], s, calls[..n], mid, setup);
      TokenLeft(mid, s', calls[n].att, did, token);
      PushesAreRequests(rs[..n], s, calls[..n], mid, setup, actor, did, token, reason);
      CallWith(rs[n], mid, s', calls[n].att, setup, did, token, reason);
      PushesInBoth(AttemptsOf(calls[..n]), calls[n].att, did, token, reason);
    }
  }

  // ------------------------------------------------------------ the record and the reasons

  // A handled commit: the store it finds, the calls it makes, and the store it leaves.
  ghost predicate HandledCommit(setup: Setup, s: S.State, actor: string, c: Commit, calls: Calls, s': S.State) {
    Sent(RequestsOf(s, actor, c, setup), Recorded(s, actor, c), calls, s', setup)
  }

  // Somebody with a living device who is registered and not blocked either way.
  predicate CanBeTold(s: S.State, s': S.State, actor: string, t: string, token: string) {
    t != "" && t in s.registered && (t, actor) !in s.blocks && (actor, t) !in s.blocks && (t, token) in s'.tokens
  }

  predicate Sends(c: Commit) {
    c.collection != "app.bsky.graph.block"
  }

  lemma ToldAsAsked(setup: Setup, s: S.State, actor: string, c: Commit, calls: Calls, s': S.State,
                    t: string, token: string, reason: string)
    requires HandledCommit(setup, s, actor, c, calls, s') && CanBeTold(s, s', actor, t, token) && Sends(c)
    ensures PushesWith(AttemptsOf(calls), t, token, reason) == RequestsWith(RequestsOf(s, actor, c, setup), t, reason)
  {
    RequestsFromCommit(s, actor, c, setup);
    assert !S.IsBlocked(Recorded(s, actor, c), actor, t);
    PushesAreRequests(RequestsOf(s, actor, c, setup), Recorded(s, actor, c), calls, s', setup, actor, t, token, reason);
  }

  lemma OneRequest(r: Request, did: string, reason: string)
    ensures RequestsWith([r], did, reason) == OneWith(r, did, reason)
  {
    assert [r][..0] == [];
  }

  // How often the facets mention t.
  function MentionsIn(features: seq<Feature>, t: string): nat {
    if features == [] then 0
    else
      var f := features[|features| - 1];
      MentionsIn(features[..|features| - 1], t) + if f.kind == "app.bsky.richtext.facet#mention" && f.did == t then 1 else 0
  }

  function MentionsOf(facets: seq<seq<Feature>>, t: string): nat {
    if facets == [] then 0 else MentionsOf(facets[..|facets| - 1], t) + MentionsIn(facets[|facets| - 1], t)
  }

  lemma {:induction false} MentionsInBoth(a: seq<Feature>, b: seq<Feature>, t: string)
    ensures MentionsIn(a + b, t) == MentionsIn(a, t) + MentionsIn(b, t)
  {
    if b == [] {
      assert a + b == a;
    } else {
      assert (a + b)[..|a + b| - 1] == a + b[..|b| - 1];
      MentionsInBoth(a, b[..|b| - 1], t);
    }
  }

  lemma {:induction false} MentionsOfFlat(facets: seq<seq<Feature>>, t: string)
    ensures MentionsIn(Flat(facets), t) == MentionsOf(facets, t)
  {
    if facets == [] {
    } else {
      MentionsOfFlat(facets[..|facets| - 1], t);
      MentionsInBoth(Flat(facets[..|facets| - 1]), facets[|facets| - 1], t);
    }
  }

  lemma {:induction false} MentionsAsked(actor: string, features: seq<Feature>, uri: string, text: string, t: string, reason: string)
    requires t != "" && t != actor
    ensures RequestsWith(MentionRequests(actor, features, uri, text), t, reason) ==
      if reason == "mention" then MentionsIn(features, t) else 0
  {
    if features == [] {
    } else {
      var n := |features| - 1;
      var f := features[n];
      MentionsAsked(actor, features[..n], uri, text, t, reason);
      var r := Request(actor, f.did, "mention", uri, "", text);
      RequestsInBoth(MentionRequests(actor, features[..n], uri, text),
        if f.kind == "app.bsky.richtext.facet#mention" && f.did != "" && f.did != actor then [r] else [], t, reason);
      OneRequest(r, t, reason);
    }
  }

  // The embedded record of a post, if it embeds one.
  function Quoted(record: Record): Option<string>
    requires record.Post?
  {
    if record.embed.Some? && record.embed.value.0 == "app.bsky.embed.record" then record.embed.value.1 else None
  }

  function Indicator(b: bool): nat {
    if b then 1 else 0
  }

  lemma ReplyAsked(actor: string, c: Commit, text: string, t: string, reason: string)
    requires c.record.Post? && t != "" && t != actor
    ensures RequestsWith(ReplyRequests(actor, c, text), t, reason) ==
      Indicator(reason == "reply" && c.record.replyParent.Some? && OfDid(c.record.replyParent.value, t))
  {
    if c.record.replyParent.Some? {
      ExtractIs(c.record.replyParent.value, t);
      var target := ExtractDID(c.record.replyParent.value);
      OneRequest(Request(actor, target, "reply", RecordURI(actor, POST, c.rkey), c.record.replyParent.value, text), t, reason);
    }
  }

  lemma QuoteAsked(actor: string, c: Commit, text: string, t: string, reason: string)
    requires c.record.Post? && t != "" && t != actor
    ensures RequestsWith(QuoteRequests(actor, c, text), t, reason) ==
      Indicator(reason == "quote" && Quoted(c.record).Some? && OfDid(Quoted(c.record).value, t))
  {
    if Quoted(c.record).Some? {
      ExtractIs(Quoted(c.record).value, t);
      var target := ExtractDID(Quoted(c.record).value);
      OneRequest(Request(actor, target, "quote", RecordURI(actor, POST, c.rkey), Quoted(c.record).value, text), t, reason);
    }
  }

  // Main result: a new post tells somebody other than the author, on each living device,
  // once as a reply if its parent is theirs, once as a quote if the embedded record is, once
  // for each feature that mentions them, and for no other reason.
  lemma PostTells(setup: Setup, s: S.State, actor: string, c: Commit, calls: Calls, s': S.State, t: string, token: string, reason: string)
    requires HandledCommit(setup, s, actor, c, calls, s') && CanBeTold(s, s', actor, t, token) && t != actor
    requires c.operation == "create" && c.collection == "app.bsky.feed.post" && c.record.Post?
    ensures PushesWith(AttemptsOf(calls), t, token, reason) ==
      if reason == "reply" then Indicator(c.record.replyParent.Some? && OfDid(c.record.replyParent.value, t))
      else if reason == "quote" then Indicator(Quoted(c.record).Some? && OfDid(Quoted(c.record).value, t))
      else if reason == "mention" then MentionsOf(c.record.facets, t)
      else 0
  {
    var text := ShortText(c.record.text, setup);
    var replies, quotes := ReplyRequests(actor, c, text), QuoteRequests(actor, c, text);
    var mentions := MentionRequests(actor, Flat(c.record.facets), RecordURI(actor, POST, c.rkey), text);
    ToldAsAsked(setup, s, actor, c, calls, s', t, token, reason);
    RequestsInBoth(replies + quotes, mentions, t, reason);
    RequestsInBoth(replies, quotes, t, reason);
    ReplyAsked(actor, c, text, t, reason);
    QuoteAsked(actor, c, text, t, reason);
    MentionsAsked(actor, Flat(c.record.facets), RecordURI(actor, POST, c.rkey), text, t, reason);
    MentionsOfFlat(c.record.facets, t);
  }

  lemma SubjectAsked(actor: string, c: Commit, direct: string, viaRepost: string, t: string, reason: string)
    requires c.record.LikeOrRepost? && t != "" && t != actor && direct != viaRepost
    ensures RequestsWith(SubjectRequests(actor, c, direct, viaRepost), t, reason) ==
      if reason == direct then Indicator(OfDid(c.record.subjectURI, t))
      else if reason == viaRepost then
        Indicator(c.record.via.Some? && OfDid(c.record.via.value, t) && !OfDid(c.record.subjectURI, t)
          && NamesSomebody(c.record.subjectURI) && !OfDid(c.record.subjectURI, actor))
      else 0
  {
    var target := ExtractDID(c.record.subjectURI);
    ExtractIs(c.record.subjectURI, t);
    ExtractNamesSomebody(c.record.subjectURI);
    if actor != "" {
      ExtractIs(c.record.subjectURI, actor);
    }
    if target != "" && target != actor {
      var uri := RecordURI(actor, c.collection, c.rkey);
      var first := Request(actor, target, direct, uri, c.record.subjectURI, "");
      OneRequest(first, t, reason);
      if c.record.via.Some? {
        ExtractIs(c.record.via.value, t);
        var reposter := ExtractDID(c.record.via.value);
        var second := Request(actor, reposter, viaRepost, uri, c.record.subjectURI, "");
        OneRequest(second, t, reason);
        RequestsInBoth([first], if reposter == "" || reposter == actor || reposter == target then [] else [second], t, reason);
      } else {
        assert [first] + [] == [first];
      }
    }
  }

  // Main result: a new like or repost tells the author of its subject, and, unless the
  // subject is the actor's own or nobody's, whoever's repost it came by, if that is somebody
  // else than the author.
  lemma LikeTells(setup: Setup, s: S.State, actor: string, c: Commit, calls: Calls, s': S.State, t: string, token: string, reason: string)
    requires HandledCommit(setup, s, actor, c, calls, s') && CanBeTold(s, s', actor, t, token) && t != actor
    requires c.operation == "create" && (c.collection == "app.bsky.feed.like" || c.collection == "app.bsky.feed.repost")
    requires c.record.LikeOrRepost?
    ensures var like := c.collection == "app.bsky.feed.like";
      PushesWith(AttemptsOf(calls), t, token, reason) ==
      if reason == (if like then "like" else "repost") then Indicator(OfDid(c.record.subjectURI, t))
      else if reason == (if like then "like-via-repost" else "repost-via-repost") then
        Indicator(c.record.via.Some? && OfDid(c.record.via.value, t) && !OfDid(c.record.subjectURI, t)
          && NamesSomebody(c.record.subjectURI) && !OfDid(c.record.subjectURI, actor))
      else 0
  {
    ToldAsAsked(setup, s, actor, c, calls, s', t, token, reason);
    if c.collection == "app.bsky.feed.like" {
      SubjectAsked(actor, c, "like", "like-via-repost", t, reason);
    } else {
      SubjectAsked(actor, c, "repost", "repost-via-repost", t, reason);
    }
  }

  // Main result: a new follow tells its subject.
  lemma FollowTells(setup: Setup, s: S.State, actor: string, c: Commit, calls: Calls, s': S.State, t: string, token: string, reason: string)
    requires HandledCommit(setup, s, actor, c, calls, s') && CanBeTold(s, s', actor, t, token) && t != actor
    requires c.operation == "create" && c.collection == "app.bsky.graph.follow" && c.record.Graph?
    ensures PushesWith(AttemptsOf(calls), t, token, reason) == Indicator(reason == "follow" && c.record.subject == t)
  {
    ToldAsAsked(setup, s, actor, c, calls, s', t, token, reason);
    OneRequest(Request(actor, c.record.subject, "follow", RecordURI(actor, FOLLOW, c.rkey), "", ""), t, reason);
  }

  // Main result: a new verification tells its subject, the verifier included.
  lemma VerificationTells(setup: Setup, s: S.State, actor: string, c: Commit, calls: Calls, s': S.State,
                          t: string, token: string, reason: string)
    requires HandledCommit(setup, s, actor, c, calls, s') && CanBeTold(s, s', actor, t, token)
    requires c.operation == "create" && c.collection == "app.bsky.graph.verification" && c.record.Graph?
    ensures PushesWith(AttemptsOf(calls), t, token, reason) == Indicator(reason == "verified" && c.record.subject == t)
  {
    ToldAsAsked(setup, s, actor, c, calls, s', t, token, reason);
    VerificationAsked(setup, s, actor, c, t, reason);
  }

  lemma VerificationAsked(setup: Setup, s: S.State, actor: string, c: Commit, t: string, reason: string)
    requires c.operation == "create" && c.collection == "app.bsky.graph.verification" && c.record.Graph?
    requires t != "" && t in s.registered
    ensures RequestsWith(RequestsOf(s, actor, c, setup), t, reason) == Indicator(reason == "verified" && c.record.subject == t)
  {
    var r := Request(actor, c.record.subject, "verified", RecordURI(actor, VERIFICATION, c.rkey), "", "");
    OneRequest(r, t, reason);
    assert RequestsOf(s, actor, c, setup) == if c.record.subject == "" || c.record.subject !in s.registered then [] else [r];
  }

  // The subject of the verification record there is after the first n events, or "".
  function LastVerified(events: seq<Blocks.Event>, n: nat, verifier: string, rkey: string): string
    requires n <= |events|
  {
    if n == 0 then ""
    else
      var e := events[n - 1];
      if e.Handled? && e.actor == verifier && e.commit.rkey == rkey && e.commit.collection == "app.bsky.graph.verification" then
        if e.commit.operation == "create" && e.commit.record.Graph? && e.commit.record.subject != "" then e.commit.record.subject
        else if e.commit.operation == "delete" && rkey != "" then ""
        else LastVerified(events, n - 1, verifier, rkey)
      else LastVerified(events, n - 1, verifier, rkey)
  }

  lemma {:induction false} VerificationsFollowed(setup: Setup, states: seq<S.State>, events: seq<Blocks.Event>, n: nat,
                                                 verifier: string, rkey: string)
    requires Blocks.Run(setup, states, events) && n <= |events|
    ensures S.Lookup(states[n].verificationsByRKey, (verifier, rkey)) == LastVerified(events, n, verifier, rkey)
  {
    if n == 0 {
    } else {
      VerificationsFollowed(setup, states, events, n - 1, verifier, rkey);
      Blocks.RunAgrees(setup, states, events, n - 1);
      assert Blocks.Step(setup, states[n - 1], events[n - 1], states[n]);
      VerificationStep(setup, states[n - 1], events[n - 1], states[n], verifier, rkey);
    }
  }

  lemma VerificationStep(setup: Setup, s: S.State, e: Blocks.Event, s': S.State, verifier: string, rkey: string)
    requires Runs.IndexesAgree(s) && Blocks.Step(setup, s, e, s')
    ensures var before, after := S.Lookup(s.verificationsByRKey, (verifier, rkey)), S.Lookup(s'.verificationsByRKey, (verifier, rkey));
      after ==
      if e.Handled? && e.actor == verifier && e.commit.rkey == rkey && e.commit.collection == "app.bsky.graph.verification" then
        if e.commit.operation == "create" && e.commit.record.Graph? && e.commit.record.subject != "" then e.commit.record.subject
        else if e.commit.operation == "delete" && rkey != "" then ""
        else before
      else before
  {
    if e.Handled? {
      var rs, mid := RequestsOf(s, e.actor, e.commit, setup), Recorded(s, e.actor, e.commit);
      var calls :| Sent(rs, mid, calls, s', setup);
      SentPrunes(rs, mid, calls, s', setup);
      RecordedVerification(s, e.actor, e.commit, verifier, rkey);
    }
  }

  lemma RecordedVerification(s: S.State, actor: string, c: Commit, verifier: string, rkey: string)
    ensures var before := S.Lookup(s.verificationsByRKey, (verifier, rkey));
      S.Lookup(Recorded(s, actor, c).verificationsByRKey, (verifier, rkey)) ==
      if actor == verifier && c.rkey == rkey && c.collection == "app.bsky.graph.verification" then
        if c.operation == "create" && c.record.Graph? && c.record.subject != "" then c.record.subject
        else if c.operation == "delete" && rkey != "" then ""
        else before
      else before
  {
    if c.collection != VERIFICATION {
      ElsewhereNoVerification(s, actor, c);
    }
  }

  lemma ElsewhereNoVerification(s: S.State, actor: string, c: Commit)
    requires c.collection != "app.bsky.graph.verification"
    ensures Recorded(s, actor, c).verificationsByRKey == s.verificationsByRKey
  {
  }

  // Main result: in every run, deleting a verification record tells the subject that the
  // record had.
  lemma UnverificationTells(setup: Setup, states: seq<S.State>, events: seq<Blocks.Event>, i: nat,
                            calls: Calls, t: string, token: string, reason: string)
    requires Blocks.Run(setup, states, events) && i < |events| && events[i].Handled?
    requires var c := events[i].commit;
      && c.operation == "delete" && c.collection == "app.bsky.graph.verification" && c.rkey != ""
      && HandledCommit(setup, states[i], events[i].actor, c, calls, states[i + 1])
    requires CanBeTold(states[i], states[i + 1], events[i].actor, t, token)
    ensures PushesWith(AttemptsOf(calls), t, token, reason) ==
      Indicator(reason == "unverified" && LastVerified(events, i, events[i].actor, events[i].commit.rkey) == t)
  {
    var actor, c := events[i].actor, events[i].commit;
    ToldAsAsked(setup, states[i], actor, c, calls, states[i + 1], t, token, reason);
    VerificationsFollowed(setup, states, events, i, actor, c.rkey);
    var subject := LastVerified(events, i, actor, c.rkey);
    OneRequest(Request(actor, subject, "unverified", RecordURI(actor, VERIFICATION, c.rkey), "", ""), t, reason);
  }

  // The record is of the kind that the collection asks for.
  predicate Fits(c: Commit) {
    match c.collection
    case "app.bsky.feed.like" => c.record.LikeOrRepost?
    case "app.bsky.feed.repost" => c.record.LikeOrRepost?
    case "app.bsky.feed.post" => c.record.Post?
    case "app.bsky.graph.follow" => c.record.Graph?
    case "app.bsky.graph.verification" => c.record.Graph?
    case _ => false
  }

  // Main result: nothing else tells anybody.
  lemma NothingElseTells(setup: Setup, s: S.State, actor: string, c: Commit, calls: Calls, s': S.State)
    requires HandledCommit(setup, s, actor, c, calls, s')
    requires !(c.operation == "create" && Fits(c))
    requires !(c.operation == "delete" && c.collection == "app.bsky.graph.verification" && c.rkey != "")
    ensures AttemptsOf(calls) == []
  {
    assert RequestsOf(s, actor, c, setup) == [];
  }

  // ------------------------------------------------------------------ what they are told

  // The text, or nothing if it is empty.
  predicate IsText(field: Option<string>, text: string) {
    if text == "" then field.None? else field == Some(text)
  }

  // The lock-screen text of a raw one.
  function Screen(raw: string, setup: Setup): string {
    PostText.Truncated(PostText.Sanitized(raw), setup.maxRunes)
  }

  // What all notifications of a commit say: whose device and on which platform, who did it
  // and where the record is.
  predicate SaysWho(s: S.State, note: Notification, actor: string, collection: string, rkey: string) {
    && (note.recipientDid, note.token) in s.tokens && note.platform == s.tokens[(note.recipientDid, note.token)].platform
    && note.actorDid == actor && note.uri == "at://" + actor + "/" + collection + "/" + rkey
  }

  lemma SomeRequest(setup: Setup, s: S.State, actor: string, c: Commit, calls: Calls, s': S.State, a: Attempt<Notification>)
    returns (r: Request, nth: nat)
    requires HandledCommit(setup, s, actor, c, calls, s') && a in AttemptsOf(calls)
    ensures r in RequestsOf(s, actor, c, setup) && (r.target, a.note.token) in s.tokens
    ensures a.note == NoteFor(r, setup, nth, Stores.PushToken(r.target, s.tokens[(r.target, a.note.token)].platform,
      a.note.token, s.tokens[(r.target, a.note.token)].appId))
  {
    var mid := Recorded(s, actor, c);
    assert mid.tokens == s.tokens by { Blocks.RecordedRegistered(s, actor, c); }
    r := SentOnlyForOpenGates(RequestsOf(s, actor, c, setup), mid, calls, s', setup, a);
    nth :| a.note == NoteFor(r, setup, nth, Stores.RowOf(mid.tokens, r.target, a.note.token));
  }

  // Main result: replies, quotes and mentions say what the post says, fit for the screen, and
  // what it replies to or quotes.
  lemma PostSays(setup: Setup, s: S.State, actor: string, c: Commit, calls: Calls, s': S.State, a: Attempt<Notification>)
    requires HandledCommit(setup, s, actor, c, calls, s') && a in AttemptsOf(calls)
    requires c.operation == "create" && c.collection == "app.bsky.feed.post" && c.record.Post?
    ensures SaysWho(s, a.note, actor, "app.bsky.feed.post", c.rkey)
    ensures IsText(a.note.reasonSubject, Screen(c.record.text, setup)) && IsText(a.note.bodyText, Screen(c.record.text, setup))
    ensures a.note.reason == "reply" || a.note.reason == "quote" || a.note.reason == "mention"
    ensures a.note.reason == "reply" ==> a.note.subject == c.record.replyParent
    ensures a.note.reason == "quote" ==> a.note.subject == Quoted(c.record)
    ensures a.note.reason == "mention" ==> a.note.subject == None
  {
    var r, nth := SomeRequest(setup, s, actor, c, calls, s', a);
    PostAsks(actor, c, setup, r);
  }

  lemma {:induction false} MentionsSay(actor: string, features: seq<Feature>, uri: string, text: string, r: Request)
    requires r in MentionRequests(actor, features, uri, text)
    ensures r.actor == actor && r.recordURI == uri && r.postText == text && r.reason == "mention" && r.subjectURI == ""
  {
    var n := |features| - 1;
    if r in MentionRequests(actor, features[..n], uri, text) {
      MentionsSay(actor, features[..n], uri, text, r);
    }
  }

  lemma PostAsks(actor: string, c: Commit, setup: Setup, r: Request)
    requires c.record.Post? && r in PostRequests(actor, c, setup)
    ensures r.actor == actor && r.recordURI == RecordURI(actor, POST, c.rkey) && r.postText == ShortText(c.record.text, setup)
    ensures match r.reason
      case "reply" => c.record.replyParent == Some(r.subjectURI) && r.subjectURI != ""
      case "quote" => Quoted(c.record) == Some(r.subjectURI) && r.subjectURI != ""
      case "mention" => r.subjectURI == ""
      case _ => false
  {
    var text := ShortText(c.record.text, setup);
    if r in MentionRequests(actor, Flat(c.record.facets), RecordURI(actor, POST, c.rkey), text) {
      MentionsSay(actor, Flat(c.record.facets), RecordURI(actor, POST, c.rkey), text, r);
    }
  }

  lemma LikeAsks(setup: Setup, s: S.State, actor: string, c: Commit, r: Request)
    requires c.operation == "create" && (c.collection == "app.bsky.feed.like" || c.collection == "app.bsky.feed.repost")
    requires c.record.LikeOrRepost? && r in RequestsOf(s, actor, c, setup)
    ensures r.actor == actor && r.recordURI == RecordURI(actor, c.collection, c.rkey)
    ensures r.subjectURI == c.record.subjectURI != "" && r.postText == ""
    ensures r.reason == "like" || r.reason == "like-via-repost" || r.reason == "repost" || r.reason == "repost-via-repost"
  {
    if c.collection == "app.bsky.feed.like" {
      SubjectAsks(actor, c, "like", "like-via-repost", r);
    } else {
      SubjectAsks(actor, c, "repost", "repost-via-repost", r);
    }
  }

  lemma SubjectAsks(actor: string, c: Commit, direct: string, viaRepost: string, r: Request)
    requires c.record.LikeOrRepost? && r in SubjectRequests(actor, c, direct, viaRepost)
    ensures r.actor == actor && r.recordURI == RecordURI(actor, c.collection, c.rkey)
    ensures r.subjectURI == c.record.subjectURI != "" && r.postText == ""
    ensures r.reason == direct || r.reason == viaRepost
  {
  }

  // Main result: likes and reposts say whose post, and the text that a fetch of it got, fit
  // for the screen, if there is a fetcher.
  lemma LikeSays(setup: Setup, s: S.State, actor: string, c: Commit, calls: Calls, s': S.State, a: Attempt<Notification>)
    requires HandledCommit(setup, s, actor, c, calls, s') && a in AttemptsOf(calls)
    requires c.operation == "create" && (c.collection == "app.bsky.feed.like" || c.collection == "app.bsky.feed.repost")
    requires c.record.LikeOrRepost?
    ensures SaysWho(s, a.note, actor, c.collection, c.rkey)
    ensures a.note.subject == Some(c.record.subjectURI) && a.note.bodyText == None
    ensures setup.fetchText.None? ==> a.note.reasonSubject == None
    ensures setup.fetchText.Some? ==>
      exists nth: nat :: IsText(a.note.reasonSubject, Screen(setup.fetchText.value(nth, c.record.subjectURI), setup))
  {
    var r, nth := SomeRequest(setup, s, actor, c, calls, s', a);
    LikeAsks(setup, s, actor, c, r);
    if setup.fetchText.Some? {
      assert IsText(a.note.reasonSubject, Screen(setup.fetchText.value(nth, c.record.subjectURI), setup));
    }
  }

  // Main result: follows and verifications say who did it and where, and nothing else.
  lemma GraphSays(setup: Setup, s: S.State, actor: string, c: Commit, calls: Calls, s': S.State, a: Attempt<Notification>)
    requires HandledCommit(setup, s, actor, c, calls, s') && a in AttemptsOf(calls)
    requires c.collection == "app.bsky.graph.follow" || c.collection == "app.bsky.graph.verification"
    ensures SaysWho(s, a.note, actor, c.collection, c.rkey)
    ensures a.note.subject == None && a.note.reasonSubject == None && a.note.bodyText == None
  {
    var r, nth := SomeRequest(setup, s, actor, c, calls, s', a);
    GraphAsks(setup, s, actor, c, r);
  }

  lemma GraphAsks(setup: Setup, s: S.State, actor: string, c: Commit, r: Request)
    requires c.collection == "app.bsky.graph.follow" || c.collection == "app.bsky.graph.verification"
    requires r in RequestsOf(s, actor, c, setup)
    ensures r.actor == actor && r.recordURI == RecordURI(actor, c.collection, c.rkey) && r.subjectURI == "" && r.postText == ""
    ensures r.reason == "follow" || r.reason == "verified" || r.reason == "unverified"
  {
  }
}
