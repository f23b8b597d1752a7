// What a registration stores and when a push is delivered, in the terms of the requests.
module RelayDelivery {
  import opened Common
  import opened Strings
  import opened Push
  import opened RelayState
  import opened RelaySteps
  import opened RateLimiter
  import Base64
  import Vapid

  // --------------------------------------------------------------------------- pushes

  // The limiter lets a call at this time through.
  predicate LetsThrough(s: State, id: string, now: int) {
    id in s.windows ==> now - s.windows[id].start > 60_000_000_000 || s.windows[id].count < 60
  }

  // A body that was read, has 1 to 2800 bytes and a content encoding that the relay knows.
  predicate Acceptable(payload: Option<seq<Byte>>, encoding: string) {
    payload.Some? && 1 <= |payload.value| <= 2800 && (encoding == "" || encoding == "aes128gcm")
  }

  lemma AcceptableIsForwardable(payload: Option<seq<Byte>>, encoding: string)
    requires payload.Some?
    ensures Forwardable(Cut64K(payload.value), encoding) <==> Acceptable(payload, encoding)
    ensures Acceptable(payload, encoding) ==> Cut64K(payload.value) == payload.value
  {
  }

  // A note that carries the body to the device.
  predicate Carries(note: Note, deviceToken: string, platform: string, body: seq<Byte>) {
    && note.token == deviceToken && note.platform == platform && note.title == "Fediverse" && note.source == "webpush"
    && Base64.Decode(note.m, Base64.RAW_URL) == Some(body)
  }

  // From s to s', the push sent one note to the device, or none.
  predicate SentOnce(s: State, s': State, e: Endpoint, payload: Option<seq<Byte>>, answer: Outcome) {
    && payload.Some? && |s'.sends| == |s.sends| + 1 && s.sends <= s'.sends
    && s'.sends[|s.sends|].outcome == answer
    && Carries(s'.sends[|s.sends|].note, e.deviceToken, e.platform, payload.value)
  }

  function StatusOf(answer: Outcome): int {
    match answer case Delivered => 201 case Transient => 502 case TokenInvalid => 404
  }

  // The push delivers exactly when it is good, and otherwise is answered 202, or 500 if it
  // is let in but its body cannot be read.
  predicate DeliversExactly(c: Config, s: State, op: Op, e: Endpoint, letIn: bool)
    requires op.Push?
  {
    var (s', status) := Pushed(c, s, op);
    if letIn && Acceptable(op.payload, op.encoding) then SentOnce(s, s', e, op.payload, op.answer) && status == StatusOf(op.answer)
    else s'.sends == s.sends && status == if letIn && op.payload.None? then 500 else 202
  }

  lemma DeliversWhenAuthorized(c: Config, s: State, op: Op, e: Endpoint)
    requires op.Push? && !op.lookupFails && c.hash(op.id) in s.endpoints && s.endpoints[c.hash(op.id)] == e
    requires LetsThrough(s, op.id, op.now)
    ensures DeliversExactly(c, s, op, e, Authorized(c, e, op))
  {
    if op.payload.Some? {
      AcceptableIsForwardable(op.payload, op.encoding);
      var s1 := s.(windows := Allowed(s.windows, op.id, op.now));
      SendingCarries(s1, e, op);
      assert Admits(s.windows, op.id, op.now);
      assert Pushed(c, s, op) == Admitted(c, s1, e, op);
    }
  }

  lemma SendingCarries(s: State, e: Endpoint, op: Op)
    requires op.Push? && op.payload.Some?
    ensures Acceptable(op.payload, op.encoding) ==> SentOnce(s, Sent(s, e, op), e, op.payload, op.answer)
  {
    AcceptableIsForwardable(op.payload, op.encoding);
    Base64.DecodeInvertsEncode(Cut64K(op.payload.value), Base64.RAW_URL);
  }

  // The offered key b is the pinned key a, a point of 65 bytes, and signed the token.
  predicate Signed(crypto: Vapid.Crypto, a: seq<Byte>, b: seq<Byte>, token: string) {
    a == b && |b| == 65 && b[0] == 4 && crypto.onCurve(b) && crypto.jwtValid(token, b)
  }

  // Main result: a push to an endpoint pinned to a, in any encoding, with a header that
  // offers b in any encoding and layout, delivers exactly when b is a and signed the token,
  // and the body is acceptable.
  lemma PinnedPushDelivers(c: Config, s: State, op: Op, e: Endpoint, a: seq<Byte>, ea: Base64.Encoding,
                           token: string, b: seq<Byte>, eb: Base64.Encoding, l: Vapid.Layout)
    requires op.Push? && !op.lookupFails && c.hash(op.id) in s.endpoints && s.endpoints[c.hash(op.id)] == e
    requires LetsThrough(s, op.id, op.now)
    requires a != [] && e.vapidPublicKey == Base64.Encode(a, ea)
    requires b != [] && Vapid.WellFormedValue(token) && l.Ok()
    requires op.authorization == Vapid.Print(Vapid.Header(token, Base64.Encode(b, eb)), l)
    ensures DeliversExactly(c, s, op, e, Signed(c.crypto, a, b, token))
  {
    DeliversWhenAuthorized(c, s, op, e);
    Base64.EncodeUsesAlphabet(a, ea);
    Vapid.PinnedCheck(token, b, eb, l, a, ea, c.crypto);
  }

  // Main result: a push to an endpoint without a pin delivers exactly when its body is
  // acceptable, whatever its header.
  lemma UnpinnedPushDelivers(c: Config, s: State, op: Op, e: Endpoint)
    requires op.Push? && !op.lookupFails && c.hash(op.id) in s.endpoints && s.endpoints[c.hash(op.id)] == e
    requires LetsThrough(s, op.id, op.now) && e.vapidPublicKey == ""
    ensures DeliversExactly(c, s, op, e, true)
  {
    DeliversWhenAuthorized(c, s, op, e);
  }

  // What is answered before anything is checked.
  lemma EarlyAnswers(c: Config, s: State, op: Op)
    requires op.Push?
    ensures op.lookupFails ==> Pushed(c, s, op) == (s, 500)
    ensures !op.lookupFails && c.hash(op.id) !in s.endpoints ==> Pushed(c, s, op) == (s, 404)
    ensures !op.lookupFails && c.hash(op.id) in s.endpoints && !LetsThrough(s, op.id, op.now) ==>
      Pushed(c, s, op).1 == 429 && Pushed(c, s, op).0.sends == s.sends && Pushed(c, s, op).0.endpoints == s.endpoints
  {
  }

  // ---------------------------------------------------------- pushes, step by step

  // With anything between the steps: after admission a good push goes on, any other one is
  // answered, and what goes on is sent.
  predicate GoesOnExactly(c: Config, w: World, n: nat, letIn: bool)
    requires WellFormed(w) && Enabled(w, Admit(n))
  {
    var op := w.waiting[n].op;
    Answer(c, w, Admit(n)) ==
      if letIn && Acceptable(op.payload, op.encoding) then None
      else if letIn && op.payload.None? then Some(500) else Some(202)
  }

  lemma GoesOnWhenAuthorized(c: Config, w: World, n: nat)
    requires WellFormed(w) && Enabled(w, Admit(n)) && LetsThrough(w.relay, w.waiting[n].op.id, w.waiting[n].op.now)
    ensures GoesOnExactly(c, w, n, Authorized(c, w.waiting[n].e, w.waiting[n].op))
  {
    var op := w.waiting[n].op;
    if op.payload.Some? {
      AcceptableIsForwardable(op.payload, op.encoding);
    }
  }

  // Main result: the same with anything going on between the steps.
  lemma PinnedPushGoesOn(c: Config, w: World, n: nat, a: seq<Byte>, ea: Base64.Encoding,
                         token: string, b: seq<Byte>, eb: Base64.Encoding, l: Vapid.Layout)
    requires WellFormed(w) && Enabled(w, Admit(n)) && LetsThrough(w.relay, w.waiting[n].op.id, w.waiting[n].op.now)
    requires a != [] && w.waiting[n].e.vapidPublicKey == Base64.Encode(a, ea)
    requires b != [] && Vapid.WellFormedValue(token) && l.Ok()
    requires w.waiting[n].op.authorization == Vapid.Print(Vapid.Header(token, Base64.Encode(b, eb)), l)
    ensures GoesOnExactly(c, w, n, Signed(c.crypto, a, b, token))
  {
    GoesOnWhenAuthorized(c, w, n);
    Base64.EncodeUsesAlphabet(a, ea);
    Vapid.PinnedCheck(token, b, eb, l, a, ea, c.crypto);
  }

  lemma UnpinnedPushGoesOn(c: Config, w: World, n: nat)
    requires WellFormed(w) && Enabled(w, Admit(n)) && LetsThrough(w.relay, w.waiting[n].op.id, w.waiting[n].op.now)
    requires w.waiting[n].e.vapidPublicKey == ""
    ensures GoesOnExactly(c, w, n, true)
  {
    GoesOnWhenAuthorized(c, w, n);
  }

  // The steps around admission: what is found goes on, and what passed is sent once.
  lemma LookupAndSend(c: Config, w: World, n: nat, op: Op)
    requires WellFormed(w)
    ensures Enabled(w, Lookup(n, op)) ==>
      && (Answer(c, w, Lookup(n, op)) ==
            if op.lookupFails then Some(500) else if c.hash(op.id) in w.relay.endpoints then None else Some(404))
      && (Answer(c, w, Lookup(n, op)).None? ==>
            AfterStep(c, w, Lookup(n, op)).waiting == w.waiting[n := Waiting(op, w.relay.endpoints[c.hash(op.id)], Found)])
    ensures Enabled(w, Send(n)) && Acceptable(w.waiting[n].op.payload, w.waiting[n].op.encoding) ==>
      var q := w.waiting[n];
      && SentOnce(w.relay, AfterStep(c, w, Send(n)).relay, q.e, q.op.payload, q.op.answer)
      && Answer(c, w, Send(n)) == if q.op.answer.TokenInvalid? then None else Some(StatusOf(q.op.answer))
  {
    if Enabled(w, Send(n)) && Acceptable(w.waiting[n].op.payload, w.waiting[n].op.encoding) {
      SendingCarries(w.relay, w.waiting[n].e, w.waiting[n].op);
    }
  }

  // -------------------------------------------------------------------- registrations

  // A text with the white space around it.
  datatype Padded = Padded(before: string, core: string, after: string) {
    predicate Ok() {
      Blank(before) && Trimmed(core) && Blank(after)
    }

    function Text(): string {
      before + core + after
    }
  }

  lemma EveryTextIsPadded(s: string) returns (p: Padded)
    ensures p.Ok() && p.Text() == s
  {
    var i, j := TrimCuts(s);
    TrimTrims(s);
    p := Padded(s[..i], s[i..j], s[j..]);
  }

  // The two platforms in any case; lowering turns a dotted capital i into an i as well.
  predicate SpellsIos(s: string) {
    |s| == 3 && s[0] in "iI\U{130}" && s[1] in "oO" && s[2] in "sS"
  }

  predicate SpellsAndroid(s: string) {
    |s| == 7 && s[0] in "aA" && s[1] in "nN" && s[2] in "dD" && s[3] in "rR" && s[4] in "oO" && s[5] in "iI\U{130}" && s[6] in "dD"
  }

  lemma LowerIsIos(s: string)
    ensures ToLower(s) == "ios" <==> SpellsIos(s)
  {
    if |s| == 3 {
      var t := ToLower(s);
      assert t == "ios" <==> t[0] == 'i' && t[1] == 'o' && t[2] == 's';
    }
  }

  lemma LowerIsAndroid(s: string)
    ensures ToLower(s) == "android" <==> SpellsAndroid(s)
  {
    if |s| == 7 {
      var t := ToLower(s);
      assert t == "android" <==>
        t[0] == 'a' && t[1] == 'n' && t[2] == 'd' && t[3] == 'r' && t[4] == 'o' && t[5] == 'i' && t[6] == 'd';
    }
  }

  datatype Request = Request(token: Padded, platform: Padded, app: Padded, key: Padded, instance: Padded) {
    predicate Ok() {
      token.Ok() && platform.Ok() && app.Ok() && key.Ok() && instance.Ok()
    }

    function Body(): Registration {
      Registration(token.Text(), platform.Text(), app.Text(), key.Text(), instance.Text())
    }

    predicate Good() {
      (SpellsIos(platform.core) || SpellsAndroid(platform.core)) && token.core != "" && app.core != ""
    }
  }

  // The table afterwards: the new row, and the old ones of other devices and apps.
  predicate Stores(s: State, s': State, key: string, e: Endpoint) {
    && key in s'.endpoints && s'.endpoints[key] == e
    && (forall k | k in s'.endpoints && k != key :: k in s.endpoints && s'.endpoints[k] == s.endpoints[k])
    && (forall k | k in s.endpoints && k != key ::
          k in s'.endpoints <==> !(s.endpoints[k].deviceToken == e.deviceToken && s.endpoints[k].appId == e.appId))
    && s'.windows == s.windows && s'.sends == s.sends
  }

  // Main result: whatever the white space around its fields, a request is stored by the
  // cores of its fields and answered 201 exactly when it is good; it is answered 400 and
  // changes nothing when it is not, or when it is no request at all.
  lemma RegistrationStores(c: Config, s: State, r: Request, random: seq<Byte>)
    requires r.Ok()
    ensures var op := Register(Some(r.Body()), random, false);
      if r.Good() then
        && RegisterStatus(op) == 201
        && Stores(s, After(c, s, op), c.hash(Base64.Encode(random, Base64.RAW_URL)),
             Endpoint(if SpellsIos(r.platform.core) then "ios" else "android", r.token.core, r.app.core, r.key.core, r.instance.core))
      else RegisterStatus(op) == 400 && After(c, s, op) == s
  {
    TrimOf(r.token.before, r.token.core, r.token.after);
    TrimOf(r.platform.before, r.platform.core, r.platform.after);
    TrimOf(r.app.before, r.app.core, r.app.after);
    TrimOf(r.key.before, r.key.core, r.key.after);
    TrimOf(r.instance.before, r.instance.core, r.instance.after);
    LowerIsIos(r.platform.core);
    LowerIsAndroid(r.platform.core);
  }

  lemma UnreadableRegistration(c: Config, s: State, random: seq<Byte>, dbFails: bool)
    ensures RegisterStatus(Register(None, random, dbFails)) == 400 && After(c, s, Register(None, random, dbFails)) == s
  {
  }

  lemma FailedRegistration(c: Config, s: State, r: Request, random: seq<Byte>)
    requires r.Ok()
    ensures var op := Register(Some(r.Body()), random, true);
      After(c, s, op) == s && RegisterStatus(op) == if r.Good() then 500 else 400
  {
    RegistrationStores(c, s, r, random);
  }

  // The URL: the base without slashes at its end, and the id.
  lemma {:induction false} URLOf(c: Config, core: string, slashes: nat, id: string)
    requires c.baseURL == core + seq(slashes, _ => '/') && (core == "" || core[|core| - 1] != '/')
    ensures EndpointURL(c, id) == core + "/relay/" + id
  {
    TrimSlashesOf(core, slashes);
  }

  lemma {:induction false} TrimSlashesOf(core: string, n: nat)
    requires core == "" || core[|core| - 1] != '/'
    ensures TrimSlashes(core + seq(n, _ => '/')) == core
  {
    var url := core + seq(n, _ => '/');
    if n == 0 {
      assert url == core;
    } else {
      assert url[..|url| - 1] == core + seq(n - 1, _ => '/');
      TrimSlashesOf(core, n - 1);
    }
  }

  // Main result: unregistering by anything that ends in a slash and an id, or by the id
  // alone, removes the endpoint of that id and nothing else.
  lemma UnregisteringRemoves(c: Config, s: State, before: string, id: string, deviceToken: string, appId: string)
    requires '/' !in id && TrimSpace(id) != ""
    ensures After(c, s, Unregister(true, id, deviceToken, appId, false)) == s.(endpoints := s.endpoints - {c.hash(id)})
    ensures After(c, s, Unregister(true, before + "/" + id, deviceToken, appId, false)) ==
      s.(endpoints := s.endpoints - {c.hash(id)})
  {
    assert LastIndex(id, '/') == -1;
    assert id[0..] == id;
    IndexOfLast(before, '/', id);
    var url := before + ['/'] + id;
    assert url[|before| + 1..] == id;
    BlankIfTrimmedAway(url);
    assert url[|before|] == '/' && !IsSpace('/');
  }

  // ------------------------------------------------------------------- both together

  // Main result: after registering with a key, in any encoding and any white space, a push
  // to the new id delivers exactly when it is signed with that key and acceptable.
  lemma RegisteredKeyIsAsked(c: Config, s: State, r: Request, random: seq<Byte>, op: Op, a: seq<Byte>, ea: Base64.Encoding,
                             token: string, b: seq<Byte>, eb: Base64.Encoding, l: Vapid.Layout)
    requires r.Ok() && r.Good() && a != [] && r.key.core == Base64.Encode(a, ea)
    requires op.Push? && !op.lookupFails && op.id == Base64.Encode(random, Base64.RAW_URL)
    requires LetsThrough(s, op.id, op.now)
    requires b != [] && Vapid.WellFormedValue(token) && l.Ok()
    requires op.authorization == Vapid.Print(Vapid.Header(token, Base64.Encode(b, eb)), l)
    ensures var s1 := After(c, s, Register(Some(r.Body()), random, false));
      c.hash(op.id) in s1.endpoints && DeliversExactly(c, s1, op, s1.endpoints[c.hash(op.id)], Signed(c.crypto, a, b, token))
  {
    RegistrationStores(c, s, r, random);
    var s1 := After(c, s, Register(Some(r.Body()), random, false));
    PinnedPushDelivers(c, s1, op, s1.endpoints[c.hash(op.id)], a, ea, token, b, eb, l);
  }

  // Whatever the header looks like, nothing is sent past a pin unless the header offers the
  // pinned key with a token that the key signed.
  lemma NothingPastAPin(c: Config, s: State, op: Op, e: Endpoint, a: seq<Byte>, ea: Base64.Encoding)
    requires op.Push? && c.hash(op.id) in s.endpoints && s.endpoints[c.hash(op.id)] == e
    requires a != [] && e.vapidPublicKey == Base64.Encode(a, ea)
    ensures Pushed(c, s, op).0.sends != s.sends ==> OffersSigned(c, op.authorization, a)
  {
    Base64.EncodeUsesAlphabet(a, ea);
    KeyTextDecodes(a, ea);
    Vapid.PassedMeansPinned(op.authorization, e.vapidPublicKey, c.crypto);
    OnlyAuthorizedSends(c, s, op, e);
  }

  predicate OffersSigned(c: Config, authorization: string, a: seq<Byte>) {
    && Vapid.Parse(authorization).Ok?
    && var h := Vapid.Parse(authorization).value;
    Vapid.DecodeKey(h.publicKey) == Some(a) && Signed(c.crypto, a, a, h.token)
  }

  lemma KeyTextDecodes(a: seq<Byte>, ea: Base64.Encoding)
    ensures Vapid.DecodeKey(Base64.Encode(a, ea)) == Some(a)
  {
    assert Base64.Encode(a, ea) == "" + Base64.Encode(a, ea) + "";
    Vapid.DecodeKeyInvertsEncode(a, ea, "", "");
  }

  lemma OnlyAuthorizedSends(c: Config, s: State, op: Op, e: Endpoint)
    requires op.Push? && c.hash(op.id) in s.endpoints && s.endpoints[c.hash(op.id)] == e
    ensures Pushed(c, s, op).0.sends != s.sends ==> Authorized(c, e, op)
  {
  }

  // So a push to a new id sends nothing without the registered key.
  lemma NothingPastTheRegisteredKey(c: Config, s: State, r: Request, random: seq<Byte>, op: Op, a: seq<Byte>, ea: Base64.Encoding)
    requires r.Ok() && r.Good() && a != [] && r.key.core == Base64.Encode(a, ea)
    requires op.Push? && op.id == Base64.Encode(random, Base64.RAW_URL)
    ensures var s1 := After(c, s, Register(Some(r.Body()), random, false));
      Pushed(c, s1, op).0.sends != s1.sends ==> OffersSigned(c, op.authorization, a)
  {
    RegistrationStores(c, s, r, random);
    var s1 := After(c, s, Register(Some(r.Body()), random, false));
    NothingPastAPin(c, s1, op, s1.endpoints[c.hash(op.id)], a, ea);
  }
}
