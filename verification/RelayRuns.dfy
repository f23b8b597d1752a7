// What the relay promises over whole runs of register, unregister and push, pushes
// overlapping with each other and with everything else.
module RelayRuns {
  import opened Common
  import opened Strings
  import opened Push
  import opened RelayState
  import opened RelaySteps
  import L = RateLimiter
  import LR = LimiterRuns
  import Base64
  import Vapid

  ghost predicate Injective(hash: string -> string) {
    forall x, y :: hash(x) == hash(y) ==> x == y
  }

  // The id a request issues or names.
  function IdOf(op: Op): string {
    match op
    case Register(_, random, _) => NewId(random)
    case Unregister(_, endpoint, _, _, _) => Segment(endpoint)
    case Push(id, _, _, _, _, _, _, _) => id
  }

  predicate Issues(step: Step, id: string) {
    step.Request? && step.op.Register? && IdOf(step.op) == id
  }

  predicate Names(step: Step, id: string) {
    (step.Request? || step.Lookup?) && IdOf(step.op) == id
  }

  // Issued ids are new: nobody registered, pushed to or unregistered one before.
  ghost predicate Fresh(steps: seq<Step>) {
    forall i, j | 0 <= i < j < |steps| && steps[j].Request? && steps[j].op.Register? :: !Names(steps[i], IdOf(steps[j].op))
  }

  ghost predicate Run(c: Config, worlds: seq<World>, steps: seq<Step>) {
    && |worlds| == |steps| + 1 && worlds[0] == World(EMPTY, map[])
    && forall i | 0 <= i < |steps| ::
      WellFormed(worlds[i]) && Enabled(worlds[i], steps[i]) && worlds[i + 1] == AfterStep(c, worlds[i], steps[i])
  }

  ghost predicate HonestRun(c: Config, worlds: seq<World>, steps: seq<Step>) {
    Run(c, worlds, steps) && Injective(c.hash) && Fresh(steps)
  }

  predicate Present(c: Config, w: World, id: string) {
    c.hash(id) in w.relay.endpoints
  }

  // The codes on which the sender destroys its subscription.
  predicate Destroys(status: int) {
    400 <= status < 500 && status != 408 && status != 429
  }

  // --------------------------------------------------------------- pushes under way

  // The step looked up what the push waits with.
  predicate LooksUp(c: Config, w: World, step: Step, q: Waiting) {
    step.Lookup? && q.op.Push? && step.op == q.op && Present(c, w, q.op.id) && w.relay.endpoints[c.hash(q.op.id)] == q.e
  }

  ghost predicate Begun(c: Config, worlds: seq<World>, steps: seq<Step>, k: nat, q: Waiting)
    requires |worlds| == |steps| + 1 && k <= |steps|
  {
    exists b :: 0 <= b < k && LooksUp(c, worlds[b], steps[b], q)
  }

  // What a push has passed by the stage it is in.
  predicate Checked(c: Config, q: Waiting) {
    && q.op.Push?
    && (!q.stage.Found? ==>
          && Authorized(c, q.e, q.op) && q.op.payload.Some?
          && Forwardable(Cut64K(q.op.payload.value), q.op.encoding))
    && (q.stage.Dead? ==> q.op.answer.TokenInvalid?)
  }

  lemma WaitingAfter(c: Config, w: World, step: Step, n: nat)
    requires WellFormed(w) && Enabled(w, step) && n in AfterStep(c, w, step).waiting
    requires n in w.waiting ==> Checked(c, w.waiting[n])
    ensures var q := AfterStep(c, w, step).waiting[n];
      && Checked(c, q)
      && ((n in w.waiting && w.waiting[n].op == q.op && w.waiting[n].e == q.e) || LooksUp(c, w, step, q))
  {
  }

  lemma {:induction false} WaitingBegun(c: Config, worlds: seq<World>, steps: seq<Step>, k: nat, n: nat)
    requires Run(c, worlds, steps) && k <= |steps| && n in worlds[k].waiting
    ensures Begun(c, worlds, steps, k, worlds[k].waiting[n]) && Checked(c, worlds[k].waiting[n])
  {
    if k == 0 {
    } else {
      if n in worlds[k - 1].waiting {
        WaitingBegun(c, worlds, steps, k - 1, n);
      }
      WaitingAfter(c, worlds[k - 1], steps[k - 1], n);
      BegunNext(c, worlds, steps, k - 1, n);
    }
  }

  lemma BegunNext(c: Config, worlds: seq<World>, steps: seq<Step>, k: nat, n: nat)
    requires |worlds| == |steps| + 1 && k < |steps| && n in worlds[k + 1].waiting
    requires var q := worlds[k + 1].waiting[n];
      || (n in worlds[k].waiting && worlds[k].waiting[n].op == q.op && worlds[k].waiting[n].e == q.e
          && Begun(c, worlds, steps, k, worlds[k].waiting[n]))
      || LooksUp(c, worlds[k], steps[k], q)
    ensures Begun(c, worlds, steps, k + 1, worlds[k + 1].waiting[n])
  {
    var q := worlds[k + 1].waiting[n];
    if !LooksUp(c, worlds[k], steps[k], q) {
      var b :| 0 <= b < k && LooksUp(c, worlds[b], steps[b], worlds[k].waiting[n]);
      assert LooksUp(c, worlds[b], steps[b], q);
    }
  }

  // ------------------------------------------------------------------- answers and sends

  // Main result: what each answer says about sending. 201 is one accepted send to the
  // device of the endpoint looked up, past its pin, whose "m" decodes to the body; every
  // code but 201, 404 and 502 is answered before anything is sent.
  lemma PushAnswers(c: Config, worlds: seq<World>, steps: seq<Step>, i: nat)
    requires Run(c, worlds, steps) && i < |steps| && !steps[i].Request?
    ensures var w, w', op := worlds[i], worlds[i + 1], PushOf(worlds[i], steps[i]);
      var status := Answer(c, w, steps[i]);
      && (status == Some(201) ==>
            && steps[i].Send? && op.payload.Some?
            && var q := w.waiting[steps[i].push];
            && Begun(c, worlds, steps, i, q) && Authorized(c, q.e, op)
            && Forwardable(Cut64K(op.payload.value), op.encoding)
            && |w'.relay.sends| == |w.relay.sends| + 1 && w.relay.sends <= w'.relay.sends
            && var sent := w'.relay.sends[|w.relay.sends|];
            && sent.outcome.Delivered? && sent.note.token == q.e.deviceToken && sent.note.platform == q.e.platform
            && Base64.Decode(sent.note.m, Base64.RAW_URL) == op.payload)
      && (status.Some? && status.value !in {201, 404, 502} ==>
            (steps[i].Lookup? || steps[i].Admit?) && w'.relay.sends == w.relay.sends)
  {
    if steps[i].Send? {
      WaitingBegun(c, worlds, steps, i, steps[i].push);
      Base64.DecodeInvertsEncode(PushOf(worlds[i], steps[i]).payload.value, Base64.RAW_URL);
    }
  }

  // The lookup of a push that made this attempt: its endpoint was there, named the device,
  // and its pin, if any, was passed: the pinned key signed the token of the push.
  ghost predicate MadeBy(c: Config, w: World, step: Step, a: Attempt<Note>) {
    && step.Lookup? && step.op.Push? && Present(c, w, step.op.id) && step.op.payload.Some?
    && var op, e := step.op, w.relay.endpoints[c.hash(step.op.id)];
    && a == Attempt(NoteFor(e, Cut64K(op.payload.value)), op.answer)
    && Forwardable(Cut64K(op.payload.value), op.encoding)
    && (e.vapidPublicKey != "" ==> SignedByPin(c, op.authorization, e.vapidPublicKey))
  }

  predicate SignedByPin(c: Config, authorization: string, pin: string) {
    && Vapid.Parse(authorization).Ok? && Vapid.DecodeKey(pin).Some?
    && c.crypto.jwtValid(Vapid.Parse(authorization).value.token, Vapid.DecodeKey(pin).value)
  }

  // What a step adds to the sends.
  lemma NewSend(c: Config, w: World, step: Step)
    requires WellFormed(w) && Enabled(w, step)
    ensures AfterStep(c, w, step).relay.sends == w.relay.sends +
      if step.Send? then
        var q := w.waiting[step.push]; [Attempt(NoteFor(q.e, Cut64K(q.op.payload.value)), q.op.answer)]
      else []
  {
  }

  lemma SendIsMadeBy(c: Config, w: World, step: Step, q: Waiting)
    requires LooksUp(c, w, step, q) && Checked(c, q) && !q.stage.Found?
    ensures MadeBy(c, w, step, Attempt(NoteFor(q.e, Cut64K(q.op.payload.value)), q.op.answer))
  {
    if q.e.vapidPublicKey != "" {
      Vapid.PassedMeansPinned(q.op.authorization, q.e.vapidPublicKey, c.crypto);
    }
  }

  // Main result: in every run, everything handed to the push layer came from a push to an
  // endpoint of that device, live when looked up, that got past the endpoint's pin.
  lemma {:induction false} EverySendIsMadeBy(c: Config, worlds: seq<World>, steps: seq<Step>, k: nat, m: nat)
    requires Run(c, worlds, steps) && k <= |steps| && m < |worlds[k].relay.sends|
    ensures exists b :: 0 <= b < k && MadeBy(c, worlds[b], steps[b], worlds[k].relay.sends[m])
  {
    if k == 0 {
    } else {
      var w, step := worlds[k - 1], steps[k - 1];
      NewSend(c, w, step);
      if m < |w.relay.sends| {
        EverySendIsMadeBy(c, worlds, steps, k - 1, m);
      } else {
        WaitingBegun(c, worlds, steps, k - 1, step.push);
        var q := w.waiting[step.push];
        var b :| 0 <= b < k - 1 && LooksUp(c, worlds[b], steps[b], q);
        SendIsMadeBy(c, worlds[b], steps[b], q);
      }
    }
  }

  // --------------------------------------------------------------------- the endpoint URL

  lemma SegmentOf(prefix: string, id: string)
    requires '/' !in id
    ensures Segment(prefix + "/" + id) == id
  {
    IndexOfLast(prefix, '/', id);
    assert (prefix + ['/'] + id)[|prefix| + 1..] == id;
  }

  // Main result: for every base URL, handing a registered URL back to unregister removes
  // exactly that endpoint.
  lemma UnregisterInvertsRegister(c: Config, s: State, random: seq<Byte>, deviceToken: string, appId: string)
    ensures After(c, s, Unregister(true, EndpointURL(c, NewId(random)), deviceToken, appId, false)) ==
      s.(endpoints := s.endpoints - {c.hash(NewId(random))})
  {
    var id := NewId(random);
    var url := EndpointURL(c, id);
    Base64.EncodeUsesAlphabet(random, Base64.RAW_URL);
    assert '/' !in id;
    assert url == (TrimSlashes(c.baseURL) + "/relay") + "/" + id;
    SegmentOf(TrimSlashes(c.baseURL) + "/relay", id);
    SlashIsNotBlank(url, |TrimSlashes(c.baseURL)|);
  }

  lemma SlashIsNotBlank(s: string, i: nat)
    requires i < |s| && s[i] == '/'
    ensures TrimSpace(s) != ""
  {
    BlankIfTrimmedAway(s);
    assert !IsSpace(s[i]);
  }

  // Main result: unregistering by the very strings that were registered removes the
  // endpoint exactly when they carry no white space at the ends, because only register trims.
  lemma UnregisterByDeviceExactly(c: Config, s: State, r: Registration, random: seq<Byte>)
    requires Requested(Some(r)).Some?
    ensures var registered := After(c, s, Register(Some(r), random, false));
      var after := After(c, registered, Unregister(true, "", r.deviceToken, r.appId, false));
      c.hash(NewId(random)) !in after.endpoints <==> Trimmed(r.deviceToken) && Trimmed(r.appId)
  {
    SameWhenTrimmed(r.deviceToken);
    SameWhenTrimmed(r.appId);
  }

  // ----------------------------------------------------------------- one per device

  ghost predicate OnePerDevice(s: State) {
    forall k, k' | k in s.endpoints && k' in s.endpoints
        && s.endpoints[k].deviceToken == s.endpoints[k'].deviceToken && s.endpoints[k].appId == s.endpoints[k'].appId ::
      k == k'
  }

  lemma StepKeepsOnePerDevice(c: Config, w: World, step: Step)
    requires WellFormed(w) && Enabled(w, step) && OnePerDevice(w.relay)
    ensures OnePerDevice(AfterStep(c, w, step).relay)
  {
  }

  // Main result: no reachable state has two endpoints for one device and app.
  lemma {:induction false} RunKeepsOnePerDevice(c: Config, worlds: seq<World>, steps: seq<Step>, i: nat)
    requires Run(c, worlds, steps) && i <= |steps|
    ensures OnePerDevice(worlds[i].relay)
  {
    if i == 0 {
    } else {
      RunKeepsOnePerDevice(c, worlds, steps, i - 1);
      StepKeepsOnePerDevice(c, worlds[i - 1], steps[i - 1]);
    }
  }

  // --------------------------------------------------------------- gone means gone

  // Only a registration of the same id can bring an endpoint back or change it.
  lemma OnlyRegisterAdds(c: Config, w: World, step: Step, id: string)
    requires WellFormed(w) && Enabled(w, step) && Injective(c.hash) && !Issues(step, id)
    ensures var w' := AfterStep(c, w, step);
      Present(c, w', id) ==> Present(c, w, id) && w'.relay.endpoints[c.hash(id)] == w.relay.endpoints[c.hash(id)]
  {
  }

  lemma {:induction false} EntryStays(c: Config, worlds: seq<World>, steps: seq<Step>, id: string, i: nat, j: nat)
    requires Run(c, worlds, steps) && Injective(c.hash) && i <= j <= |steps|
    requires forall k | i <= k < j :: !Issues(steps[k], id)
    ensures Present(c, worlds[j], id) ==>
      Present(c, worlds[i], id) && worlds[j].relay.endpoints[c.hash(id)] == worlds[i].relay.endpoints[c.hash(id)]
  {
    if i == j {
    } else {
      EntryStays(c, worlds, steps, id, i, j - 1);
      OnlyRegisterAdds(c, worlds[j - 1], steps[j - 1], id);
    }
  }

  // An id that a step has named is never issued later.
  lemma NotIssuedAgain(steps: seq<Step>, i: nat, id: string)
    requires Fresh(steps) && i < |steps| && Names(steps[i], id)
    ensures forall k | i < k < |steps| :: !Issues(steps[k], id)
  {
  }

  // A push under way knows the data of its endpoint, as long as that is there.
  lemma WaitingKnows(c: Config, worlds: seq<World>, steps: seq<Step>, k: nat, n: nat)
    requires HonestRun(c, worlds, steps) && k <= |steps| && n in worlds[k].waiting
    ensures var q := worlds[k].waiting[n];
      && q.op.Push?
      && (Present(c, worlds[k], q.op.id) ==> worlds[k].relay.endpoints[c.hash(q.op.id)] == q.e)
      && forall j | k <= j < |steps| :: !Issues(steps[j], q.op.id)
  {
    var q := worlds[k].waiting[n];
    WaitingBegun(c, worlds, steps, k, n);
    var b :| 0 <= b < k && LooksUp(c, worlds[b], steps[b], q);
    NotIssuedAgain(steps, b, q.op.id);
    EntryStays(c, worlds, steps, q.op.id, b, k);
  }

  // A push is told to give up exactly when its lookup finds nothing or its device is
  // reported dead.
  lemma PushDestroysExactly(c: Config, w: World, step: Step)
    requires WellFormed(w) && Enabled(w, step) && !step.Request?
    ensures Answer(c, w, step).Some? && Destroys(Answer(c, w, step).value) <==>
      (step.Lookup? && !step.op.lookupFails && !Present(c, w, step.op.id)) || step.Remove?
  {
  }

  // After such an answer the endpoint is gone exactly when it was unknown or the deletion
  // went through.
  lemma DestroyedIsGoneExactly(c: Config, worlds: seq<World>, steps: seq<Step>, i: nat)
    requires HonestRun(c, worlds, steps) && i < |steps| && !steps[i].Request?
    requires Answer(c, worlds[i], steps[i]).Some? && Destroys(Answer(c, worlds[i], steps[i]).value)
    ensures var op := PushOf(worlds[i], steps[i]);
      !Present(c, worlds[i + 1], op.id) <==> !Present(c, worlds[i], op.id) || !op.deleteFails
  {
    PushDestroysExactly(c, worlds[i], steps[i]);
    if steps[i].Remove? {
      WaitingKnows(c, worlds, steps, i, steps[i].push);
    }
  }

  // The deletion after a dead device can fail: the sender gives up, the endpoint stays.
  lemma FailedDeleteLeavesEndpoint(c: Config, id: string, token: string)
    ensures var e := Endpoint("ios", token, "app", "", "");
      var s := State(map[c.hash(id) := e], map[], []);
      var (s', status) := Pushed(c, s, Push(id, "", Some([1]), "", 0, false, true, TokenInvalid));
      status == 404 && c.hash(id) in s'.endpoints
  {
  }

  // Main result: an answer on which the sender destroys its subscription is given only for
  // an endpoint that is absent from then on, provided its deletion did not fail.
  lemma DestroyedOnlyWhenGone(c: Config, worlds: seq<World>, steps: seq<Step>, i: nat, j: nat)
    requires HonestRun(c, worlds, steps) && i < j <= |steps| && !steps[i].Request?
    requires Answer(c, worlds[i], steps[i]).Some? && Destroys(Answer(c, worlds[i], steps[i]).value)
    requires !PushOf(worlds[i], steps[i]).deleteFails
    ensures Answer(c, worlds[i], steps[i]) == Some(404) && !Present(c, worlds[j], PushOf(worlds[i], steps[i]).id)
  {
    var id := PushOf(worlds[i], steps[i]).id;
    DestroyedIsGoneExactly(c, worlds, steps, i);
    PushDestroysExactly(c, worlds[i], steps[i]);
    if steps[i].Remove? {
      WaitingKnows(c, worlds, steps, i, steps[i].push);
    } else {
      NotIssuedAgain(steps, i, id);
    }
    EntryStays(c, worlds, steps, id, i + 1, j);
  }

  // ----------------------------------------------------------- how long an endpoint lives

  // What ends the endpoint e with this id: replacing it, unregistering it by URL or by
  // device, or a push that reports the device dead, even one that was under way to an
  // earlier endpoint of the device.
  predicate Ends(w: World, step: Step, id: string, e: Endpoint) {
    match step
    case Request(Register(body, _, dbFails)) =>
      !dbFails && Requested(body).Some?
      && Requested(body).value.deviceToken == e.deviceToken && Requested(body).value.appId == e.appId
    case Request(Unregister(json, endpoint, deviceToken, appId, dbFails)) =>
      json && !dbFails &&
      if TrimSpace(endpoint) != "" then Segment(endpoint) == id
      else TrimSpace(deviceToken) != "" && TrimSpace(appId) != "" && deviceToken == e.deviceToken && appId == e.appId
    case Remove(n) =>
      n in w.waiting && w.waiting[n].op.Push? && !w.waiting[n].op.deleteFails
      && w.waiting[n].e.deviceToken == e.deviceToken && w.waiting[n].e.appId == e.appId
    case _ => false
  }

  lemma OneStepOfLife(c: Config, w: World, step: Step, id: string)
    requires WellFormed(w) && Enabled(w, step) && Injective(c.hash) && Present(c, w, id) && !Issues(step, id)
    ensures Present(c, AfterStep(c, w, step), id) <==> !Ends(w, step, id, w.relay.endpoints[c.hash(id)])
  {
    match step
    case Request(Register(_, random, _)) => assert c.hash(NewId(random)) != c.hash(id);
    case _ =>
  }

  // The registered data is there as long as nothing has ended it.
  ghost predicate LivesUntilEnded(c: Config, worlds: seq<World>, steps: seq<Step>, i: nat, j: nat, id: string, e: Endpoint)
    requires |worlds| == |steps| + 1 && i < j <= |steps|
  {
    && (Present(c, worlds[j], id) <==> forall k | i < k < j :: !Ends(worlds[k], steps[k], id, e))
    && (Present(c, worlds[j], id) ==> worlds[j].relay.endpoints[c.hash(id)] == e)
  }

  lemma LifeGoesOn(c: Config, worlds: seq<World>, steps: seq<Step>, i: nat, j: nat, id: string, e: Endpoint)
    requires |worlds| == |steps| + 1 && i < j < |steps| && LivesUntilEnded(c, worlds, steps, i, j, id, e)
    requires WellFormed(worlds[j]) && Enabled(worlds[j], steps[j]) && worlds[j + 1] == AfterStep(c, worlds[j], steps[j])
    requires Injective(c.hash) && !Issues(steps[j], id)
    ensures LivesUntilEnded(c, worlds, steps, i, j + 1, id, e)
  {
    OnlyRegisterAdds(c, worlds[j], steps[j], id);
    if Present(c, worlds[j], id) {
      OneStepOfLife(c, worlds[j], steps[j], id);
    }
  }

  lemma LifeBegins(c: Config, s: State, op: Op)
    requires op.Register? && !op.dbFails && Requested(op.body).Some?
    ensures var s' := After(c, s, op);
      c.hash(NewId(op.random)) in s'.endpoints && s'.endpoints[c.hash(NewId(op.random))] == Requested(op.body).value
  {
  }

  // Main result: an id from register resolves to its registered data until something ends
  // it, and never again after, whatever pushes are under way.
  lemma {:induction false} EndpointLife(c: Config, worlds: seq<World>, steps: seq<Step>, i: nat, j: nat)
    requires HonestRun(c, worlds, steps) && i < j <= |steps|
    requires steps[i].Request? && steps[i].op.Register? && !steps[i].op.dbFails && Requested(steps[i].op.body).Some?
    ensures LivesUntilEnded(c, worlds, steps, i, j, NewId(steps[i].op.random), Requested(steps[i].op.body).value)
  {
    var id := NewId(steps[i].op.random);
    if j == i + 1 {
      LifeBegins(c, worlds[i].relay, steps[i].op);
    } else {
      EndpointLife(c, worlds, steps, i, j - 1);
      NotIssuedAgain(steps, i, id);
      LifeGoesOn(c, worlds, steps, i, j - 1, id, Requested(steps[i].op.body).value);
    }
  }

  // A push under way that will report its device dead takes with it whatever endpoint the
  // device has by then.
  lemma LateReport(c: Config, w: World, n: nat, id: string)
    requires WellFormed(w) && Enabled(w, Admit(n)) && Answer(c, w, Admit(n)).None? && Present(c, w, id)
    requires var q := w.waiting[n];
      && q.op.answer.TokenInvalid? && !q.op.deleteFails
      && w.relay.endpoints[c.hash(id)].deviceToken == q.e.deviceToken && w.relay.endpoints[c.hash(id)].appId == q.e.appId
    ensures var w1 := AfterStep(c, w, Admit(n));
      Enabled(w1, Send(n)) &&
      var w2 := AfterStep(c, w1, Send(n));
      Enabled(w2, Remove(n)) && !Present(c, AfterStep(c, w2, Remove(n)), id)
  {
  }

  // So a device reported dead by a push to its first endpoint loses the second one, which
  // was registered while that push was under way.
  lemma LateReportEndsSuccessor(c: Config, r: Registration, random: seq<Byte>, random': seq<Byte>)
    requires NewId(random) != NewId(random') && Requested(Some(r)).Some? && TrimSpace(r.vapidPublicKey) == ""
    ensures var op := Push(NewId(random), "", Some([1]), "", 0, false, false, TokenInvalid);
      var w1 := AfterStep(c, World(EMPTY, map[]), Request(Register(Some(r), random, false)));
      var w2 := AfterStep(c, w1, Lookup(0, op));
      var w3 := AfterStep(c, w2, Request(Register(Some(r), random', false)));
      Present(c, w3, NewId(random')) && Enabled(w3, Admit(0)) &&
      var w4 := AfterStep(c, w3, Admit(0));
      Enabled(w4, Send(0)) &&
      var w5 := AfterStep(c, w4, Send(0));
      Enabled(w5, Remove(0)) && !Present(c, AfterStep(c, w5, Remove(0)), NewId(random'))
  {
    var op := Push(NewId(random), "", Some([1]), "", 0, false, false, TokenInvalid);
    var w1 := AfterStep(c, World(EMPTY, map[]), Request(Register(Some(r), random, false)));
    var w2 := AfterStep(c, w1, Lookup(0, op));
    var w3 := AfterStep(c, w2, Request(Register(Some(r), random', false)));
    LifeBegins(c, EMPTY, Register(Some(r), random, false));
    LifeBegins(c, w2.relay, Register(Some(r), random', false));
    assert w3.waiting[0] == Waiting(op, Requested(Some(r)).value, Found);
    assert Answer(c, w3, Admit(0)).None?;
    LateReport(c, w3, 0, NewId(random'));
  }

  // -------------------------------------------------------------- sends and the limiter

  // The limiter calls of the first k steps.
  function CallsOf(worlds: seq<World>, steps: seq<Step>, k: nat): seq<LR.Call>
    requires |worlds| == |steps| + 1 && k <= |steps|
  {
    if k == 0 then [] else CallsOf(worlds, steps, k - 1) + NewCall(worlds[k - 1], steps[k - 1])
  }

  function NewCall(w: World, step: Step): seq<LR.Call> {
    if step.Admit? && step.push in w.waiting && w.waiting[step.push].op.Push? then
      [LR.Call(w.waiting[step.push].op.id, w.waiting[step.push].op.now)]
    else []
  }

  // A push to this id that consulted the limiter in the closed interval [lo, hi].
  predicate Within(q: Waiting, id: string, lo: int, hi: int) {
    q.op.Push? && q.op.id == id && lo <= q.op.now <= hi
  }

  // How many notifications such pushes have sent in the first k steps.
  function SentIn(worlds: seq<World>, steps: seq<Step>, k: nat, id: string, lo: int, hi: int): nat
    requires |worlds| == |steps| + 1 && k <= |steps|
  {
    if k == 0 then 0 else SentIn(worlds, steps, k - 1, id, lo, hi) + SendsNow(worlds[k - 1], steps[k - 1], id, lo, hi)
  }

  function SendsNow(w: World, step: Step, id: string, lo: int, hi: int): nat {
    if step.Send? && step.push in w.waiting && Within(w.waiting[step.push], id, lo, hi) then 1 else 0
  }

  // Those that are about to send.
  function About(w: World, id: string, lo: int, hi: int): set<nat> {
    set n | n in w.waiting && w.waiting[n].stage.Passed? && Within(w.waiting[n], id, lo, hi)
  }

  // Only passing the limiter puts a push among them, and only its send takes it away.
  lemma AboutAfter(c: Config, w: World, step: Step, id: string, lo: int, hi: int)
    requires WellFormed(w) && Enabled(w, step)
    ensures var w' := AfterStep(c, w, step);
      |About(w', id, lo, hi)| + SendsNow(w, step, id, lo, hi) <= |About(w, id, lo, hi)| + Passes(c, w, step, id, lo, hi)
  {
    var before, after := About(w, id, lo, hi), About(AfterStep(c, w, step), id, lo, hi);
    if step.Admit? {
      AboutAfterAdmit(c, w, step.push, id, lo, hi);
      SizeOfMore(after, before, step.push);
    } else if step.Send? {
      assert after == before - {step.push};
    } else {
      assert after == before;
    }
  }

  function Passes(c: Config, w: World, step: Step, id: string, lo: int, hi: int): nat
    requires WellFormed(w) && Enabled(w, step)
  {
    if step.Admit? && Within(w.waiting[step.push], id, lo, hi) && Answer(c, w, step).None? then 1 else 0
  }

  lemma AboutAfterAdmit(c: Config, w: World, n: nat, id: string, lo: int, hi: int)
    requires WellFormed(w) && Enabled(w, Admit(n))
    ensures About(AfterStep(c, w, Admit(n)), id, lo, hi) <= About(w, id, lo, hi) + {n}
    ensures Passes(c, w, Admit(n), id, lo, hi) == 0 ==> About(AfterStep(c, w, Admit(n)), id, lo, hi) <= About(w, id, lo, hi)
  {
  }

  lemma SizeOfMore(a: set<nat>, b: set<nat>, n: nat)
    requires a <= b + {n}
    ensures |a| <= |b| + 1 && (a <= b ==> |a| <= |b|)
  {
    SubsetSize(a, b + {n});
    if a <= b {
      SubsetSize(a, b);
    }
  }

  // A push consults the limiter once.
  lemma StepOfLimiter(c: Config, w: World, step: Step)
    requires WellFormed(w) && Enabled(w, step)
    ensures AfterStep(c, w, step).relay.windows ==
      if step.Admit? then L.Allowed(w.relay.windows, w.waiting[step.push].op.id, w.waiting[step.push].op.now)
      else w.relay.windows
    ensures step.Admit? && Answer(c, w, step).None? ==>
      L.Admits(w.relay.windows, w.waiting[step.push].op.id, w.waiting[step.push].op.now)
  {
  }

  lemma {:induction false} SendsAreAdmitted(c: Config, worlds: seq<World>, steps: seq<Step>, k: nat, id: string, lo: int, hi: int)
    requires Run(c, worlds, steps) && k <= |steps|
    ensures worlds[k].relay.windows == LR.StateAfter(CallsOf(worlds, steps, k))
    ensures SentIn(worlds, steps, k, id, lo, hi) + |About(worlds[k], id, lo, hi)| <=
      LR.AdmittedIn(CallsOf(worlds, steps, k), id, lo, hi)
  {
    if k == 0 {
    } else {
      var w, step := worlds[k - 1], steps[k - 1];
      SendsAreAdmitted(c, worlds, steps, k - 1, id, lo, hi);
      AboutAfter(c, w, step, id, lo, hi);
      CallsAfter(c, w, step, CallsOf(worlds, steps, k - 1), id, lo, hi);
    }
  }

  // What a step adds to the limiter's calls.
  lemma CallsAfter(c: Config, w: World, step: Step, before: seq<LR.Call>, id: string, lo: int, hi: int)
    requires WellFormed(w) && Enabled(w, step) && w.relay.windows == LR.StateAfter(before)
    ensures var calls := before + NewCall(w, step);
      && AfterStep(c, w, step).relay.windows == LR.StateAfter(calls)
      && LR.AdmittedIn(before, id, lo, hi) + Passes(c, w, step, id, lo, hi) <= LR.AdmittedIn(calls, id, lo, hi)
  {
    StepOfLimiter(c, w, step);
    if step.Admit? {
      LR.CallAppended(before, LR.Call(w.waiting[step.push].op.id, w.waiting[step.push].op.now), id, lo, hi);
    } else {
      assert before + [] == before;
    }
  }

  // Main result: with a clock that does not go back, no minute sees more than 119
  // notifications sent through one endpoint id, whoever pushes to it.
  lemma OneIdSendsAtMost(c: Config, worlds: seq<World>, steps: seq<Step>, id: string, lo: int)
    requires Run(c, worlds, steps) && LR.Monotone(CallsOf(worlds, steps, |steps|))
    ensures SentIn(worlds, steps, |steps|, id, lo, lo + 60_000_000_000) <= 119
  {
    SendsAreAdmitted(c, worlds, steps, |steps|, id, lo, lo + L.RATE_WINDOW);
    LR.SlidingIntervalBound(CallsOf(worlds, steps, |steps|), id, lo);
  }
}
