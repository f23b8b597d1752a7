// The relay at work: registrations and unregistrations one at a time, and pushes, each of
// which looks its endpoint up, passes the limiter and its checks, sends, and perhaps deletes,
// with anything in between.
module RelaySteps {
  import opened Common
  import opened RelayState
  import L = RateLimiter

  // Found: looked up. Passed: to be sent. Dead: sent, and its device reported dead.
  datatype Stage = Found | Passed | Dead

  datatype Waiting = Waiting(op: Op, e: Endpoint, stage: Stage)

  // The pushes that are under way, each under a number of its own.
  datatype World = World(relay: State, waiting: map<nat, Waiting>)

  datatype Step =
    | Request(op: Op)
    | Lookup(push: nat, op: Op)
    | Admit(push: nat)
    | Send(push: nat)
    | Remove(push: nat)

  predicate WellFormed(w: World) {
    forall n | n in w.waiting :: Sensible(w.waiting[n])
  }

  predicate Sensible(q: Waiting) {
    q.op.Push? && (q.stage.Found? || q.op.payload.Some?)
  }

  predicate Enabled(w: World, step: Step) {
    match step
    case Request(op) => !op.Push?
    case Lookup(n, op) => op.Push? && n !in w.waiting
    case Admit(n) => n in w.waiting && w.waiting[n].stage.Found?
    case Send(n) => n in w.waiting && w.waiting[n].stage.Passed?
    case Remove(n) => n in w.waiting && w.waiting[n].stage.Dead?
  }

  // The push that a step belongs to.
  function PushOf(w: World, step: Step): Op
    requires WellFormed(w) && Enabled(w, step) && !step.Request?
  {
    if step.Lookup? then step.op else w.waiting[step.push].op
  }

  // The status that a step of a push answers, if it is the last one.
  function Answer(c: Config, w: World, step: Step): Option<int>
    requires WellFormed(w) && Enabled(w, step) && !step.Request?
  {
    match step
    case Lookup(_, op) =>
      if op.lookupFails then Some(500) else if c.hash(op.id) !in w.relay.endpoints then Some(404) else None
    case Admit(n) =>
      var q := w.waiting[n];
      if !L.Admits(w.relay.windows, q.op.id, q.op.now) then Some(429) else Refused(c, q.e, q.op)
    case Send(n) =>
      (match w.waiting[n].op.answer
       case Delivered => Some(201)
       case Transient => Some(502)
       case TokenInvalid => None)
    case Remove(_) => Some(404)
  }

  function AfterStep(c: Config, w: World, step: Step): (w': World)
    requires WellFormed(w) && Enabled(w, step)
    ensures WellFormed(w')
  {
    match step
    case Request(op) => w.(relay := After(c, w.relay, op))
    case Lookup(n, op) =>
      if Answer(c, w, step).Some? then w
      else w.(waiting := w.waiting[n := Waiting(op, w.relay.endpoints[c.hash(op.id)], Found)])
    case Admit(n) =>
      var q := w.waiting[n];
      World(w.relay.(windows := L.Allowed(w.relay.windows, q.op.id, q.op.now)), Onward(c, w, step, q.(stage := Passed)))
    case Send(n) =>
      var q := w.waiting[n];
      World(Sent(w.relay, q.e, q.op), Onward(c, w, step, q.(stage := Dead)))
    case Remove(n) =>
      var q := w.waiting[n];
      World(Removed(w.relay, q.e, q.op), w.waiting - {n})
  }

  // A push that answers is over.
  function Onward(c: Config, w: World, step: Step, q: Waiting): map<nat, Waiting>
    requires WellFormed(w) && Enabled(w, step) && !step.Request?
  {
    if Answer(c, w, step).Some? then w.waiting - {step.push} else w.waiting[step.push := q]
  }

  // The state and status of a push whose steps follow each other with nothing in between.
  function Alone(c: Config, w: World, n: nat, op: Op): (r: (State, int))
    requires WellFormed(w) && Enabled(w, Lookup(n, op))
  {
    var w' := AfterStep(c, w, Lookup(n, op));
    match Answer(c, w, Lookup(n, op)) case Some(status) => (w'.relay, status) case None => AloneFromAdmit(c, w', n)
  }

  function AloneFromAdmit(c: Config, w: World, n: nat): (r: (State, int))
    requires WellFormed(w) && Enabled(w, Admit(n))
  {
    var w' := AfterStep(c, w, Admit(n));
    match Answer(c, w, Admit(n)) case Some(status) => (w'.relay, status) case None => AloneFromSend(c, w', n)
  }

  function AloneFromSend(c: Config, w: World, n: nat): (r: (State, int))
    requires WellFormed(w) && Enabled(w, Send(n))
  {
    var w' := AfterStep(c, w, Send(n));
    match Answer(c, w, Send(n))
    case Some(status) => (w'.relay, status)
    case None => (AfterStep(c, w', Remove(n)).relay, Answer(c, w', Remove(n)).value)
  }

  lemma SendAlone(c: Config, w: World, n: nat)
    requires WellFormed(w) && Enabled(w, Send(n))
    ensures var q := w.waiting[n];
      AloneFromSend(c, w, n) ==
        match q.op.answer
        case Delivered => (Sent(w.relay, q.e, q.op), 201)
        case Transient => (Sent(w.relay, q.e, q.op), 502)
        case TokenInvalid => (Removed(Sent(w.relay, q.e, q.op), q.e, q.op), 404)
  {
  }

  lemma AdmitAlone(c: Config, w: World, n: nat)
    requires WellFormed(w) && Enabled(w, Admit(n))
    ensures var q := w.waiting[n];
      var s1 := w.relay.(windows := L.Allowed(w.relay.windows, q.op.id, q.op.now));
      AloneFromAdmit(c, w, n) ==
        if !L.Admits(w.relay.windows, q.op.id, q.op.now) then (s1, 429) else Admitted(c, s1, q.e, q.op)
  {
    if Answer(c, w, Admit(n)).None? {
      SendAlone(c, AfterStep(c, w, Admit(n)), n);
    }
  }

  // Main result: the steps of a push are what its handler does.
  lemma StepsMakeAPush(c: Config, w: World, n: nat, op: Op)
    requires WellFormed(w) && Enabled(w, Lookup(n, op))
    ensures Alone(c, w, n, op) == Pushed(c, w.relay, op)
  {
    if Answer(c, w, Lookup(n, op)).None? {
      AdmitAlone(c, AfterStep(c, w, Lookup(n, op)), n);
    }
  }
}
