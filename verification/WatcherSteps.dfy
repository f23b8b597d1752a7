// The watcher's workers at once: each handles its commit in steps of one store operation or
// one send, with the steps of other workers and token requests in between.
module WatcherSteps {
  import opened Common
  import opened Push
  import opened Stores
  import S = StoreState
  import Runs = StoreRuns
  import C = Consumer

  // Taken: from the queue. Asking: the gate of the first request is still to be checked.
  // Dead: a push to this row was answered with an invalid token.
  datatype Stage = Taken | Asking | Registered | Unblocked | Sending | Dead(row: PushToken)

  // When each of these happened, counted in steps.
  datatype Times = Times(taken: nat, recorded: nat, registered: nat, unblocked: nat, fetched: nat)

  datatype Job = Job(
    actor: string, commit: C.Commit, stage: Stage,
    todo: seq<C.Request>, rows: seq<PushToken>, nth: nat, times: Times)

  // An attempt, the request it was made for, and the history of its job.
  datatype Entry = Entry(attempt: Attempt<C.Notification>, request: C.Request, job: Job)

  datatype World = World(
    store: S.State, workers: map<nat, Job>, log: seq<Entry>, now: nat,
    matchedEvents: nat, pushesSent: nat, pushErrors: nat)

  datatype Action =
    | Record | CheckRegistered | CheckBlocked | FetchTokens(rows: seq<PushToken>)
    | Send(outcome: Outcome) | Unregister | Next | Finish

  datatype Step =
    | Take(worker: nat, actor: string, commit: C.Commit)
    | Work(worker: nat, action: Action)
    | Other(op: Runs.Op)     // by the token service or a backfill

  ghost predicate Enabled(w: World, step: Step) {
    match step
    case Take(n, _, _) => n !in w.workers
    case Work(n, action) => n in w.workers && Ready(w, w.workers[n], action)
    case Other(op) => !op.Restart?
  }

  ghost predicate Ready(w: World, job: Job, action: Action) {
    match action
    case Record => job.stage.Taken?
    case CheckRegistered => job.stage.Asking? && job.todo != []
    case CheckBlocked => job.stage.Registered? && job.todo != []
    case FetchTokens(rows) => job.stage.Unblocked? && job.todo != [] && RowsOf(rows, w.store.tokens, job.todo[0].target)
    case Send(_) => job.stage.Sending? && job.todo != [] && job.rows != []
    case Unregister => job.stage.Dead?
    case Next => job.stage.Sending? && job.todo != [] && job.rows == []
    case Finish => job.stage.Asking? && job.todo == []
  }

  // What becomes of a job that goes on.
  ghost function JobAfter(setup: C.Setup, w: World, job: Job, action: Action): Job
    requires Ready(w, job, action)
  {
    match action
    case Record =>
      job.(stage := Asking, todo := C.RequestsOf(w.store, job.actor, job.commit, setup),
           times := job.times.(recorded := w.now))
    case CheckRegistered =>
      if job.todo[0].target in w.store.registered then job.(stage := Registered, times := job.times.(registered := w.now))
      else job.(todo := job.todo[1..])
    case CheckBlocked =>
      if S.IsBlocked(w.store, job.todo[0].actor, job.todo[0].target) then job.(stage := Asking, todo := job.todo[1..])
      else job.(stage := Unblocked, times := job.times.(unblocked := w.now))
    case FetchTokens(rows) =>
      job.(stage := Sending, rows := rows, nth := w.matchedEvents, times := job.times.(fetched := w.now))
    case Send(outcome) => job.(rows := job.rows[1..], stage := if outcome.TokenInvalid? then Dead(job.rows[0]) else Sending)
    case Unregister => job.(stage := Sending)
    case Next => job.(stage := Asking, todo := job.todo[1..])
    case Finish => job
  }

  ghost function StoreAfter(w: World, job: Job, action: Action): S.State
    requires Ready(w, job, action)
  {
    match action
    case Record => C.Recorded(w.store, job.actor, job.commit)
    case Unregister =>
      var row := job.stage.row;
      S.UnregisterToken(w.store, row.actorDID, row.platform, row.pushToken, row.appID)
    case _ => w.store
  }

  // The attempt a send makes.
  ghost function Made(setup: C.Setup, job: Job, outcome: Outcome): Entry
    requires job.todo != [] && job.rows != []
  {
    Entry(Attempt(C.NoteFor(job.todo[0], setup, job.nth, job.rows[0]), outcome), job.todo[0], job)
  }

  ghost function WorkDone(setup: C.Setup, w: World, n: nat, action: Action): World
    requires n in w.workers && Ready(w, w.workers[n], action)
  {
    var job := w.workers[n];
    var w' := w.(
      store := StoreAfter(w, job, action),
      workers := if action.Finish? then w.workers - {n} else w.workers[n := JobAfter(setup, w, job, action)]);
    match action
    case FetchTokens(_) => w'.(matchedEvents := w.matchedEvents + 1)
    case Send(outcome) =>
      w'.(log := w.log + [Made(setup, job, outcome)],
          pushesSent := w.pushesSent + if outcome.Delivered? then 1 else 0,
          pushErrors := w.pushErrors + if outcome.Delivered? then 0 else 1)
    case _ => w'
  }

  // What a step does, the clock aside.
  ghost function Done(setup: C.Setup, w: World, step: Step): World
    requires Enabled(w, step)
  {
    match step
    case Take(n, actor, c) =>
      w.(workers := w.workers[n := Job(actor, c, Taken, [], [], 0, Times(w.now, w.now, w.now, w.now, w.now))])
    case Work(n, action) => WorkDone(setup, w, n, action)
    case Other(op) => w.(store := Runs.Apply(w.store, op))
  }

  ghost function After(setup: C.Setup, w: World, step: Step): World
    requires Enabled(w, step)
  {
    Done(setup, w, step).(now := w.now + 1)
  }

  ghost predicate StepTo(setup: C.Setup, w: World, step: Step, w': World) {
    Enabled(w, step) && w' == After(setup, w, step)
  }

  const START := World(S.EMPTY, map[], [], 0, 0, 0, 0)

  ghost predicate Run(setup: C.Setup, worlds: seq<World>, steps: seq<Step>) {
    && |worlds| == |steps| + 1 && worlds[0] == START
    && forall i | 0 <= i < |steps| :: StepTo(setup, worlds[i], steps[i], worlds[i + 1])
  }

  // ---------------------------------------------------------------- what a job has seen

  // Each check that the stage of a job comes after succeeded, in this order, when its
  // times say, and since the commit was taken.
  ghost predicate Justified(worlds: seq<World>, job: Job, r: C.Request, k: nat)
    requires k <= |worlds|
  {
    && (job.stage.Registered? || job.stage.Unblocked? || job.stage.Sending? || job.stage.Dead? ==>
          && job.times.recorded < job.times.registered < k
          && r.target in worlds[job.times.registered].store.registered)
    && (job.stage.Unblocked? || job.stage.Sending? || job.stage.Dead? ==>
          && job.times.registered < job.times.unblocked < k
          && !S.IsBlocked(worlds[job.times.unblocked].store, r.actor, r.target))
    && (job.stage.Sending? || job.stage.Dead? ==>
          && job.times.unblocked < job.times.fetched < k
          && forall row | row in job.rows :: RowSeen(worlds[job.times.fetched].store, r, row))
  }

  predicate RowSeen(s: S.State, r: C.Request, row: PushToken) {
    (r.target, row.pushToken) in s.tokens && row == RowOf(s.tokens, r.target, row.pushToken)
  }

  // The commit was taken when the job says, and once it is recorded, only requests that it
  // leads to are to be done.
  ghost predicate FromItsCommit(setup: C.Setup, worlds: seq<World>, steps: seq<Step>, job: Job, k: nat)
    requires k <= |worlds| == |steps| + 1
  {
    && job.times.taken < k && job.times.taken < |steps|
    && steps[job.times.taken].Take?
    && steps[job.times.taken].actor == job.actor && steps[job.times.taken].commit == job.commit
    && (!job.stage.Taken? ==>
          && job.times.taken < job.times.recorded < k
          && forall r | r in job.todo :: r in C.RequestsOf(worlds[job.times.recorded].store, job.actor, job.commit, setup))
  }

  ghost predicate JobHolds(setup: C.Setup, worlds: seq<World>, steps: seq<Step>, job: Job, k: nat)
    requires k <= |worlds| == |steps| + 1
  {
    && FromItsCommit(setup, worlds, steps, job, k)
    && (job.todo == [] ==> job.stage.Taken? || job.stage.Asking?)
    && (job.stage.Taken? ==> job.todo == [])
    && (job.todo != [] ==> Justified(worlds, job, job.todo[0], k))
  }

  // The next action of a job is justified by what the world is now.
  lemma JobGoesOn(setup: C.Setup, worlds: seq<World>, steps: seq<Step>, k: nat, job: Job, action: Action)
    requires k < |worlds| == |steps| + 1 && worlds[k].now == k
    requires JobHolds(setup, worlds, steps, job, k) && Ready(worlds[k], job, action)
    ensures JobHolds(setup, worlds, steps, JobAfter(setup, worlds[k], job, action), k + 1)
  {
  }

  lemma JobWaits(setup: C.Setup, worlds: seq<World>, steps: seq<Step>, job: Job, k: nat)
    requires k < |worlds| == |steps| + 1 && JobHolds(setup, worlds, steps, job, k)
    ensures JobHolds(setup, worlds, steps, job, k + 1)
  {
  }

  // Where a worker's job comes from.
  lemma JobComesFrom(setup: C.Setup, w: World, step: Step, n: nat)
    requires Enabled(w, step) && n in After(setup, w, step).workers
    ensures var job := After(setup, w, step).workers[n];
      if step.Work? && step.worker == n then
        n in w.workers && Ready(w, w.workers[n], step.action) && job == JobAfter(setup, w, w.workers[n], step.action)
      else if step.Take? && step.worker == n then
        job == Job(step.actor, step.commit, Taken, [], [], 0, Times(w.now, w.now, w.now, w.now, w.now))
      else n in w.workers && job == w.workers[n]
  {
  }

  lemma {:induction false} NowIs(setup: C.Setup, worlds: seq<World>, steps: seq<Step>, k: nat)
    requires Run(setup, worlds, steps) && k <= |steps|
    ensures worlds[k].now == k
  {
    if k == 0 {
    } else {
      NowIs(setup, worlds, steps, k - 1);
    }
  }

  lemma {:induction false} JobsHold(setup: C.Setup, worlds: seq<World>, steps: seq<Step>, k: nat, n: nat)
    requires Run(setup, worlds, steps) && k <= |steps|
    ensures n in worlds[k].workers ==> JobHolds(setup, worlds, steps, worlds[k].workers[n], k)
  {
    if k == 0 {
    } else {
      JobsHold(setup, worlds, steps, k - 1, n);
      NowIs(setup, worlds, steps, k - 1);
      JobStep(setup, worlds, steps, k - 1, n);
    }
  }

  lemma JobStep(setup: C.Setup, worlds: seq<World>, steps: seq<Step>, k: nat, n: nat)
    requires k < |steps| == |worlds| - 1 && worlds[k].now == k && StepTo(setup, worlds[k], steps[k], worlds[k + 1])
    requires n in worlds[k].workers ==> JobHolds(setup, worlds, steps, worlds[k].workers[n], k)
    ensures n in worlds[k + 1].workers ==> JobHolds(setup, worlds, steps, worlds[k + 1].workers[n], k + 1)
  {
    if n in worlds[k + 1].workers {
      JobComesFrom(setup, worlds[k], steps[k], n);
      JobHoldsNext(setup, worlds, steps, k, n);
    }
  }

  lemma JobHoldsNext(setup: C.Setup, worlds: seq<World>, steps: seq<Step>, k: nat, n: nat)
    requires k < |steps| == |worlds| - 1 && worlds[k].now == k && n in worlds[k + 1].workers
    requires n in worlds[k].workers ==> JobHolds(setup, worlds, steps, worlds[k].workers[n], k)
    requires var w, job, step := worlds[k], worlds[k + 1].workers[n], steps[k];
      || (step.Work? && n in w.workers && Ready(w, w.workers[n], step.action)
          && job == JobAfter(setup, w, w.workers[n], step.action))
      || (step.Take? && job == Job(step.actor, step.commit, Taken, [], [], 0, Times(k, k, k, k, k)))
      || (n in w.workers && job == w.workers[n])
    ensures JobHolds(setup, worlds, steps, worlds[k + 1].workers[n], k + 1)
  {
    var w, job := worlds[k], worlds[k + 1].workers[n];
    if n in w.workers && job == w.workers[n] {
      JobWaits(setup, worlds, steps, job, k);
    } else if steps[k].Work? {
      JobGoesOn(setup, worlds, steps, k, w.workers[n], steps[k].action);
    }
  }

  // ----------------------------------------------------------------------------- results

  // The attempt was made before step k for one of the requests of a commit, after the commit
  // was taken, then recorded, and its target then seen registered, then not blocked, then
  // owning the device.
  ghost predicate PassedTheGate(setup: C.Setup, worlds: seq<World>, steps: seq<Step>, x: Entry, k: nat)
    requires k <= |worlds| == |steps| + 1
  {
    && var times, r, note := x.job.times, x.request, x.attempt.note;
    && times.taken < times.recorded < times.registered < times.unblocked < times.fetched < k
    && times.taken < |steps| && steps[times.taken].Take?
    && steps[times.taken].actor == x.job.actor && steps[times.taken].commit == x.job.commit
    && r in C.RequestsOf(worlds[times.recorded].store, x.job.actor, x.job.commit, setup)
    && r.target in worlds[times.registered].store.registered
    && !S.IsBlocked(worlds[times.unblocked].store, r.actor, r.target)
    && (r.target, note.token) in worlds[times.fetched].store.tokens
    && note == C.NoteFor(r, setup, x.job.nth, RowOf(worlds[times.fetched].store.tokens, r.target, note.token))
  }

  // Only a send adds to the log.
  lemma LogAfter(setup: C.Setup, w: World, step: Step)
    requires Enabled(w, step)
    ensures After(setup, w, step).log == w.log +
      if step.Work? && step.action.Send? then [Made(setup, w.workers[step.worker], step.action.outcome)] else []
  {
  }

  // Main result: in every interleaving of workers and token requests, each send had passed
  // an open gate since its commit was taken.
  lemma {:induction false} EverySendPassedTheGate(setup: C.Setup, worlds: seq<World>, steps: seq<Step>, k: nat, m: nat)
    requires Run(setup, worlds, steps) && k <= |steps| && m < |worlds[k].log|
    ensures PassedTheGate(setup, worlds, steps, worlds[k].log[m], k)
  {
    if k == 0 {
    } else {
      LogAfter(setup, worlds[k - 1], steps[k - 1]);
      if m < |worlds[k - 1].log| {
        EverySendPassedTheGate(setup, worlds, steps, k - 1, m);
      } else {
        NewSendPassed(setup, worlds, steps, k - 1);
      }
    }
  }

  lemma NewSendPassed(setup: C.Setup, worlds: seq<World>, steps: seq<Step>, k: nat)
    requires Run(setup, worlds, steps) && k < |steps| && StepTo(setup, worlds[k], steps[k], worlds[k + 1])
    requires steps[k].Work? && steps[k].action.Send?
    ensures PassedTheGate(setup, worlds, steps, Made(setup, worlds[k].workers[steps[k].worker], steps[k].action.outcome), k + 1)
  {
    JobsHold(setup, worlds, steps, k, steps[k].worker);
    NowIs(setup, worlds, steps, k);
    SendPasses(setup, worlds, steps, k, worlds[k].workers[steps[k].worker], steps[k].action.outcome);
  }

  lemma SendPasses(setup: C.Setup, worlds: seq<World>, steps: seq<Step>, k: nat, job: Job, outcome: Outcome)
    requires k < |worlds| == |steps| + 1
    requires JobHolds(setup, worlds, steps, job, k) && Ready(worlds[k], job, Send(outcome))
    ensures PassedTheGate(setup, worlds, steps, Made(setup, job, outcome), k + 1)
  {
    assert job.rows[0] in job.rows && job.todo[0] in job.todo;
  }

  // Main result: in every interleaving, a notification goes to someone other than the actor
  // unless it is about a verification, and its texts are clean and within the limit.
  lemma EverySendIsProper(setup: C.Setup, worlds: seq<World>, steps: seq<Step>, k: nat, m: nat)
    requires Run(setup, worlds, steps) && k <= |steps| && m < |worlds[k].log|
    ensures var x := worlds[k].log[m];
      && x.attempt.note.actorDid == x.job.actor
      && (x.attempt.note.recipientDid != x.job.actor || C.AboutVerification(x.attempt.note.reason))
      && (x.attempt.note.reasonSubject.Some? ==> C.FitText(x.attempt.note.reasonSubject.value, setup))
  {
    EverySendPassedTheGate(setup, worlds, steps, k, m);
    var x := worlds[k].log[m];
    var s := worlds[x.job.times.recorded].store;
    C.RequestsFromCommit(s, x.job.actor, x.job.commit, setup);
    C.RequestTextsFit(s, x.job.actor, x.job.commit, setup);
    C.TextFits(x.request, setup, x.job.nth);
  }

  // Those who were notified of a commit of the actor.
  function RecipientsOf(log: seq<Entry>, actor: string, c: C.Commit): set<string> {
    set m | 0 <= m < |log| && log[m].job.actor == actor && log[m].job.commit == c :: log[m].attempt.note.recipientDid
  }

  // Main result: in every interleaving a like or repost reaches at most two people.
  lemma LikeReachesAtMostTwo(setup: C.Setup, worlds: seq<World>, steps: seq<Step>, k: nat, actor: string, c: C.Commit)
    requires Run(setup, worlds, steps) && k <= |steps| && (c.collection == C.LIKE || c.collection == C.REPOST)
    ensures |RecipientsOf(worlds[k].log, actor, c)| <= 2
  {
    var rs := C.RequestsOf(S.EMPTY, actor, c, setup);
    forall m | 0 <= m < |worlds[k].log| && worlds[k].log[m].job.actor == actor && worlds[k].log[m].job.commit == c
      ensures worlds[k].log[m].attempt.note.recipientDid in C.Targets(rs)
    {
      EverySendPassedTheGate(setup, worlds, steps, k, m);
      LikeAsksAlike(worlds[worlds[k].log[m].job.times.recorded].store, S.EMPTY, actor, c, setup);
    }
    C.RequestsFromCommit(S.EMPTY, actor, c, setup);
    C.TargetsAtMost(rs);
    SubsetSize(RecipientsOf(worlds[k].log, actor, c), C.Targets(rs));
  }

  lemma LikeAsksAlike(s: S.State, s': S.State, actor: string, c: C.Commit, setup: C.Setup)
    requires c.collection == C.LIKE || c.collection == C.REPOST
    ensures C.RequestsOf(s, actor, c, setup) == C.RequestsOf(s', actor, c, setup)
  {
  }

  // Main result: while a block between two people is in force, what is still sent from one
  // to the other had its gate checked before that; so a commit taken since then sends nothing.
  lemma BlockInForceIsNotCrossed(setup: C.Setup, worlds: seq<World>, steps: seq<Step>, k: nat, m: nat, i: nat)
    requires Run(setup, worlds, steps) && i <= k <= |steps| && m < |worlds[k].log|
    requires var note := worlds[k].log[m].attempt.note;
      forall j | i <= j < k :: S.IsBlocked(worlds[j].store, note.actorDid, note.recipientDid)
    ensures var times := worlds[k].log[m].job.times; times.taken < times.unblocked < i
  {
    EverySendPassedTheGate(setup, worlds, steps, k, m);
  }

  // But a block that comes after the check comes too late, even before the tokens are
  // fetched: the send goes on.
  lemma LateBlockIsCrossed(setup: C.Setup, w: World, n: nat, rkey: string, rows: seq<PushToken>, outcome: Outcome)
    requires Enabled(w, Work(n, FetchTokens(rows))) && rows != []
    ensures var r := w.workers[n].todo[0];
      var block, fetch, send := Other(Runs.Block(r.target, r.actor, rkey)), Work(n, FetchTokens(rows)), Work(n, Send(outcome));
      var w1 := After(setup, w, block);
      S.IsBlocked(w1.store, r.actor, r.target) && Enabled(w1, fetch) &&
      var w2 := After(setup, w1, fetch);
      Enabled(w2, send) &&
      After(setup, w2, send).log == w.log + [Made(setup, w2.workers[n], outcome)]
  {
  }

  // The follow of y by x, in the hands of worker 0.
  function FollowJob(x: string, y: string, stage: Stage, todo: seq<C.Request>, times: Times): Job {
    Job(x, C.Commit("create", C.FOLLOW, "r", C.Graph(y)), stage, todo, [], 0, times)
  }

  function Follow(x: string, y: string): Step {
    Take(0, x, C.Commit("create", C.FOLLOW, "r", C.Graph(y)))
  }

  function Fetch(y: string, token: string): Step {
    Work(0, FetchTokens([PushToken(y, "ios", token, "app")]))
  }

  // A run that gets there: y registers, x follows, the follow passes both checks, and only
  // then y blocks x; the notification of the follow is sent.
  lemma LateBlockIsReached(setup: C.Setup, x: string, y: string, token: string, outcome: Outcome)
    returns (worlds: seq<World>, steps: seq<Step>)
    requires x != y && y != ""
    ensures Run(setup, worlds, steps) && |steps| == 8
    ensures steps[4] == Work(0, CheckBlocked) && steps[5] == Other(Runs.Block(y, x, "b"))
    ensures S.IsBlocked(worlds[6].store, x, y) && worlds[6].log == [] && |worlds[8].log| == 1
    ensures var note := worlds[8].log[0].attempt.note; note.actorDid == x && note.recipientDid == y
  {
    var s := S.EMPTY.(tokens := map[(y, token) := S.Device("ios", "app")], registered := {y});
    Runs.FirstTokenRegisters(S.EMPTY, y, token);
    var w1 := START.(store := s, now := 1);
    assert StepTo(setup, START, Other(Runs.Register(y, "ios", token, "app")), w1);
    var w2, w3, w4, w5 := FollowIsChecked(setup, s, w1, x, y);
    var w6, w7, w8 := FollowIsSent(setup, w5, x, y, token, outcome);
    worlds, steps := [START], [];
    worlds, steps := OneMore(setup, worlds, steps, Other(Runs.Register(y, "ios", token, "app")), w1);
    worlds, steps := OneMore(setup, worlds, steps, Follow(x, y), w2);
    worlds, steps := OneMore(setup, worlds, steps, Work(0, Record), w3);
    worlds, steps := OneMore(setup, worlds, steps, Work(0, CheckRegistered), w4);
    worlds, steps := OneMore(setup, worlds, steps, Work(0, CheckBlocked), w5);
    worlds, steps := OneMore(setup, worlds, steps, Other(Runs.Block(y, x, "b")), w6);
    worlds, steps := OneMore(setup, worlds, steps, Fetch(y, token), w7);
    worlds, steps := OneMore(setup, worlds, steps, Work(0, Send(outcome)), w8);
  }

  lemma OneMore(setup: C.Setup, worlds: seq<World>, steps: seq<Step>, step: Step, w: World)
    returns (worlds': seq<World>, steps': seq<Step>)
    requires Run(setup, worlds, steps) && StepTo(setup, worlds[|steps|], step, w)
    ensures Run(setup, worlds', steps') && |steps'| == |steps| + 1
    ensures worlds'[|steps'|] == w && steps'[|steps|] == step
    ensures forall i | 0 <= i < |steps| :: steps'[i] == steps[i]
    ensures forall i | 0 <= i < |worlds| :: worlds'[i] == worlds[i]
  {
    worlds', steps' := worlds + [w], steps + [step];
  }

  // The follow up to its checks.
  lemma FollowIsChecked(setup: C.Setup, s: S.State, w1: World, x: string, y: string)
    returns (w2: World, w3: World, w4: World, w5: World)
    requires x != y && y != "" && s.registered == {y} && s.blocks == {} && w1 == START.(store := s, now := 1)
    ensures StepTo(setup, w1, Follow(x, y), w2) && StepTo(setup, w2, Work(0, Record), w3)
    ensures StepTo(setup, w3, Work(0, CheckRegistered), w4) && StepTo(setup, w4, Work(0, CheckBlocked), w5)
    ensures w5.store == s && w5.log == [] && 0 in w5.workers
    ensures w5.workers[0] ==
      FollowJob(x, y, Unblocked, [C.Request(x, y, "follow", C.RecordURI(x, C.FOLLOW, "r"), "", "")], Times(1, 2, 3, 4, 1))
  {
    w2 := After(setup, w1, Follow(x, y));
    assert w2.workers[0] == FollowJob(x, y, Taken, [], Times(1, 1, 1, 1, 1));
    var todo := [C.Request(x, y, "follow", C.RecordURI(x, C.FOLLOW, "r"), "", "")];
    w3 := After(setup, w2, Work(0, Record));
    assert w3.workers[0] == FollowJob(x, y, Asking, todo, Times(1, 2, 1, 1, 1));
    w4 := After(setup, w3, Work(0, CheckRegistered));
    assert w4.workers[0] == FollowJob(x, y, Registered, todo, Times(1, 2, 3, 1, 1));
    w5 := After(setup, w4, Work(0, CheckBlocked));
  }

  // The block, and the send nevertheless.
  lemma FollowIsSent(setup: C.Setup, w5: World, x: string, y: string, token: string, outcome: Outcome)
    returns (w6: World, w7: World, w8: World)
    requires w5.store.tokens == map[(y, token) := S.Device("ios", "app")] && w5.log == [] && 0 in w5.workers
    requires w5.workers[0] ==
      FollowJob(x, y, Unblocked, [C.Request(x, y, "follow", C.RecordURI(x, C.FOLLOW, "r"), "", "")], Times(1, 2, 3, 4, 1))
    ensures StepTo(setup, w5, Other(Runs.Block(y, x, "b")), w6) && S.IsBlocked(w6.store, x, y)
    ensures StepTo(setup, w6, Fetch(y, token), w7) && StepTo(setup, w7, Work(0, Send(outcome)), w8)
    ensures w7.log == [] && |w8.log| == 1
    ensures var note := w8.log[0].attempt.note; note.actorDid == x && note.recipientDid == y
  {
    OneRow(w5.store, y, token);
    var rows := [PushToken(y, "ios", token, "app")];
    LateBlockIsCrossed(setup, w5, 0, "b", rows, outcome);
    w6 := After(setup, w5, Other(Runs.Block(y, x, "b")));
    w7 := After(setup, w6, Work(0, FetchTokens(rows)));
    w8 := After(setup, w7, Work(0, Send(outcome)));
  }

  lemma OneRow(s: S.State, did: string, token: string)
    requires s.tokens == map[(did, token) := S.Device("ios", "app")]
    ensures RowsOf([PushToken(did, "ios", token, "app")], s.tokens, did)
  {
    assert S.TokensOf(s.tokens, did) == {token};
    assert RowOf(s.tokens, did, token) == PushToken(did, "ios", token, "app");
  }

  // Main result: whatever the interleaving, the indexes of the store agree with its tables,
  // and every attempt is counted once, as sent or as an error.
  lemma {:induction false} StoreAndCountersAgree(setup: C.Setup, worlds: seq<World>, steps: seq<Step>, k: nat)
    requires Run(setup, worlds, steps) && k <= |steps|
    ensures Runs.IndexesAgree(worlds[k].store)
    ensures worlds[k].pushesSent + worlds[k].pushErrors == |worlds[k].log|
  {
    if k == 0 {
      assert forall did :: S.TokensOf(S.EMPTY.tokens, did) == {};
    } else {
      StoreAndCountersAgree(setup, worlds, steps, k - 1);
      assert StepTo(setup, worlds[k - 1], steps[k - 1], worlds[k]);
      StepAgrees(setup, worlds[k - 1], steps[k - 1]);
    }
  }

  lemma StepAgrees(setup: C.Setup, w: World, step: Step)
    requires Enabled(w, step) && Runs.IndexesAgree(w.store)
    ensures Runs.IndexesAgree(After(setup, w, step).store)
  {
    match step
    case Other(op) => Runs.NextAgrees(w.store, op, Runs.Apply(w.store, op));
    case Work(n, Record) => C.RecordAgrees(w.store, w.workers[n].actor, w.workers[n].commit);
    case Work(n, Unregister) =>
      var row := w.workers[n].stage.row;
      Runs.UnregisterAgrees(w.store, row.actorDID, row.platform, row.pushToken, row.appID);
    case _ =>
  }
}
