// A commit handled in steps with nothing in between is what the handler does at once.
module WatcherAlone {
  import opened Common
  import opened Push
  import opened Stores
  import opened WatcherSteps
  import S = StoreState
  import Runs = StoreRuns
  import C = Consumer

  // How far a job has got: the requests handled, and of the current one the store that it
  // found, the rows to send to and the attempts made.
  datatype Progress = Progress(
    done: seq<C.Request>, calls: C.Calls, before: S.State, all: seq<PushToken>, att: C.Attempts)

  function AttemptsIn(log: seq<Entry>): C.Attempts {
    seq(|log|, i requires 0 <= i < |log| => log[i].attempt)
  }

  // The part of the log since a moment, and the state of the current request.
  ghost predicate Alone(setup: C.Setup, rs: seq<C.Request>, s: S.State, start: C.Attempts, w: World, job: Job, p: Progress) {
    && rs == p.done + job.todo && C.Sent(p.done, s, p.calls, p.before, setup)
    && AttemptsIn(w.log) == start + (C.AttemptsOf(p.calls) + p.att)
    && Current(setup, w.store, job, p)
  }

  ghost predicate Current(setup: C.Setup, store: S.State, job: Job, p: Progress) {
    match job.stage
    case Taken => false
    case Asking => p.att == [] && store == p.before
    case Registered => p.att == [] && store == p.before && job.todo != [] && job.todo[0].target in store.registered
    case Unblocked => p.att == [] && store == p.before && job.todo != [] && C.Gate(store, job.todo[0])
    case Sending => OnRows(setup, job, p) && C.TokensPruned(p.before, store, p.att)
    case Dead(row) =>
      && OnRows(setup, job, p)
      && C.TokensPruned(p.before, S.UnregisterToken(store, row.actorDID, row.platform, row.pushToken, row.appID), p.att)
  }

  ghost predicate OnRows(setup: C.Setup, job: Job, p: Progress) {
    && job.todo != [] && C.Gate(p.before, job.todo[0])
    && RowsOf(p.all, p.before.tokens, job.todo[0].target)
    && C.InRowOrder(p.att, p.all, job.todo[0], setup, job.nth)
    && job.rows == p.all[|p.att|..]
  }

  // The current request is done.
  function NextCall(p: Progress, r: C.Request, s: S.State): Progress {
    Progress(p.done + [r], p.calls + [C.Call(p.before, p.att)], s, [], [])
  }

  lemma CallDone(setup: C.Setup, rs: seq<C.Request>, s: S.State, start: C.Attempts, w: World, job: Job, p: Progress, job': Job)
    requires Alone(setup, rs, s, start, w, job, p) && job.todo != []
    requires C.SentOne(job.todo[0], p.before, w.store, p.att, setup)
    requires job' == job.(stage := Asking, todo := job.todo[1..])
    ensures Alone(setup, rs, s, start, w, job', NextCall(p, job.todo[0], w.store))
  {
    var r := job.todo[0];
    C.SentMore(p.done, r, s, p.calls, C.Call(p.before, p.att), w.store, setup);
    FirstMoves(p.done, job.todo);
    NothingMore(C.AttemptsOf(p.calls) + p.att);
  }

  lemma FirstMoves<T>(a: seq<T>, b: seq<T>)
    requires b != []
    ensures a + b == (a + [b[0]]) + b[1..]
  {
  }

  lemma NothingMore<T>(a: seq<T>)
    ensures a + [] == a
  {
  }

  // A closed gate: nothing is sent.
  lemma GateClosed(setup: C.Setup, rs: seq<C.Request>, s: S.State, start: C.Attempts, w: World, job: Job, p: Progress, job': Job)
    requires Alone(setup, rs, s, start, w, job, p) && job.todo != [] && p.att == [] && w.store == p.before
    requires !C.Gate(w.store, job.todo[0]) && Runs.IndexesAgree(w.store)
    requires job' == job.(stage := Asking, todo := job.todo[1..])
    ensures Alone(setup, rs, s, start, w, job', NextCall(p, job.todo[0], w.store))
  {
    C.PrunedNothing(w.store);
    CallDone(setup, rs, s, start, w, job, p, job');
  }

  lemma RowsDone(setup: C.Setup, rs: seq<C.Request>, s: S.State, start: C.Attempts, w: World, job: Job, p: Progress)
    requires Alone(setup, rs, s, start, w, job, p) && Ready(w, job, Next)
    ensures Alone(setup, rs, s, start, w, JobAfter(setup, w, job, Next), NextCall(p, job.todo[0], w.store))
  {
    assert |p.att| == |p.all|;
    CallDone(setup, rs, s, start, w, job, p, JobAfter(setup, w, job, Next));
  }

  lemma OneSent(setup: C.Setup, rs: seq<C.Request>, s: S.State, start: C.Attempts, w: World, job: Job, p: Progress, outcome: Outcome)
    requires Alone(setup, rs, s, start, w, job, p) && Ready(w, job, Send(outcome)) && Runs.IndexesAgree(w.store)
    ensures var x := Made(setup, job, outcome);
      Alone(setup, rs, s, start, w.(log := w.log + [x]), JobAfter(setup, w, job, Send(outcome)), p.(att := p.att + [x.attempt]))
  {
    RowSent(setup, w, job, p, outcome);
    AttemptLogged(w.log, Made(setup, job, outcome), start, C.AttemptsOf(p.calls), p.att);
  }

  lemma RowSent(setup: C.Setup, w: World, job: Job, p: Progress, outcome: Outcome)
    requires Current(setup, w.store, job, p) && Ready(w, job, Send(outcome)) && Runs.IndexesAgree(w.store)
    ensures Current(setup, w.store, JobAfter(setup, w, job, Send(outcome)), p.(att := p.att + [Made(setup, job, outcome).attempt]))
  {
    var x := Made(setup, job, outcome).attempt;
    var row := job.rows[0];
    assert row == p.all[|p.att|];
    C.NextRowStays(p.before, w.store, p.att, p.all, job.todo[0], setup, job.nth);
    if outcome.TokenInvalid? {
      C.PrunedByUnregister(p.before, w.store, p.att, x, row);
    } else {
      C.PrunedByNothing(p.before, w.store, p.att, x);
    }
    StillOnRows(setup, w, job, p, outcome);
  }

  lemma StillOnRows(setup: C.Setup, w: World, job: Job, p: Progress, outcome: Outcome)
    requires OnRows(setup, job, p) && Ready(w, job, Send(outcome))
    ensures OnRows(setup, JobAfter(setup, w, job, Send(outcome)), p.(att := p.att + [Made(setup, job, outcome).attempt]))
  {
    C.OneMoreRow(p.att, Made(setup, job, outcome).attempt, p.all, job.todo[0], setup, job.nth);
    assert job.rows[1..] == p.all[|p.att| + 1..];
  }

  lemma AttemptLogged(log: seq<Entry>, x: Entry, a: C.Attempts, b: C.Attempts, c: C.Attempts)
    requires AttemptsIn(log) == a + (b + c)
    ensures AttemptsIn(log + [x]) == a + (b + (c + [x.attempt]))
  {
    assert AttemptsIn(log + [x]) == AttemptsIn(log) + [x.attempt];
  }

  lemma CheckAlone(setup: C.Setup, rs: seq<C.Request>, s: S.State, start: C.Attempts, w: World, job: Job, p: Progress, action: Action)
    returns (p': Progress)
    requires Alone(setup, rs, s, start, w, job, p) && Ready(w, job, action) && Runs.IndexesAgree(w.store)
    requires action.CheckRegistered? || action.CheckBlocked?
    ensures Alone(setup, rs, s, start, w, JobAfter(setup, w, job, action), p')
  {
    p' := p;
    if JobAfter(setup, w, job, action).stage.Asking? {
      GateClosed(setup, rs, s, start, w, job, p, JobAfter(setup, w, job, action));
      p' := NextCall(p, job.todo[0], w.store);
    }
  }

  lemma TokensFetched(setup: C.Setup, rs: seq<C.Request>, s: S.State, start: C.Attempts, w: World, job: Job, p: Progress,
                      rows: seq<PushToken>)
    requires Alone(setup, rs, s, start, w, job, p) && Ready(w, job, FetchTokens(rows)) && Runs.IndexesAgree(w.store)
    ensures Alone(setup, rs, s, start, w, JobAfter(setup, w, job, FetchTokens(rows)), p.(all := rows))
  {
    C.PrunedNothing(w.store);
  }

  // What an action leaves in the store and the log, and nothing else, matters.
  lemma AloneSees(setup: C.Setup, rs: seq<C.Request>, s: S.State, start: C.Attempts, w: World, w': World, job: Job, p: Progress)
    requires Alone(setup, rs, s, start, w, job, p) && w'.store == w.store && w'.log == w.log
    ensures Alone(setup, rs, s, start, w', job, p)
  {
  }

  lemma ActionLeaves(setup: C.Setup, w: World, n: nat, action: Action)
    requires n in w.workers && Ready(w, w.workers[n], action) && !action.Finish?
    ensures var w', job := After(setup, w, Work(n, action)), w.workers[n];
      && n in w'.workers && w'.workers[n] == JobAfter(setup, w, job, action) && w'.store == StoreAfter(w, job, action)
      && w'.log == if action.Send? then w.log + [Made(setup, job, action.outcome)] else w.log
  {
  }

  // One action of the job.
  lemma ActionAlone(setup: C.Setup, rs: seq<C.Request>, s: S.State, start: C.Attempts, w: World, n: nat, p: Progress, action: Action)
    returns (p': Progress)
    requires n in w.workers && Alone(setup, rs, s, start, w, w.workers[n], p)
    requires Ready(w, w.workers[n], action) && !action.Finish? && Runs.IndexesAgree(w.store)
    ensures var w' := After(setup, w, Work(n, action));
      n in w'.workers && Alone(setup, rs, s, start, w', w'.workers[n], p')
  {
    var job := w.workers[n];
    var w' := After(setup, w, Work(n, action));
    p' := p;
    var mid := w;
    match action {
      case CheckRegistered =>
        p' := CheckAlone(setup, rs, s, start, w, job, p, action);
      case CheckBlocked =>
        p' := CheckAlone(setup, rs, s, start, w, job, p, action);
      case FetchTokens(rows) =>
        TokensFetched(setup, rs, s, start, w, job, p, rows);
        p' := p.(all := rows);
      case Send(outcome) =>
        OneSent(setup, rs, s, start, w, job, p, outcome);
        mid, p' := w.(log := w.log + [Made(setup, job, outcome)]), p.(att := p.att + [Made(setup, job, outcome).attempt]);
      case Unregister =>
        mid := w.(store := StoreAfter(w, job, action));
      case Next =>
        RowsDone(setup, rs, s, start, w, job, p);
        p' := NextCall(p, job.todo[0], w.store);
    }
    ActionLeaves(setup, w, n, action);
    AloneSees(setup, rs, s, start, mid, w', JobAfter(setup, w, job, action), p');
  }

  // From step i on, until step k, only worker n works.
  ghost predicate OnlyWorks(steps: seq<Step>, i: nat, k: nat, n: nat)
    requires k <= |steps|
  {
    forall j | i <= j < k :: steps[j].Work? && steps[j].worker == n && !steps[j].action.Finish?
  }

  // A worker that has just recorded its commit.
  lemma AloneAtFirst(setup: C.Setup, w: World, n: nat) returns (p: Progress)
    requires n in w.workers && Ready(w, w.workers[n], Record) && Runs.IndexesAgree(w.store)
    ensures var job, w' := w.workers[n], After(setup, w, Work(n, Record));
      Alone(setup, C.RequestsOf(w.store, job.actor, job.commit, setup), C.Recorded(w.store, job.actor, job.commit),
            AttemptsIn(w.log), w', w'.workers[n], p)
  {
    var job := w.workers[n];
    C.RecordAgrees(w.store, job.actor, job.commit);
    p := Progress([], [], C.Recorded(w.store, job.actor, job.commit), [], []);
  }

  lemma {:induction false} AloneFrom(setup: C.Setup, rs: seq<C.Request>, s: S.State, start: C.Attempts,
                                     worlds: seq<World>, steps: seq<Step>, i: nat, k: nat, n: nat, p: Progress)
    returns (p': Progress)
    requires Run(setup, worlds, steps) && i <= k <= |steps| && OnlyWorks(steps, i, k, n)
    requires n in worlds[i].workers && Alone(setup, rs, s, start, worlds[i], worlds[i].workers[n], p)
    ensures n in worlds[k].workers && Alone(setup, rs, s, start, worlds[k], worlds[k].workers[n], p')
    decreases k - i
  {
    if i == k {
      p' := p;
    } else {
      StepIs(setup, worlds, steps, i, n);
      StoreAndCountersAgree(setup, worlds, steps, i);
      p' := ActionAlone(setup, rs, s, start, worlds[i], n, p, steps[i].action);
      p' := AloneFrom(setup, rs, s, start, worlds, steps, i + 1, k, n, p');
    }
  }

  lemma StepIs(setup: C.Setup, worlds: seq<World>, steps: seq<Step>, k: nat, n: nat)
    requires Run(setup, worlds, steps) && k < |steps| && steps[k].Work? && steps[k].worker == n
    ensures n in worlds[k].workers && Ready(worlds[k], worlds[k].workers[n], steps[k].action)
    ensures worlds[k + 1] == After(setup, worlds[k], Work(n, steps[k].action))
  {
    assert StepTo(setup, worlds[k], steps[k], worlds[k + 1]);
  }

  // Main result: from recording a commit to the end of its last request, the steps of a
  // worker with nothing in between make the calls that the handler makes.
  lemma StepsMakeACommit(setup: C.Setup, worlds: seq<World>, steps: seq<Step>, i: nat, k: nat, n: nat)
    returns (calls: C.Calls)
    requires Run(setup, worlds, steps) && i < k <= |steps|
    requires steps[i] == Work(n, Record) && OnlyWorks(steps, i + 1, k, n)
    requires n in worlds[k].workers && worlds[k].workers[n].stage.Asking? && worlds[k].workers[n].todo == []
    ensures n in worlds[i].workers
    ensures var job := worlds[i].workers[n];
      C.Sent(C.RequestsOf(worlds[i].store, job.actor, job.commit, setup),
             C.Recorded(worlds[i].store, job.actor, job.commit), calls, worlds[k].store, setup)
    ensures AttemptsIn(worlds[k].log) == AttemptsIn(worlds[i].log) + C.AttemptsOf(calls)
  {
    StepIs(setup, worlds, steps, i, n);
    StoreAndCountersAgree(setup, worlds, steps, i);
    var job := worlds[i].workers[n];
    var rs, s := C.RequestsOf(worlds[i].store, job.actor, job.commit, setup), C.Recorded(worlds[i].store, job.actor, job.commit);
    var p := AloneAtFirst(setup, worlds[i], n);
    p := AloneFrom(setup, rs, s, AttemptsIn(worlds[i].log), worlds, steps, i + 1, k, n, p);
    calls := p.calls;
    NothingMore(p.done);
    NothingMore(C.AttemptsOf(p.calls));
  }
}
