// The watcher's pipeline: one reader that connects, resumes and reads, a bounded queue and
// eight workers, interleaved in any way. Each step is what one goroutine does to the state
// the others see: a counter and the queue operation it reports, or the cursor and what is
// made of its event, go together.
module Pipeline {
  import opened Common

  const QUEUE_CAPACITY := 1024
  const NUM_WORKERS := 8

  // What decoding makes of an event.
  datatype Content = Undecodable | Other | Commit

  // The events of the network in the order the server sends them, with their times.
  datatype Event = Event(timeUS: int, content: Content)

  type Feed = seq<Event>

  // An event is named by its place in the feed.
  datatype Reader = Away | Idle | Holding(at: nat) | Offering(at: nat)

  datatype State = State(
    reader: Reader,
    next: nat,                  // the place the connection has got to
    queue: seq<nat>,
    busy: map<nat, nat>,        // worker to the commit it handles
    gone: set<nat>,             // workers that saw the stop signal
    stopped: bool,
    eventsReceived: nat, eventsDropped: nat, lastCursor: int,
    // what happened so far
    garbled: seq<nat>,          // events lost in decompression
    undecodable: seq<nat>,
    decoded: seq<nat>,
    nonCommit: nat,
    dropped: seq<nat>, enqueued: seq<nat>, taken: seq<nat>, handled: seq<nat>)

  datatype Step =
    | Connect(at: nat) | Disconnect
    | DecompressFailed | Receive | Decode | Offer
    | Take(worker: nat) | Finish(worker: nat) | Stop | Leave(worker: nat)

  ghost predicate Init(s: State) {
    s == State(Away, 0, [], map[], {}, false, 0, 0, 0, [], [], [], 0, [], [], [], [])
  }

  // Where a connection begins: with a cursor, at the first event not older than it;
  // without one, anywhere.
  ghost predicate ResumesAt(feed: Feed, cursor: int, at: nat) {
    && at <= |feed|
    && (cursor > 0 ==>
          && (forall k | 0 <= k < at :: feed[k].timeUS < cursor)
          && (forall k | at <= k < |feed| :: feed[k].timeUS >= cursor))
  }

  ghost predicate Enabled(feed: Feed, s: State, step: Step) {
    match step
    case Connect(at) => s.reader.Away? && ResumesAt(feed, s.lastCursor, at)
    case Disconnect => s.reader.Idle?
    case DecompressFailed => s.reader.Idle? && s.next < |feed|
    case Receive => s.reader.Idle? && s.next < |feed|
    case Decode => s.reader.Holding? && s.reader.at < |feed|
    case Offer => s.reader.Offering?
    case Take(w) => w < NUM_WORKERS && w !in s.busy && w !in s.gone && s.queue != []
    case Finish(w) => w in s.busy
    case Stop => true
    case Leave(w) => w < NUM_WORKERS && w !in s.busy && s.stopped
  }

  ghost function After(feed: Feed, s: State, step: Step): State
    requires Enabled(feed, s, step)
  {
    match step
    case Connect(at) => s.(reader := Idle, next := at)
    case Disconnect => s.(reader := Away)
    case DecompressFailed => s.(garbled := s.garbled + [s.next], next := s.next + 1)
    case Receive => s.(eventsReceived := s.eventsReceived + 1, reader := Holding(s.next), next := s.next + 1)
    case Decode =>
      var at, event := s.reader.at, feed[s.reader.at];
      if event.content.Undecodable? then s.(undecodable := s.undecodable + [at], reader := Idle)
      else
        var s1 := s.(decoded := s.decoded + [at], lastCursor := if event.timeUS > 0 then event.timeUS else s.lastCursor);
        if event.content.Other? then s1.(nonCommit := s.nonCommit + 1, reader := Idle)
        else s1.(reader := Offering(at))
    case Offer =>
      var at := s.reader.at;
      // A send that would block drops the event instead.
      if |s.queue| < QUEUE_CAPACITY then
        s.(queue := s.queue + [at], enqueued := s.enqueued + [at], reader := Idle)
      else s.(eventsDropped := s.eventsDropped + 1, dropped := s.dropped + [at], reader := Idle)
    case Take(w) => s.(queue := s.queue[1..], taken := s.taken + [s.queue[0]], busy := s.busy[w := s.queue[0]])
    case Finish(w) => s.(handled := s.handled + [s.busy[w]], busy := s.busy - {w})
    case Stop => s.(stopped := true)
    case Leave(w) => s.(gone := s.gone + {w})
  }

  ghost predicate Run(feed: Feed, states: seq<State>, steps: seq<Step>) {
    && |states| == |steps| + 1 && Init(states[0])
    && forall i | 0 <= i < |steps| ::
      Enabled(feed, states[i], steps[i]) && states[i + 1] == After(feed, states[i], steps[i])
  }

  lemma PrefixRun(feed: Feed, states: seq<State>, steps: seq<Step>, i: nat)
    requires Run(feed, states, steps) && i <= |steps|
    ensures Run(feed, states[..i + 1], steps[..i])
  {
  }

  // ---------------------------------------------------------------------- conservation

  // The commits the first n workers are handling.
  function InFlight(busy: map<nat, nat>, n: nat): multiset<nat> {
    if n == 0 then multiset{}
    else if n - 1 in busy then InFlight(busy, n - 1) + multiset{busy[n - 1]}
    else InFlight(busy, n - 1)
  }

  // The reader has an event it has not disposed of.
  predicate InHand(r: Reader) {
    r.Holding? || r.Offering?
  }

  // With n workers.
  ghost predicate Conserved(s: State, n: nat) {
    && s.eventsReceived ==
      |s.undecodable| + s.nonCommit + |s.dropped| + |s.enqueued| + (if InHand(s.reader) then 1 else 0)
    && s.eventsDropped == |s.dropped|
    && s.enqueued == s.taken + s.queue
    && multiset(s.taken) == multiset(s.handled) + InFlight(s.busy, n)
    && |s.queue| <= QUEUE_CAPACITY
    && (forall w | w in s.busy :: w < n)
  }

  lemma {:induction false} InFlightPut(busy: map<nat, nat>, w: nat, at: nat, n: nat)
    requires w !in busy
    ensures InFlight(busy[w := at], n) == if w < n then InFlight(busy, n) + multiset{at} else InFlight(busy, n)
  {
    if n == 0 {
    } else {
      InFlightPut(busy, w, at, n - 1);
    }
  }

  lemma TakeConserves(feed: Feed, s: State, w: nat, n: nat)
    requires Conserved(s, n) && NUM_WORKERS <= n && Enabled(feed, s, Take(w))
    ensures Conserved(After(feed, s, Take(w)), n)
  {
    InFlightPut(s.busy, w, s.queue[0], n);
    FrontMoves(s.taken, s.queue);
  }

  lemma FrontMoves(taken: seq<nat>, queue: seq<nat>)
    requires queue != []
    ensures (taken + [queue[0]]) + queue[1..] == taken + queue
    ensures multiset(taken + [queue[0]]) == multiset(taken) + multiset{queue[0]}
  {
    assert queue == [queue[0]] + queue[1..];
  }

  lemma FinishConserves(feed: Feed, s: State, w: nat, n: nat)
    requires Conserved(s, n) && NUM_WORKERS <= n && Enabled(feed, s, Finish(w))
    ensures Conserved(After(feed, s, Finish(w)), n)
  {
    var rest := s.busy - {w};
    assert rest[w := s.busy[w]] == s.busy;
    InFlightPut(rest, w, s.busy[w], n);
  }

  lemma OfferConserves(feed: Feed, s: State, n: nat)
    requires Conserved(s, n) && NUM_WORKERS <= n && Enabled(feed, s, Offer)
    ensures Conserved(After(feed, s, Offer), n)
  {
    assert s.taken + (s.queue + [s.reader.at]) == (s.taken + s.queue) + [s.reader.at];
  }

  // What the reader does before it offers.
  lemma ReaderConserves(feed: Feed, s: State, step: Step, n: nat)
    requires Conserved(s, n) && NUM_WORKERS <= n && Enabled(feed, s, step)
    requires step.Connect? || step.Disconnect? || step.DecompressFailed? || step.Receive? || step.Decode?
    ensures Conserved(After(feed, s, step), n)
  {
  }

  lemma StepConserves(feed: Feed, s: State, step: Step, n: nat)
    requires Conserved(s, n) && NUM_WORKERS <= n && Enabled(feed, s, step)
    ensures Conserved(After(feed, s, step), n)
  {
    match step
    case Take(w) => TakeConserves(feed, s, w, n);
    case Finish(w) => FinishConserves(feed, s, w, n);
    case Offer => OfferConserves(feed, s, n);
    case Stop =>
    case Leave(_) =>
    case _ => ReaderConserves(feed, s, step, n);
  }

  lemma {:induction false} RunConserves(feed: Feed, states: seq<State>, steps: seq<Step>, n: nat)
    requires Run(feed, states, steps) && NUM_WORKERS <= n
    ensures Conserved(states[|steps|], n)
  {
    if steps == [] {
      NobodyBusy(n);
    } else {
      var last := |steps| - 1;
      RunConserves(feed, states[..last + 1], steps[..last], n);
      StepConserves(feed, states[last], steps[last], n);
    }
  }

  lemma {:induction false} NobodyBusy(n: nat)
    ensures InFlight(map[], n) == multiset{}
  {
    if n == 0 {
    } else {
      NobodyBusy(n - 1);
    }
  }

  lemma {:induction false} InFlightSize(busy: map<nat, nat>, n: nat)
    ensures |InFlight(busy, n)| <= n
  {
    if n == 0 {
    } else {
      InFlightSize(busy, n - 1);
    }
  }

  // Main result: in every interleaving each received event is accounted for, commits are
  // taken in the order they were queued, and each queued commit is handled once, being
  // handled, or still waiting.
  lemma EventsAreConserved(feed: Feed, states: seq<State>, steps: seq<Step>)
    requires Run(feed, states, steps)
    ensures var s := states[|steps|];
      && s.eventsReceived == |s.undecodable| + s.nonCommit + s.eventsDropped + |s.enqueued| +
           (if InHand(s.reader) then 1 else 0)
      && s.taken <= s.enqueued
      && multiset(s.enqueued) == multiset(s.handled) + InFlight(s.busy, NUM_WORKERS) + multiset(s.queue)
      && |s.queue| <= 1024 && |InFlight(s.busy, NUM_WORKERS)| <= 8
      && |s.enqueued| <= |s.handled| + 8 + 1024
  {
    RunConserves(feed, states, steps, NUM_WORKERS);
    var s := states[|steps|];
    assert multiset(s.taken + s.queue) == multiset(s.taken) + multiset(s.queue);
    InFlightSize(s.busy, NUM_WORKERS);
    HandledAtMostTaken(s, NUM_WORKERS);
  }

  // Main result: an event is dropped exactly when it is offered to a full queue, and then
  // a full queue's worth of commits is waiting to be handled.
  lemma DropsOnlyWhenFull(feed: Feed, states: seq<State>, steps: seq<Step>, i: nat)
    requires Run(feed, states, steps) && i < |steps|
    ensures states[i + 1].eventsDropped != states[i].eventsDropped <==>
      steps[i].Offer? && |states[i].queue| == 1024
    ensures states[i + 1].eventsDropped != states[i].eventsDropped ==>
      |states[i].enqueued| - |states[i].handled| >= 1024
  {
    PrefixRun(feed, states, steps, i);
    RunConserves(feed, states[..i + 1], steps[..i], NUM_WORKERS);
    HandledAtMostTaken(states[i], NUM_WORKERS);
    DropOf(feed, states[i], steps[i]);
  }

  lemma HandledAtMostTaken(s: State, n: nat)
    requires Conserved(s, n)
    ensures |s.handled| + |InFlight(s.busy, n)| == |s.enqueued| - |s.queue|
  {
    assert |multiset(s.taken)| == |s.taken| && |multiset(s.handled)| == |s.handled|;
  }

  lemma DropOf(feed: Feed, s: State, step: Step)
    requires Enabled(feed, s, step) && |s.queue| <= QUEUE_CAPACITY
    ensures After(feed, s, step).eventsDropped != s.eventsDropped <==> step.Offer? && |s.queue| == QUEUE_CAPACITY
  {
  }

  // Main result: as long as the workers keep the backlog below the capacity, nothing is dropped.
  lemma {:induction false} KeepingUpDropsNothing(feed: Feed, states: seq<State>, steps: seq<Step>)
    requires Run(feed, states, steps)
    requires forall i | 0 <= i < |states| :: |states[i].enqueued| - |states[i].handled| < 1024
    ensures states[|steps|].eventsDropped == 0
  {
    if steps == [] {
    } else {
      var n := |steps| - 1;
      KeepingUpDropsNothing(feed, states[..n + 1], steps[..n]);
      DropsOnlyWhenFull(feed, states, steps, n);
    }
  }

  // -------------------------------------------------------------- the cursor, and resuming

  // A server that sends events in the order of their times.
  ghost predicate InOrder(feed: Feed) {
    && (forall k | 0 <= k < |feed| :: 0 < feed[k].timeUS)
    && (forall k, l | 0 <= k < l < |feed| :: feed[k].timeUS <= feed[l].timeUS)
  }

  // An event that was decoded, is in hand, or was lost on the way.
  predicate Seen(s: State, k: nat) {
    k in s.decoded || k in s.undecodable || k in s.garbled || s.reader == Holding(k)
  }

  function Last(s: State): nat
    requires s.decoded != []
  {
    s.decoded[|s.decoded| - 1]
  }

  predicate IsCommit(feed: Feed, k: nat) {
    k < |feed| && feed[k].content.Commit?
  }

  function TimeOf(feed: Feed, k: nat): int {
    if k < |feed| then feed[k].timeUS else 0
  }

  // The cursor is the time of the last event decoded and no earlier one is newer.
  ghost predicate CursorTracks(feed: Feed, s: State) {
    && (forall k: nat | k in s.decoded :: k < |feed| && TimeOf(feed, k) <= s.lastCursor)
    && s.lastCursor == if s.decoded == [] then 0 else TimeOf(feed, Last(s))
  }

  // What the connection has still to send is not older than the cursor.
  ghost predicate ConnectionAhead(feed: Feed, s: State) {
    && s.next <= |feed|
    && (s.reader.Holding? ==> s.reader.at + 1 == s.next && feed[s.reader.at].timeUS >= s.lastCursor)
    && (!s.reader.Away? ==> forall k | s.next <= k < |feed| :: feed[k].timeUS >= s.lastCursor)
  }

  // From the first event decoded on there is no gap.
  ghost predicate NoGap(s: State) {
    s.decoded != [] ==> forall k: nat | s.decoded[0] <= k < Max(s.next, Last(s) + 1) :: Seen(s, k)
  }

  // Steps that decode nothing keep what was seen, and get past one more event at most.
  lemma NoGapKept(s: State, s': State)
    requires NoGap(s) && s'.decoded == s.decoded
    requires forall k: nat | Seen(s, k) :: Seen(s', k)
    requires s.decoded != [] ==> s'.next <= Max(s.next, Last(s) + 1) || (s'.next == s.next + 1 && Seen(s', s.next))
    ensures NoGap(s')
  {
    if s.decoded != [] {
      forall k: nat | s.decoded[0] <= k < Max(s'.next, Last(s') + 1)
        ensures Seen(s', k)
      {
        assert k == s.next || Seen(s, k);
      }
    }
  }

  // Decoded commits are offered to the queue.
  ghost predicate CommitsOffered(feed: Feed, s: State) {
    && (forall k: nat | k in s.dropped || k in s.enqueued || s.reader == Offering(k) :: k in s.decoded)
    && (forall k: nat | k in s.decoded && IsCommit(feed, k) ::
          k in s.dropped || k in s.enqueued || s.reader == Offering(k))
  }

  ghost predicate Tracked(feed: Feed, s: State) {
    CursorTracks(feed, s) && ConnectionAhead(feed, s) && NoGap(s) && CommitsOffered(feed, s)
  }

  lemma ConnectTracks(feed: Feed, s: State, at: nat)
    requires InOrder(feed) && Tracked(feed, s) && Enabled(feed, s, Connect(at))
    ensures Tracked(feed, After(feed, s, Connect(at)))
    ensures s.decoded != [] ==> at <= Last(s) && s.lastCursor > 0
  {
    if s.decoded != [] {
      assert Last(s) in s.decoded;
    }
    var s' := After(feed, s, Connect(at));
    assert forall k: nat | Seen(s, k) :: Seen(s', k);
    NoGapKept(s, s');
  }

  lemma DecodeTracks(feed: Feed, s: State)
    requires InOrder(feed) && Tracked(feed, s) && Enabled(feed, s, Decode)
    ensures Tracked(feed, After(feed, s, Decode))
  {
    DecodeSees(feed, s);
    DecodeMovesCursor(feed, s);
    DecodeNoGap(feed, s);
  }

  lemma DecodeSees(feed: Feed, s: State)
    requires CommitsOffered(feed, s) && Enabled(feed, s, Decode)
    ensures var s' := After(feed, s, Decode);
      CommitsOffered(feed, s') && (forall k: nat | Seen(s, k) :: Seen(s', k)) && Seen(s', s.reader.at)
  {
    forall k: nat
      ensures k in s.decoded + [s.reader.at] <==> k in s.decoded || k == s.reader.at
      ensures k in s.undecodable + [s.reader.at] <==> k in s.undecodable || k == s.reader.at
    {
    }
  }

  lemma DecodeMovesCursor(feed: Feed, s: State)
    requires InOrder(feed) && CursorTracks(feed, s) && ConnectionAhead(feed, s) && Enabled(feed, s, Decode)
    ensures CursorTracks(feed, After(feed, s, Decode)) && ConnectionAhead(feed, After(feed, s, Decode))
  {
    forall k: nat
      ensures k in s.decoded + [s.reader.at] <==> k in s.decoded || k == s.reader.at
    {
    }
  }

  lemma DecodeNoGap(feed: Feed, s: State)
    requires NoGap(s) && ConnectionAhead(feed, s) && Enabled(feed, s, Decode)
    requires forall k: nat | Seen(s, k) :: Seen(After(feed, s, Decode), k)
    requires Seen(After(feed, s, Decode), s.reader.at)
    ensures NoGap(After(feed, s, Decode))
  {
    var s' := After(feed, s, Decode);
    if s'.decoded != [] {
      forall k: nat | s'.decoded[0] <= k < Max(s'.next, Last(s') + 1)
        ensures Seen(s', k)
      {
        assert k == s.reader.at || Seen(s, k);
      }
    }
  }

  lemma OfferTracks(feed: Feed, s: State)
    requires Tracked(feed, s) && Enabled(feed, s, Offer)
    ensures Tracked(feed, After(feed, s, Offer))
  {
    var s' := After(feed, s, Offer);
    forall k: nat
      ensures k in s.dropped + [s.reader.at] <==> k in s.dropped || k == s.reader.at
      ensures k in s.enqueued + [s.reader.at] <==> k in s.enqueued || k == s.reader.at
    {
    }
    assert forall k: nat | Seen(s, k) :: Seen(s', k);
    NoGapKept(s, s');
  }

  // Getting past one more event.
  lemma ReadTracks(feed: Feed, s: State, step: Step)
    requires Tracked(feed, s) && Enabled(feed, s, step) && (step.Receive? || step.DecompressFailed?)
    ensures Tracked(feed, After(feed, s, step))
  {
    var s' := After(feed, s, step);
    forall k: nat
      ensures k in s.garbled + [s.next] <==> k in s.garbled || k == s.next
    {
    }
    assert forall k: nat | Seen(s, k) :: Seen(s', k);
    NoGapKept(s, s');
  }

  lemma StepTracks(feed: Feed, s: State, step: Step)
    requires InOrder(feed) && Tracked(feed, s) && Enabled(feed, s, step)
    ensures Tracked(feed, After(feed, s, step))
  {
    match step
    case Connect(at) => ConnectTracks(feed, s, at);
    case Decode => DecodeTracks(feed, s);
    case Offer => OfferTracks(feed, s);
    case DecompressFailed => ReadTracks(feed, s, step);
    case Receive => ReadTracks(feed, s, step);
    case _ =>
      assert forall k: nat | Seen(s, k) :: Seen(After(feed, s, step), k);
      NoGapKept(s, After(feed, s, step));
  }

  lemma {:induction false} RunTracks(feed: Feed, states: seq<State>, steps: seq<Step>)
    requires Run(feed, states, steps) && InOrder(feed)
    ensures Tracked(feed, states[|steps|])
  {
    if steps == [] {
    } else {
      var n := |steps| - 1;
      RunTracks(feed, states[..n + 1], steps[..n]);
      StepTracks(feed, states[n], steps[n]);
    }
  }

  // Main result: with a server that sends events in the order of their times, whatever the
  // disconnects, no event from the first decoded one to the place the connection has got to
  // is skipped: each was decoded, is in hand or was lost on the way, and each decoded commit
  // was queued, dropped or is being offered.
  lemma ResumingSkipsNothing(feed: Feed, states: seq<State>, steps: seq<Step>, k: nat)
    requires Run(feed, states, steps) && InOrder(feed) && states[|steps|].decoded != []
    requires states[|steps|].decoded[0] <= k < states[|steps|].next
    ensures var s := states[|steps|];
      && Seen(s, k)
      && (k in s.decoded && IsCommit(feed, k) ==> k in s.enqueued || k in s.dropped || s.reader == Offering(k))
  {
    RunTracks(feed, states, steps);
  }

  // Main result: a reconnect repeats an event that was decoded before exactly when its time
  // is the cursor. So the last one always comes again, and a dropped commit older than the
  // cursor is lost for good.
  lemma ResumingRepeatsExactly(feed: Feed, states: seq<State>, steps: seq<Step>, i: nat, k: nat)
    requires Run(feed, states, steps) && InOrder(feed) && i < |steps| && steps[i].Connect?
    requires k in states[i].decoded
    ensures k >= states[i + 1].next <==> TimeOf(feed, k) == states[i].lastCursor
    ensures Last(states[i]) >= states[i + 1].next
    ensures forall d: nat | d in states[i].dropped && TimeOf(feed, d) < states[i].lastCursor :: d < states[i + 1].next
  {
    PrefixRun(feed, states, steps, i);
    RunTracks(feed, states[..i + 1], steps[..i]);
    ConnectTracks(feed, states[i], steps[i].at);
  }
}
