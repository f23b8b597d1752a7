// The push sender, reduced to what callers see: a log of notifications with the
// provider's answer to each. The answers are any sequence.
module Push {
  import opened Common

  datatype Attempt<+N> = Attempt(note: N, outcome: Outcome)

  class Sender<N> {
    const answers: nat -> Outcome
    var log: seq<Attempt<N>>

    constructor (answers: nat -> Outcome)
      ensures log == [] && this.answers == answers
    {
      log := [];
      this.answers := answers;
    }

    method Send(note: N) returns (outcome: Outcome)
      modifies this`log
      ensures outcome == answers(|old(log)|)
      ensures log == old(log) + [Attempt(note, outcome)]
    {
      outcome := answers(|log|);
      log := log + [Attempt(note, outcome)];
    }
  }
}
