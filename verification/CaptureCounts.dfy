// What each counter counts: the events of the run since the counters were cleared, told apart by what the threads
// found, not by the counter they went on to increment.
module CaptureCounts {
  import opened Common
  import opened CaptureProtocol
  import opened CaptureInvariant

  // ---------------------------------------------------------------- what the threads found

  // A packet is read off the socket, and it is a REQUEST.
  predicate ReadsRequest(s: State, a: Action) {
    && a.BySocket? && !a.choice.Error? && s.socket.Receive?
    && s.sessions != [] && s.sessions[Current(s)].toProducer != [] && s.sessions[Current(s)].toProducer[0].Request?
  }

  // A REQUEST finds a capture in progress, or none possible.
  predicate RequestFindsBusy(s: State, a: Action) {
    a.BySocket? && s.socket.Requesting? && s.socket.requesting.PhaseOfRequest? && !s.control.phase.Idle?
  }

  // A REQUEST that found the phase idle finds another one pending, at the load or at the exchange.
  predicate RequestFindsPending(s: State, a: Action) {
    && a.BySocket? && s.socket.Requesting? && (s.socket.requesting.PendingOfRequest? || s.socket.requesting.SetPending?)
    && s.wire.pending
  }

  // A present call that took a request finds no fence to wait for, the phase not idle, or the last present not over.
  predicate CallFindsBusy(s: State, a: Action) {
    && a.ByPresent?
    && (|| (s.present == Entering(FenceCheck) && a.choice.NotReady?)
        || (s.present == Exchange && !s.control.phase.Idle?)
        || (s.present == Preparing(Checks) && a.choice.NotReady? && !s.job.presentFence.NoFence?))
  }

  // A present call that took a request meets an error before its copy is submitted.
  predicate CallFails(s: State, a: Action) {
    && a.ByPresent?
    && (|| (s.present == Entering(FenceCheck) && a.choice.Error?)
        || (s.present.Preparing? && a.choice.Error?)
        || (s.present == Preparing(FenceReset) && a.choice.NotReady?))
  }

  predicate Submits(s: State, a: Action) {
    a.ByPresent? && a.choice.Proceed? && s.present == Preparing(Submit)
  }

  predicate ClearsCounters(s: State, a: Action) {
    a.BySocket? && s.socket == Opening(ZeroCounters)
  }

  // ---------------------------------------------------------------- the tally of a run

  datatype Tally = Tally(requests: nat, captures: nat, busy: nat, coalesced: nat, refused: nat)

  // The findings whose counter is still to be incremented.
  function Due(s: State): Tally {
    Tally(0,
          Count(s.present == Publishing(MarkInFlight) || s.present == Publishing(CountCapture)),
          Count(s.socket.Requesting? && s.socket.requesting.RefuseBusy?) + Count(s.present == Leaving(CountBusy)),
          Count(s.socket.Requesting? && s.socket.requesting.Coalesce?),
          Count(s.present == Entering(Refusing)) + Count(s.present == Leaving(Rejected)))
  }

  // A finding of a call that was under way when the counters were cleared is counted afterwards.
  function NextTally(w: Tally, s: State, a: Action): Tally {
    if ClearsCounters(s, a) then Due(s)
    else
      Tally(w.requests + Count(ReadsRequest(s, a)),
            w.captures + Count(Submits(s, a)),
            w.busy + Count(RequestFindsBusy(s, a)) + Count(CallFindsBusy(s, a)),
            w.coalesced + Count(RequestFindsPending(s, a)),
            w.refused + Count(CallFails(s, a)))
  }

  function TallyOf(actions: seq<Action>): Tally
    requires Run(actions).Some?
  {
    if actions == [] then Tally(0, 0, 0, 0, 0)
    else
      var before := actions[..|actions| - 1];
      NextTally(TallyOf(before), Run(before).value, actions[|actions| - 1])
  }

  predicate Counted(s: State, w: Tally) {
    var due := Due(s);
    && w.requests == s.counts.requests && w.captures == s.counts.captures + due.captures
    && w.busy == s.counts.busy + due.busy && w.coalesced == s.counts.coalesced + due.coalesced
    && w.refused == s.counts.refused + due.refused
  }

  // ---------------------------------------------------------------- every step keeps the tally

  lemma EnterCounted(s: State, w: Tally, c: Choice, t: State)
    requires Counted(s, w) && s.present.Entering? && EnterStep(s, s.present.entering, c) == Some(t)
    ensures Counted(t, NextTally(w, s, ByPresent(c)))
  {
  }

  lemma PrepareCounted(s: State, w: Tally, c: Choice, t: State)
    requires Counted(s, w) && s.present.Preparing? && PrepareStep(s, s.present.preparing, c) == Some(t)
    ensures Counted(t, NextTally(w, s, ByPresent(c)))
  {
  }

  lemma PublishCounted(s: State, w: Tally, c: Choice, t: State)
    requires Counted(s, w) && s.present.Publishing? && PublishStep(s, s.present.publishing) == t
    ensures Counted(t, NextTally(w, s, ByPresent(c)))
  {
  }

  lemma EndCounted(s: State, w: Tally, c: Choice, t: State)
    requires Counted(s, w) && PresentStep(s, c) == Some(t) && (s.present.Presenting? || s.present.Leaving?)
    ensures Counted(t, NextTally(w, s, ByPresent(c)))
  {
    hide TakeStep, EnterStep, ExchangeStep, PrepareStep, PublishStep;
  }

  lemma PresentCounted(s: State, w: Tally, c: Choice, t: State)
    requires Counted(s, w) && PresentStep(s, c) == Some(t)
    ensures Counted(t, NextTally(w, s, ByPresent(c)))
  {
    hide EnterStep, PrepareStep, PublishStep, CallStep, LeaveStep;
    match s.present
    case Entering(_) => EnterCounted(s, w, c, t);
    case Preparing(_) => PrepareCounted(s, w, c, t);
    case Publishing(_) => PublishCounted(s, w, c, t);
    case Presenting(_) => EndCounted(s, w, c, t);
    case Leaving(_) => EndCounted(s, w, c, t);
    case _ =>
  }

  lemma RequestCounted(s: State, w: Tally, c: Choice, t: State)
    requires Counted(s, w) && s.socket.Requesting? && RequestStep(s, s.socket.request, s.socket.requesting, c) == t
    ensures Counted(t, NextTally(w, s, BySocket(c)))
  {
  }

  lemma ReceiveCounted(s: State, w: Tally, c: Choice, t: State)
    requires Counted(s, w) && s.socket.Receive? && ReceiveStep(s, c) == Some(t)
    ensures Counted(t, NextTally(w, s, BySocket(c)))
  {
  }

  lemma OpenCounted(s: State, w: Tally, c: Choice, t: State)
    requires Counted(s, w) && s.socket.Opening? && OpenStep(s, s.socket.opening, c) == t
    ensures Counted(t, NextTally(w, s, BySocket(c)))
  {
  }

  lemma RestCounted(s: State, w: Tally, c: Choice, t: State)
    requires Counted(s, w) && SocketStep(s, c) == Some(t)
    requires s.socket.Between? || s.socket.Acking? || s.socket.Closing? || s.socket.DropPending? || s.socket.Resetting?
    ensures Counted(t, NextTally(w, s, BySocket(c)))
  {
    hide OpenStep, ReceiveStep, RequestStep;
  }

  lemma SocketCounted(s: State, w: Tally, c: Choice, t: State)
    requires Counted(s, w) && SocketStep(s, c) == Some(t)
    ensures Counted(t, NextTally(w, s, BySocket(c)))
  {
    hide BetweenStep, OpenStep, ReceiveStep, RequestStep, AckStep, ResetStep, NextTally, Counted;
    match s.socket
    case Opening(_) => OpenCounted(s, w, c, t);
    case Receive => ReceiveCounted(s, w, c, t);
    case Requesting(_, _) => RequestCounted(s, w, c, t);
    case _ => RestCounted(s, w, c, t);
  }

  lemma FenceKeepsCounts(s: State, c: Choice, t: State)
    requires FenceStep(s, c) == Some(t)
    ensures t.counts == s.counts && t.present == s.present && t.socket == s.socket
  {
    if s.fence.Watching? {
      hide LookStep, DeliverStep;
    } else {
      hide WatchStep;
    }
  }

  lemma FenceCounted(s: State, w: Tally, c: Choice, t: State)
    requires Counted(s, w) && FenceStep(s, c) == Some(t)
    ensures Counted(t, NextTally(w, s, ByFence(c)))
  {
    hide FenceStep;
    FenceKeepsCounts(s, c, t);
  }

  lemma StepCounted(s: State, w: Tally, a: Action, t: State)
    requires Counted(s, w) && Step(s, a) == Some(t)
    ensures Counted(t, NextTally(w, s, a))
  {
    hide PresentStep, FenceStep, SocketStep;
    match a
    case ByPresent(c) => PresentCounted(s, w, c, t);
    case ByFence(c) => FenceCounted(s, w, c, t);
    case BySocket(c) => SocketCounted(s, w, c, t);
    case _ =>
  }

  lemma InitialCounted()
    ensures Counted(INITIAL, Tally(0, 0, 0, 0, 0))
  {
  }

  /** In every run the counters are the tally of what the threads found since the counters were cleared: requests read,
      copies submitted, requests and calls that found the capture busy, requests that found one pending, and calls that
      failed; less the findings whose thread has yet to take the step that counts them. */
  lemma CountersAreTallied(actions: seq<Action>)
    requires Run(actions).Some?
    ensures
      var s, w := Run(actions).value, TallyOf(actions);
      && s.counts.requests == w.requests
      && s.counts.captures
         == w.captures - Count(s.present == Publishing(MarkInFlight) || s.present == Publishing(CountCapture))
      && s.counts.busy
         == w.busy - Count(s.socket.Requesting? && s.socket.requesting.RefuseBusy?)
                   - Count(s.present == Leaving(CountBusy))
      && s.counts.coalesced == w.coalesced - Count(s.socket.Requesting? && s.socket.requesting.Coalesce?)
      && s.counts.refused == w.refused - Count(s.present == Entering(Refusing)) - Count(s.present == Leaving(Rejected))
  {
    RunCounted(actions);
    hide Run, TallyOf;
  }

  lemma {:induction false} RunCounted(actions: seq<Action>)
    requires Run(actions).Some?
    ensures Counted(Run(actions).value, TallyOf(actions))
  {
    hide Step, NextTally, Counted;
    if actions == [] {
      InitialCounted();
    } else {
      var before := actions[..|actions| - 1];
      RunCounted(before);
      StepCounted(Run(before).value, TallyOf(before), actions[|actions| - 1], Run(actions).value);
    }
  }
}
