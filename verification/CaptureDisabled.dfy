// When `disabled` is final: which states, once `disable` has stored it, still hold a thread that will store another
// phase without looking at the one it replaces.
module CaptureDisabled {
  import opened Common
  import opened CaptureProtocol
  import opened CaptureInvariant
  import opened CaptureSafety

  // Some thread is past its last test of the phase and of `stop`, and on its way to a store of another phase: a
  // capture, a connection being opened, or an ACK that has been accepted.
  predicate StoreDecided(s: State) {
    || s.present.Preparing? || s.present.Publishing?
    || s.socket.Opening?
    || (s.socket.Between? && Connecting(s.socket.between))
    || (s.socket.Acking? && AckAccepted(s.socket.acking, s.socket.ack == s.job.submitted.sequence))
  }

  predicate Connecting(point: BetweenPoint) {
    point.Admission? || point.Admitted? || point.CreateImage?
  }

  predicate AckAccepted(point: AckPoint, matches: bool) {
    point.AckStore? || (point.SequenceOfAck? && matches)
  }

  // ---------------------------------------------------------------- no store decided, none to come

  // A reset before a second image is never on its way: between connections there is no image.
  predicate NeverRecreates(s: State) {
    s.socket.Resetting? ==> !s.socket.next.ToCreate?
  }

  lemma StepNeverRecreates(s: State, a: Action, t: State)
    requires Inv(s) && NeverRecreates(s) && Step(s, a) == Some(t)
    ensures NeverRecreates(t)
  {
    hide PresentStep, FenceStep, Sessions, Images, Outcomes, Tracked, Origins, Answers, Accounts;
    match a
    case ByPresent(c) => OthersLeaveSocket(s, a, t);
    case ByFence(c) => OthersLeaveSocket(s, a, t);
    case _ =>
  }

  lemma OthersLeaveSocket(s: State, a: Action, t: State)
    requires (a.ByPresent? || a.ByFence?) && Step(s, a) == Some(t)
    ensures t.socket == s.socket && t.wire.stop == s.wire.stop
  {
  }

  lemma {:induction false} RunNeverRecreates(actions: seq<Action>)
    requires Run(actions).Some?
    ensures NeverRecreates(Run(actions).value)
  {
    hide Inv, Step, NeverRecreates;
    if actions == [] {
      assert NeverRecreates(INITIAL) by { InitialNeverRecreates(); }
    } else {
      var before := actions[..|actions| - 1];
      RunNeverRecreates(before);
      RunInv(before);
      StepNeverRecreates(Run(before).value, actions[|actions| - 1], Run(actions).value);
    }
  }

  lemma InitialNeverRecreates()
    ensures NeverRecreates(INITIAL)
  {
  }

  // `disable` has stored its phase, and no other store is on its way.
  predicate Settled(s: State) {
    s.wire.stop && s.control.phase.Disabled? && !StoreDecided(s) && NeverRecreates(s)
  }

  lemma EnterKeepsSettled(s: State, c: Choice, t: State)
    requires Settled(s) && s.present.Entering? && EnterStep(s, s.present.entering, c) == Some(t)
    ensures Settled(t)
  {
  }

  lemma LaterKeepsSettled(s: State, c: Choice, t: State)
    requires Settled(s) && (s.present.Presenting? || s.present.Leaving?) && PresentStep(s, c) == Some(t)
    ensures Settled(t)
  {
    hide TakeStep, EnterStep, ExchangeStep, PrepareStep, PublishStep;
  }

  lemma PresentKeepsSettled(s: State, c: Choice, t: State)
    requires Settled(s) && PresentStep(s, c) == Some(t)
    ensures Settled(t)
  {
    hide EnterStep, PrepareStep, PublishStep, CallStep, LeaveStep;
    match s.present
    case Entering(_) => EnterKeepsSettled(s, c, t);
    case Presenting(_) => LaterKeepsSettled(s, c, t);
    case Leaving(_) => LaterKeepsSettled(s, c, t);
    case _ =>
  }

  lemma FenceKeepsSettled(s: State, c: Choice, t: State)
    requires Settled(s) && FenceStep(s, c) == Some(t)
    ensures Settled(t)
  {
    if s.fence.Delivering? {
      hide LookStep, WatchStep;
    } else {
      hide DeliverStep;
    }
  }

  lemma ResetKeepsSettled(s: State, c: Choice, t: State)
    requires Settled(s) && s.socket.Resetting? && SocketStep(s, c) == Some(t)
    ensures Settled(t)
  {
    hide BetweenStep, OpenStep, ReceiveStep, RequestStep, AckStep;
  }

  lemma PacketsKeepSettled(s: State, c: Choice, t: State)
    requires Settled(s) && Serving(s.socket) && SocketStep(s, c) == Some(t)
    ensures Settled(t)
  {
    hide BetweenStep, OpenStep, ResetStep;
  }

  lemma SocketKeepsSettled(s: State, c: Choice, t: State)
    requires Settled(s) && SocketStep(s, c) == Some(t)
    ensures Settled(t)
  {
    hide OpenStep, ReceiveStep, RequestStep, AckStep, ResetStep;
    if s.socket.Resetting? {
      ResetKeepsSettled(s, c, t);
    } else if Serving(s.socket) {
      PacketsKeepSettled(s, c, t);
    }
  }

  lemma StepKeepsSettled(s: State, a: Action, t: State)
    requires Settled(s) && Step(s, a) == Some(t)
    ensures Settled(t)
  {
    hide PresentStep, FenceStep, SocketStep;
    match a
    case ByPresent(c) => PresentKeepsSettled(s, c, t);
    case ByFence(c) => FenceKeepsSettled(s, c, t);
    case BySocket(c) => SocketKeepsSettled(s, c, t);
    case _ =>
  }

  lemma {:induction false} StaysSettled(actions: seq<Action>, more: seq<Action>)
    requires Run(actions).Some? && Settled(Run(actions).value)
    requires Run(actions + more).Some?
    ensures Settled(Run(actions + more).value)
  {
    hide Step, Settled;
    if more == [] {
      assert actions + more == actions;
    } else {
      var n := |more| - 1;
      assert (actions + more)[..|actions| + n] == actions + more[..n];
      StaysSettled(actions, more[..n]);
      StepKeepsSettled(Run(actions + more[..n]).value, more[n], Run(actions + more).value);
    }
  }

  // ---------------------------------------------------------------- a store decided, and how it comes about

  // The next step of the thread that has decided.
  function NextOfStore(s: State): Action {
    if s.present.Preparing? then ByPresent(Error) else if s.present.Publishing? then ByPresent(Proceed)
    else BySocket(Proceed)
  }

  // How many more steps the thread takes at most.
  function StepsToStore(s: State): nat {
    match s.present
    case Preparing(_) => 1
    case Publishing(p) =>
      (match p case MarkInFlight => 5 case CountCapture => 4 case StoreSequence => 3 case ClearOutcome => 2
               case StoreSubmitted => 1)
    case _ =>
      match s.socket
      case Between(b) => if b.Admission? then 8 else if b.Admitted? then 7 else 6
      case Opening(o) =>
        (match o case StoreDisconnected => 5 case Spawn => 4 case Hello => 3 case ZeroCounters => 2
                 case StoreIdle => 1)
      case Acking(_, a) => if a.AckStore? then 1 else 2
      case _ => 0
  }

  lemma StoreComesCloser(s: State)
    requires Inv(s) && StoreDecided(s)
    ensures Step(s, NextOfStore(s)).Some?
    ensures
      var t := Step(s, NextOfStore(s)).value;
      !t.control.phase.Disabled? || (StoreDecided(t) && StepsToStore(t) < StepsToStore(s))
  {
    hide Sessions, Images, Outcomes, Tracked, Origins, Answers, Accounts;
  }

  lemma {:induction false} StoreComes(actions: seq<Action>) returns (more: seq<Action>)
    requires Run(actions).Some? && StoreDecided(Run(actions).value)
    ensures Run(actions + more).Some? && !Run(actions + more).value.control.phase.Disabled?
    decreases StepsToStore(Run(actions).value)
  {
    hide Inv, Step, StoreDecided, NextOfStore, StepsToStore;
    var s := Run(actions).value;
    var a := NextOfStore(s);
    RunInv(actions);
    StoreComesCloser(s);
    assert (actions + [a])[..|actions|] == actions;
    assert Run(actions + [a]) == Step(s, a);
    if Step(s, a).value.control.phase.Disabled? {
      var rest := StoreComes(actions + [a]);
      assert (actions + [a]) + rest == actions + ([a] + rest);
      more := [a] + rest;
    } else {
      more := [a];
    }
  }

  /** Once `disable` has stored its phase, it is final exactly when no other store is on its way. */
  lemma DisabledIsFinalExactly(actions: seq<Action>)
    requires Run(actions).Some?
    requires Run(actions).value.wire.stop && Run(actions).value.control.phase.Disabled?
    ensures (forall more | Run(actions + more).Some? :: Run(actions + more).value.control.phase.Disabled?)
            <==> !StoreDecided(Run(actions).value)
  {
    hide Step, StoreDecided, NeverRecreates, Run;
    if StoreDecided(Run(actions).value) {
      var more := StoreComes(actions);
      assert !Run(actions + more).value.control.phase.Disabled?;
    } else {
      RunNeverRecreates(actions);
      forall more | Run(actions + more).Some? ensures Run(actions + more).value.control.phase.Disabled? {
        StaysSettled(actions, more);
      }
    }
  }
}
