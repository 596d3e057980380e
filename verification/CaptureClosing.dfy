// What an error means for the connection: a phase that is disabled while a connection is served closes that connection,
// and a capture that could not be handed over does so too.
module CaptureClosing {
  import opened Common
  import opened CaptureProtocol
  import opened CaptureInvariant
  import opened CaptureSafety
  import opened CaptureCarryOver

  // The thread that met an error is on its way to close the socket.
  predicate IsClosing(s: State) {
    || s.present == Entering(Refusing) || s.present == Presenting(FailedOutcome) || s.present == Leaving(FailedClose)
    || s.fence == SendClose
  }

  // Disabled by an error of a present, a send or a fence check, and not by a stop or a lost device.
  predicate FailedWhileServing(s: State) {
    s.control.phase.Disabled? && Serving(s.socket) && !s.wire.stop && !s.seen.deviceLost
  }

  // A promoted capture that is not handed over is being delivered, or the thread that failed to is done with it.
  predicate Undelivered(s: State) {
    s.control.stage.Promoted? ==>
      || s.fence.Delivering?
      || (s.control.phase.Disabled? && (s.fence.SendClose? || s.fence.Finished? || s.fence.NotRunning?))
  }

  predicate Closes(s: State) {
    && (FailedWhileServing(s) ==> !s.wire.open || IsClosing(s))
    && Undelivered(s)
    && (s.fence.Watching? && (s.fence.watching == ClearInFlight(false) || s.fence.watching.Lost?) ==>
          s.seen.deviceLost)
  }

  lemma CallKeepsCloses(s: State, c: Choice, t: State)
    requires Inv(s) && Closes(s) && s.present.Presenting? && CallStep(s, s.present.presenting, c) == Some(t)
    ensures Closes(t)
  {
    hide Pixels, Provenance, Accounts, SocketThreadOk, Phases, FenceThreadOk;
  }

  lemma PrepareKeepsCloses(s: State, c: Choice, t: State)
    requires Inv(s) && Closes(s) && s.present.Preparing? && PrepareStep(s, s.present.preparing, c) == Some(t)
    ensures Closes(t)
  {
    hide Pixels, Provenance, Accounts, SocketThreadOk, Phases, FenceThreadOk;
  }

  lemma PublishKeepsCloses(s: State, t: State)
    requires Inv(s) && Closes(s) && s.present.Publishing? && PublishStep(s, s.present.publishing) == t
    ensures Closes(t)
  {
    hide Pixels, Provenance, Accounts, SocketThreadOk, Phases, FenceThreadOk;
  }

  lemma EnterKeepsCloses(s: State, c: Choice, t: State)
    requires Closes(s) && s.present.Entering? && EnterStep(s, s.present.entering, c) == Some(t)
    ensures Closes(t)
  {
  }

  lemma LeaveKeepsCloses(s: State, t: State)
    requires Closes(s) && s.present.Leaving? && LeaveStep(s, s.present.leaving) == t
    ensures Closes(t)
  {
  }

  lemma EdgesKeepCloses(s: State, c: Choice, t: State)
    requires Closes(s) && (s.present.Outside? || s.present.Exchange?) && PresentStep(s, c) == Some(t)
    ensures Closes(t)
  {
    hide CallStep, PrepareStep, PublishStep, EnterStep, LeaveStep;
  }

  lemma PresentKeepsCloses(s: State, c: Choice, t: State)
    requires Inv(s) && Closes(s) && PresentStep(s, c) == Some(t)
    ensures Closes(t)
  {
    match s.present
    case Presenting(_) => CallKeepsCloses(s, c, t);
    case Preparing(_) => PrepareKeepsCloses(s, c, t);
    case Publishing(_) => PublishKeepsCloses(s, t);
    case Entering(_) => EnterKeepsCloses(s, c, t);
    case Leaving(_) => LeaveKeepsCloses(s, t);
    case _ => EdgesKeepCloses(s, c, t);
    hide CallStep, PrepareStep, PublishStep, TakeStep, EnterStep, ExchangeStep, LeaveStep, Inv, Closes;
  }

  lemma FenceKeepsCloses(s: State, c: Choice, t: State)
    requires Inv(s) && Closes(s) && FenceStep(s, c) == Some(t)
    ensures Closes(t)
  {
    hide Pixels, Provenance, Accounts, PresentThreadOk, SocketThreadOk;
  }

  lemma AckKeepsCloses(s: State, c: Choice, t: State)
    requires Inv(s) && Closes(s) && s.socket.Acking? && SocketStep(s, c) == Some(t)
    ensures Closes(t)
  {
    hide Pixels, Provenance, Accounts, PresentThreadOk, FenceThreadOk;
  }

  // Serving a request or receiving a packet touches neither the phase nor the capture nor the socket.
  lemma ServingLeavesState(s: State, c: Choice, t: State)
    requires SocketStep(s, c) == Some(t) && (s.socket.Receive? || s.socket.Requesting?)
    ensures t.control == s.control && t.present == s.present && t.fence == s.fence
    ensures t.seen.deviceLost == s.seen.deviceLost && t.wire.open == s.wire.open && t.wire.stop == s.wire.stop
  {
  }

  lemma ServingKeepsCloses(s: State, c: Choice, t: State)
    requires Closes(s) && SocketStep(s, c) == Some(t) && (s.socket.Receive? || s.socket.Requesting?)
    ensures Closes(t)
  {
    ServingLeavesState(s, c, t);
    hide SocketStep;
  }

  lemma OpeningKeepsCloses(s: State, c: Choice, t: State)
    requires Inv(s) && Closes(s) && s.socket.Opening? && OpenStep(s, s.socket.opening, c) == t
    ensures Closes(t)
  {
    hide Pixels, Provenance, Accounts, PresentThreadOk, FenceThreadOk, Phases;
  }

  lemma ResetKeepsCloses(s: State, c: Choice, t: State)
    requires Closes(s) && s.socket.Resetting? && ResetStep(s, s.socket.resetting, s.socket.next, c) == Some(t)
    ensures Closes(t)
  {
  }

  lemma BetweenKeepsCloses(s: State, c: Choice, t: State)
    requires Inv(s) && Closes(s) && s.socket.Between? && BetweenStep(s, s.socket.between, c) == t
    ensures Closes(t)
  {
    hide Pixels, Provenance, Accounts, PresentThreadOk, FenceThreadOk, Phases;
  }

  // The connection is being opened or torn down.
  lemma TurnoverKeepsCloses(s: State, c: Choice, t: State)
    requires Inv(s) && Closes(s) && SocketStep(s, c) == Some(t) && !Serving(s.socket)
    ensures Closes(t)
  {
    match s.socket
    case Opening(_) => OpeningKeepsCloses(s, c, t);
    case Resetting(_, _) => ResetKeepsCloses(s, c, t);
    case Between(_) => BetweenKeepsCloses(s, c, t);
    case _ =>
    hide Inv, OpenStep, ResetStep, BetweenStep, ReceiveStep, RequestStep, AckStep;
  }

  lemma SocketKeepsCloses(s: State, c: Choice, t: State)
    requires Inv(s) && Closes(s) && SocketStep(s, c) == Some(t)
    ensures Closes(t)
  {
    match s.socket
    case Acking(_, _) => AckKeepsCloses(s, c, t);
    case Receive => ServingKeepsCloses(s, c, t);
    case Requesting(_, _) => ServingKeepsCloses(s, c, t);
    case _ => TurnoverKeepsCloses(s, c, t);
    hide SocketStep, Inv, Closes;
  }

  lemma OthersKeepCloses(s: State, a: Action, t: State)
    requires Closes(s) && Step(s, a) == Some(t) && !a.ByPresent? && !a.BySocket? && !a.ByFence?
    ensures Closes(t)
  {
  }

  lemma {:induction false} RunCloses(actions: seq<Action>)
    requires Run(actions).Some?
    ensures Closes(Run(actions).value)
  {
    hide PresentStep, SocketStep, FenceStep, Inv, Closes;
    if actions == [] {
      assert Closes(INITIAL) by { InitialCloses(); }
    } else {
      var before, a := actions[..|actions| - 1], actions[|actions| - 1];
      RunCloses(before);
      RunInv(before);
      match a
      case ByPresent(c) => PresentKeepsCloses(Run(before).value, c, Run(actions).value);
      case BySocket(c) => SocketKeepsCloses(Run(before).value, c, Run(actions).value);
      case ByFence(c) => FenceKeepsCloses(Run(before).value, c, Run(actions).value);
      case _ => OthersKeepCloses(Run(before).value, a, Run(actions).value);
    }
  }

  lemma InitialCloses()
    ensures Closes(INITIAL)
  {
  }

  /** In every run, an error of a fence check, a present or a send closes the connection it happens on: while one is
      served with the phase disabled, and neither a stop nor a lost device disabled it, its socket is closed or a thread
      is just about to close it; and a completed capture is never left lying, neither handed over nor given up. */
  lemma ErrorsCloseTheConnection(actions: seq<Action>)
    requires Run(actions).Some?
    ensures
      var s := Run(actions).value;
      && (s.control.phase.Disabled? && Serving(s.socket) && !s.wire.stop && !s.seen.deviceLost ==>
            !s.wire.open || IsClosing(s))
      && (s.control.stage.Promoted? ==>
            s.fence.Delivering?
            || (s.control.phase.Disabled? && !s.fence.Looking? && !s.fence.Watching?))
  {
    RunCloses(actions);
    hide Run, IsClosing, Serving;
  }
}
