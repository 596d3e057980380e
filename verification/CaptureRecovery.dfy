// No thread of the layer blocks another for good: from every reachable state that is not stopped or shutting down, the
// layer can come to serve a fresh connection.
module CaptureRecovery {
  import opened Common
  import opened CaptureProtocol
  import opened CaptureInvariant
  import opened CaptureSafety
  import opened CaptureCarryOver
  import opened CaptureService

  // ---------------------------------------------------------------- what a reset waits for

  // A submitted capture whose present call is over has an outcome, and a copy marked in flight is one that has been
  // submitted and not followed to its end.
  predicate Decided(s: State) {
    && (s.control.stage.Copying? && !s.present.Presenting? ==> s.job.outcome != 0)
    && (s.job.inFlight ==>
          s.control.stage.Copying? || (s.present.Publishing? && !s.present.publishing.MarkInFlight?))
    && (s.fence.Watching? && (s.fence.watching.ReadOutcome? || s.fence.watching.SawZero? || s.fence.watching.Promote?)
        ==> !s.job.inFlight)
    && (s.socket.Resetting? && s.socket.resetting.Destroy? ==> !s.job.inFlight)
  }

  lemma ExchangeKeepsDecided(s: State, t: State)
    requires Inv(s) && Decided(s) && s.present.Exchange? && ExchangeStep(s) == t
    ensures Decided(t)
  {
    hide Pixels, Provenance, Accounts, FenceThreadOk;
  }

  lemma PublishKeepsDecided(s: State, t: State)
    requires Inv(s) && Decided(s) && s.present.Publishing? && PublishStep(s, s.present.publishing) == t
    ensures Decided(t)
  {
    hide Pixels, Provenance, Accounts, Phases;
  }

  lemma PrepareKeepsDecided(s: State, c: Choice, t: State)
    requires Inv(s) && Decided(s) && s.present.Preparing? && PrepareStep(s, s.present.preparing, c) == Some(t)
    ensures Decided(t)
  {
    hide Pixels, Provenance, Accounts, Phases;
  }

  lemma CallKeepsDecided(s: State, c: Choice, t: State)
    requires Decided(s) && s.present.Presenting? && CallStep(s, s.present.presenting, c) == Some(t)
    ensures Decided(t)
  {
  }

  lemma EdgesKeepDecided(s: State, c: Choice, t: State)
    requires Decided(s) && (s.present.Outside? || s.present.Entering? || s.present.Leaving?)
    requires PresentStep(s, c) == Some(t)
    ensures Decided(t)
  {
    hide ExchangeStep, PublishStep, PrepareStep, CallStep;
  }

  lemma PresentKeepsDecided(s: State, c: Choice, t: State)
    requires Inv(s) && Decided(s) && PresentStep(s, c) == Some(t)
    ensures Decided(t)
  {
    match s.present
    case Exchange => ExchangeKeepsDecided(s, t);
    case Publishing(_) => PublishKeepsDecided(s, t);
    case Preparing(_) => PrepareKeepsDecided(s, c, t);
    case Presenting(_) => CallKeepsDecided(s, c, t);
    case _ => EdgesKeepDecided(s, c, t);
    hide ExchangeStep, PublishStep, PrepareStep, CallStep, TakeStep, EnterStep, LeaveStep, Inv, Decided;
  }

  lemma AckKeepsDecided(s: State, c: Choice, t: State)
    requires Inv(s) && Decided(s) && s.socket.Acking? && SocketStep(s, c) == Some(t)
    ensures Decided(t)
  {
    hide Pixels, Provenance, Accounts, FenceThreadOk, Phases;
  }

  lemma ResetKeepsDecided(s: State, c: Choice, t: State)
    requires Inv(s) && Decided(s) && s.socket.Resetting? && SocketStep(s, c) == Some(t)
    ensures Decided(t)
  {
    hide Pixels, Provenance, Accounts, FenceThreadOk, Phases;
  }

  // The other steps of the socket thread leave the capture alone.
  lemma SocketLeavesCapture(s: State, c: Choice, t: State)
    requires SocketStep(s, c) == Some(t) && !s.socket.Acking? && !s.socket.Resetting?
    ensures t.control.stage == s.control.stage && t.present == s.present
    ensures t.job.outcome == s.job.outcome && t.job.inFlight == s.job.inFlight
    ensures t.fence == s.fence || t.fence == Looking(CheckStop)
    ensures t.socket.Resetting? ==> t.socket.resetting.TakeLock?
  {
  }

  lemma SocketKeepsDecided(s: State, c: Choice, t: State)
    requires Inv(s) && Decided(s) && SocketStep(s, c) == Some(t)
    ensures Decided(t)
  {
    if s.socket.Acking? {
      AckKeepsDecided(s, c, t);
    } else if s.socket.Resetting? {
      ResetKeepsDecided(s, c, t);
    } else {
      SocketLeavesCapture(s, c, t);
    }
    hide SocketStep, Inv;
  }

  lemma FenceKeepsDecided(s: State, c: Choice, t: State)
    requires Inv(s) && Decided(s) && FenceStep(s, c) == Some(t)
    ensures Decided(t)
  {
    hide Pixels, Provenance, Accounts, PresentThreadOk, SocketThreadOk, Phases;
  }

  lemma OthersKeepDecided(s: State, a: Action, t: State)
    requires Decided(s) && Step(s, a) == Some(t) && !a.ByPresent? && !a.BySocket? && !a.ByFence?
    ensures Decided(t)
  {
  }

  lemma {:induction false} RunIsDecided(actions: seq<Action>)
    requires Run(actions).Some?
    ensures Decided(Run(actions).value)
  {
    hide PresentStep, SocketStep, FenceStep, Inv, Decided;
    if actions == [] {
      assert Decided(INITIAL) by { InitialDecided(); }
    } else {
      var before, a := actions[..|actions| - 1], actions[|actions| - 1];
      RunIsDecided(before);
      RunInv(before);
      match a
      case ByPresent(c) => PresentKeepsDecided(Run(before).value, c, Run(actions).value);
      case BySocket(c) => SocketKeepsDecided(Run(before).value, c, Run(actions).value);
      case ByFence(c) => FenceKeepsDecided(Run(before).value, c, Run(actions).value);
      case _ => OthersKeepDecided(Run(before).value, a, Run(actions).value);
    }
  }

  lemma InitialDecided()
    ensures Decided(INITIAL)
  {
  }

  // A state that can be reached from `actions`, and what is known of it.
  lemma ReachedIsSound(actions: seq<Action>, s: State)
    requires LeadsTo(actions, s)
    ensures Inv(s) && Decided(s)
  {
    hide Run, Inv, Decided;
    var more :| Run(actions + more) == Some(s);
    RunInv(actions + more);
    RunIsDecided(actions + more);
  }

  // ---------------------------------------------------------------- the present call ends

  // How far the present thread is from the end of its call.
  function PresentRank(pc: PresentPc): nat {
    match pc
    case Outside => 0
    case Entering(Taken) => 20
    case Entering(FenceCheck) => 1
    case Entering(Refusing) => 1
    case Entering(LockWait) => 19
    case Exchange => 18
    case Preparing(_) => 17
    case Publishing(MarkInFlight) => 16
    case Publishing(CountCapture) => 15
    case Publishing(StoreSequence) => 14
    case Publishing(ClearOutcome) => 13
    case Publishing(StoreSubmitted) => 12
    case Presenting(Calling) => 11
    case Presenting(Succeeded) => 10
    case Presenting(Failed) => 10
    case Presenting(FailedOutcome) => 9
    case Leaving(FailedClose) => 8
    case Leaving(_) => 2
  }

  // A choice with which the call gets on.
  function PresentChoice(pc: PresentPc): Choice {
    match pc
    case Entering(FenceCheck) => NotReady
    case Preparing(_) => Error
    case Presenting(Calling) => Presented(true, NoFence)
    case _ => Proceed
  }

  lemma {:induction false} PresentLeaves(actions: seq<Action>, s: State) returns (t: State)
    requires LeadsTo(actions, s) && !s.control.lock.SocketThread?
    ensures LeadsTo(actions, t) && t.present == Outside && t.socket == s.socket && t.wire.stop == s.wire.stop
    ensures !t.control.lock.SocketThread? && t.seen.deviceLost == s.seen.deviceLost
    decreases PresentRank(s.present)
  {
    if s.present == Outside {
      t := s;
    } else {
      ReachedIsSound(actions, s);
      CallCanGoOn(s);
      t := Go(actions, s, ByPresent(PresentChoice(s.present)));
      CallGoesOn(s, t);
      hide Step, Inv, PresentRank, PresentChoice, LeadsTo;
      t := PresentLeaves(actions, t);
    }
  }

  lemma CallCanGoOn(s: State)
    requires Inv(s) && s.present != Outside && !s.control.lock.SocketThread?
    ensures Step(s, ByPresent(PresentChoice(s.present))).Some?
  {
    hide Pixels, Provenance, Accounts, SocketThreadOk, FenceThreadOk, Phases;
  }

  lemma CallGoesOn(s: State, t: State)
    requires s.present != Outside && !s.control.lock.SocketThread?
    requires Step(s, ByPresent(PresentChoice(s.present))) == Some(t)
    ensures PresentRank(t.present) < PresentRank(s.present)
    ensures t.socket == s.socket && t.wire.stop == s.wire.stop && !t.control.lock.SocketThread?
    ensures t.seen.deviceLost == s.seen.deviceLost
  {
  }

  // ---------------------------------------------------------------- the copy ends

  // Nothing but the progress of the current copy.
  predicate SameButCopy(s: State, t: State) {
    && t.control == s.control && t.wire == s.wire && t.present == s.present && t.fence == s.fence
    && t.socket == s.socket && t.seen == s.seen && t.job == s.job.(fenceSignaled := t.job.fenceSignaled)
  }

  function CopyRank(c: Copy): nat {
    match c
    case Queued(_, _) => 2
    case Executing(_) => 1
    case NoCopy => 0
  }

  lemma CopyIsUnderWay(s: State)
    requires Inv(s) && s.control.stage.Copying?
    ensures s.sessions != [] && s.control.hasImage
    ensures !s.job.fenceSignaled ==> !s.sessions[Current(s)].copy.NoCopy?
  {
    hide Provenance, Accounts, PresentThreadOk, FenceThreadOk, SocketThreadOk, Outcomes, Tracked, Sessions;
  }

  lemma CopyGoesOn(s: State, t: State)
    requires s.sessions != [] && s.control.hasImage && !s.sessions[Current(s)].copy.NoCopy?
    requires Step(s, ByGpu(Current(s))) == Some(t)
    ensures SameButCopy(s, t) && |t.sessions| == |s.sessions|
    ensures CopyRank(t.sessions[Current(t)].copy) < CopyRank(s.sessions[Current(s)].copy)
  {
  }

  // A submitted copy completes and signals the fence.
  lemma {:induction false} CopyEnds(actions: seq<Action>, s: State) returns (t: State)
    requires LeadsTo(actions, s) && s.control.stage.Copying? && s.sessions != []
    ensures LeadsTo(actions, t) && SameButCopy(s, t) && t.job.fenceSignaled
    decreases CopyRank(s.sessions[Current(s)].copy)
  {
    t := s;
    if !s.job.fenceSignaled {
      ReachedIsSound(actions, s);
      CopyIsUnderWay(s);
      hide Inv, Decided;
      t := Go(actions, s, ByGpu(Current(s)));
      CopyGoesOn(s, t);
      hide Step, LeadsTo, CopyRank;
      t := CopyEnds(actions, t);
    }
  }

  // ---------------------------------------------------------------- the fence thread ends

  function FenceRank(pc: FencePc): nat {
    match pc
    case NotRunning => 0
    case Finished => 0
    case Looking(LoadPhase) => 1
    case Looking(CheckStop) => 2
    case SendClose => 1
    case Delivering(SendFailed) => 2
    case Delivering(Send) => 3
    case Watching(Promote) => 4
    case Watching(SawZero) => 0
    case Watching(ReadOutcome) => 5
    case Watching(Lost) => 1
    case Watching(ClearInFlight(ok)) => if ok then 6 else 2
    case Watching(WaitFence) => 7
  }

  // While the reset waits for the fence thread: the phase is disabled, the lock is taken, and no call is under way.
  predicate AtJoin(s: State, next: Resume) {
    && s.socket == Resetting(Join, next) && s.control.phase.Disabled? && !s.wire.stop
    && s.control.lock.SocketThread?
  }

  // A choice with which the fence thread gets on: a send fails exactly on a closed socket.
  function FenceChoice(s: State): Choice {
    if s.fence == Delivering(Send) && !s.wire.open then Error else Proceed
  }

  lemma {:induction false} FenceEnds(actions: seq<Action>, s: State, next: Resume) returns (t: State)
    requires LeadsTo(actions, s) && AtJoin(s, next) && s.fence != Watching(SawZero)
    ensures LeadsTo(actions, t) && AtJoin(t, next) && (t.fence.NotRunning? || t.fence.Finished?)
    ensures t.present == s.present && t.seen.deviceLost == s.seen.deviceLost
    decreases FenceRank(s.fence)
  {
    t := s;
    if !s.fence.NotRunning? && !s.fence.Finished? {
      t := CopyIsAwaited(actions, s);
      assert AtJoin(t, next);
      ReachedIsSound(actions, t);
      FenceCanGoOn(t, next);
      var waited := t;
      t := Go(actions, t, ByFence(FenceChoice(t)));
      FenceGoesOn(waited, next, t);
      hide Step, Inv, FenceRank, LeadsTo, AtJoin, Decided;
      t := FenceEnds(actions, t, next);
    }
  }

  // Before it waits for the fence, the copy completes.
  lemma CopyIsAwaited(actions: seq<Action>, s: State) returns (t: State)
    requires LeadsTo(actions, s)
    ensures LeadsTo(actions, t) && SameButCopy(s, t) && (s.fence == Watching(WaitFence) ==> t.job.fenceSignaled)
  {
    t := s;
    if s.fence == Watching(WaitFence) {
      ReachedIsSound(actions, s);
      WatchesCopy(s);
      CopyIsUnderWay(s);
      hide Inv, LeadsTo;
      t := CopyEnds(actions, s);
    }
  }

  lemma WatchesCopy(s: State)
    requires Inv(s) && s.fence.Watching?
    ensures s.control.stage.Copying?
  {
    hide Pixels, Provenance, Accounts, PresentThreadOk, SocketThreadOk, Phases;
  }

  lemma FenceCanGoOn(s: State, next: Resume)
    requires Inv(s) && AtJoin(s, next) && !s.fence.NotRunning? && !s.fence.Finished?
    requires s.fence == Watching(WaitFence) ==> s.job.fenceSignaled
    ensures Step(s, ByFence(FenceChoice(s))).Some?
  {
    hide Pixels, Provenance, Accounts, PresentThreadOk, SocketThreadOk;
  }

  lemma FenceGoesOn(s: State, next: Resume, t: State)
    requires Inv(s) && Decided(s) && AtJoin(s, next) && s.fence != Watching(SawZero)
    requires s.fence == Watching(WaitFence) ==> s.job.fenceSignaled
    requires Step(s, ByFence(FenceChoice(s))) == Some(t) && !s.fence.NotRunning? && !s.fence.Finished?
    ensures FenceRank(t.fence) < FenceRank(s.fence) && t.fence != Watching(SawZero)
    ensures AtJoin(t, next) && t.present == s.present && t.seen.deviceLost == s.seen.deviceLost
  {
    hide Pixels, Provenance, Accounts, Phases;
  }

  // A fence thread that has seen no outcome yet looks again, and then there is one.
  lemma FenceLooksAgain(actions: seq<Action>, s: State, next: Resume) returns (t: State)
    requires LeadsTo(actions, s) && AtJoin(s, next)
    ensures LeadsTo(actions, t) && AtJoin(t, next) && t.fence != Watching(SawZero) && t.present == s.present
    ensures t.seen.deviceLost == s.seen.deviceLost
  {
    t := s;
    if s.fence == Watching(SawZero) {
      t := Go(actions, s, ByFence(Proceed));
    }
  }

  // ---------------------------------------------------------------- a reset ends

  predicate AtReset(s: State, next: Resume) {
    && s.socket.Resetting? && s.socket.next == next && !s.wire.stop
    && (s.socket.resetting.TakeLock? ==> s.control.lock.Nobody?)
  }

  predicate AfterReset(s: State, next: Resume) {
    s.socket == Resumed(next) && !s.wire.stop && s.control.lock.Nobody?
  }

  lemma ResetReachesJoin(actions: seq<Action>, s: State, next: Resume) returns (t: State)
    requires LeadsTo(actions, s) && AtReset(s, next)
    requires s.socket.resetting.TakeLock? || s.socket.resetting.StoreDisabled? || s.socket.resetting.Join?
    ensures LeadsTo(actions, t) && AtJoin(t, next) && t.present == s.present
    ensures t.seen.deviceLost == s.seen.deviceLost
  {
    ReachedIsSound(actions, s);
    ResetHoldsLock(s, next);
    hide Inv, Decided, LeadsTo;
    t := s;
    if t.socket.resetting.TakeLock? {
      t := Go(actions, t, BySocket(Proceed));
    }
    if t.socket.resetting.StoreDisabled? {
      t := Go(actions, t, BySocket(Proceed));
    }
  }

  lemma ResetHoldsLock(s: State, next: Resume)
    requires Inv(s) && AtReset(s, next)
    ensures !s.socket.resetting.TakeLock? ==> s.control.lock.SocketThread?
    ensures s.socket.resetting.Join? ==> s.control.phase.Disabled?
  {
    hide Pixels, Provenance, Accounts, PresentThreadOk, FenceThreadOk, Phases;
  }

  lemma ResetReachesWait(actions: seq<Action>, s: State, next: Resume) returns (t: State)
    requires LeadsTo(actions, s) && AtReset(s, next)
    requires s.socket.resetting.Join? ==> s.fence.NotRunning? || s.fence.Finished?
    requires s.socket.resetting.Join? || s.socket.resetting.AwaitCopy?
    ensures LeadsTo(actions, t) && AtReset(t, next) && t.socket.resetting.AwaitCopy?
    ensures t.present == s.present && t.seen == s.seen
  {
    hide LeadsTo;
    t := s;
    if t.socket.resetting.Join? {
      t := Go(actions, t, BySocket(Proceed));
    }
  }

  // A copy the reset has to wait for has been submitted, and completes.
  lemma WaitIsOver(actions: seq<Action>, s: State, next: Resume) returns (t: State)
    requires LeadsTo(actions, s) && AtReset(s, next) && s.socket.resetting.AwaitCopy?
    ensures LeadsTo(actions, t) && SameButCopy(s, t) && (t.job.inFlight ==> t.job.fenceSignaled)
  {
    t := s;
    if s.job.inFlight {
      ReachedIsSound(actions, s);
      ResetSeesCopy(s);
      CopyIsUnderWay(s);
      hide Inv, LeadsTo, Decided;
      t := CopyEnds(actions, s);
    }
  }

  lemma ResetSeesCopy(s: State)
    requires Inv(s) && Decided(s) && s.socket.Resetting? && s.socket.resetting.AwaitCopy? && s.job.inFlight
    ensures s.control.stage.Copying?
  {
    hide Pixels, Provenance, Accounts, FenceThreadOk, Phases;
  }

  lemma ResetFinishes(actions: seq<Action>, s: State, next: Resume) returns (t: State)
    requires LeadsTo(actions, s) && AtReset(s, next)
    requires s.socket.resetting.AwaitCopy? || s.socket.resetting.Destroy?
    requires s.socket.resetting.AwaitCopy? && s.job.inFlight ==> s.job.fenceSignaled
    ensures LeadsTo(actions, t) && AfterReset(t, next) && t.present == s.present && t.seen == s.seen
  {
    hide LeadsTo;
    t := s;
    if t.socket.resetting.AwaitCopy? {
      t := Go(actions, t, BySocket(Proceed));
    }
    t := Go(actions, t, BySocket(Proceed));
  }

  lemma ResetEnds(actions: seq<Action>, s: State, next: Resume) returns (t: State)
    requires LeadsTo(actions, s) && AtReset(s, next)
    ensures LeadsTo(actions, t) && AfterReset(t, next) && t.present == s.present
    ensures t.seen.deviceLost == s.seen.deviceLost
  {
    t := s;
    if s.socket.resetting.TakeLock? || s.socket.resetting.StoreDisabled? || s.socket.resetting.Join? {
      t := ResetReachesJoin(actions, t, next);
      t := FenceLooksAgain(actions, t, next);
      t := FenceEnds(actions, t, next);
    }
    hide LeadsTo;
    if !t.socket.resetting.Destroy? {
      t := ResetReachesWait(actions, t, next);
      t := WaitIsOver(actions, t, next);
    }
    t := ResetFinishes(actions, t, next);
  }

  // ---------------------------------------------------------------- main result

  // The socket thread has ended, or ends once its reset is done.
  predicate ShuttingDown(pc: SocketPc) {
    pc.Ended? || pc == Between(ExitDisabled) || (pc.Resetting? && pc.next.ToExit?)
  }

  // How far the socket thread is from the top of its loop.
  function SocketRank(pc: SocketPc): nat {
    match pc
    case Between(Top) => 0
    case Between(Afterwards) => 1
    case Between(Admission) => 1
    case Resetting(_, next) => if next.ToCreate? then 15 else 2
    case DropPending => 3
    case Closing => 4
    case Receive => 5
    case Requesting(_, p) => if p.PhaseOfRequest? then 9 else if p.PendingOfRequest? then 8
                             else if p.StorePending? then 7 else 6
    case Acking(_, p) => if p.PhaseOfAck? then 8 else if p.SequenceOfAck? then 7 else 6
    case Opening(StoreIdle) => 9
    case Opening(ZeroCounters) => 10
    case Opening(Hello) => 11
    case Opening(Spawn) => 12
    case Opening(StoreDisconnected) => 13
    case Between(CreateImage) => 14
    case Between(Admitted) => 16
    case _ => 0
  }

  // A choice with which the socket thread gets on.
  function SocketChoice(pc: SocketPc): Choice {
    match pc
    case Between(Admission) => Error
    case Receive => Error
    case _ => Proceed
  }

  // No call is under way, the lock is free, and the layer is neither stopped nor shutting down.
  predicate Quiet(s: State) {
    s.present == Outside && s.control.lock.Nobody? && !s.wire.stop && !ShuttingDown(s.socket)
  }

  lemma SocketCanGoOn(s: State)
    requires Inv(s) && Quiet(s) && !s.socket.Resetting? && s.socket != Between(Top)
    ensures Step(s, BySocket(SocketChoice(s.socket))).Some?
  {
    hide Pixels, Provenance, Accounts, PresentThreadOk, FenceThreadOk;
  }

  lemma SocketGoesOn(s: State, t: State)
    requires Quiet(s) && !s.socket.Resetting? && s.socket != Between(Top)
    requires Step(s, BySocket(SocketChoice(s.socket))) == Some(t)
    ensures Quiet(t) && SocketRank(t.socket) < SocketRank(s.socket) && t.seen.deviceLost == s.seen.deviceLost
  {
  }

  lemma {:induction false} SocketReachesTop(actions: seq<Action>, s: State) returns (t: State)
    requires LeadsTo(actions, s) && Quiet(s)
    ensures LeadsTo(actions, t) && Quiet(t) && t.socket == Between(Top) && t.seen.deviceLost == s.seen.deviceLost
    decreases SocketRank(s.socket)
  {
    if s.socket == Between(Top) {
      t := s;
    } else if s.socket.Resetting? {
      assert AtReset(s, s.socket.next) by { QuietReset(actions, s); }
      t := ResetEnds(actions, s, s.socket.next);
      hide LeadsTo;
      t := SocketReachesTop(actions, t);
    } else {
      ReachedIsSound(actions, s);
      SocketCanGoOn(s);
      t := Go(actions, s, BySocket(SocketChoice(s.socket)));
      SocketGoesOn(s, t);
      hide Step, Inv, SocketRank, LeadsTo, Quiet, Decided;
      t := SocketReachesTop(actions, t);
    }
  }

  lemma QuietReset(actions: seq<Action>, s: State)
    requires LeadsTo(actions, s) && Quiet(s) && s.socket.Resetting?
    ensures AtReset(s, s.socket.next)
  {
    ReachedIsSound(actions, s);
    hide Pixels, Provenance, Accounts, PresentThreadOk, FenceThreadOk, Phases;
  }

  // First a reset that holds the lock ends, then the present call.
  lemma LayerGetsQuiet(actions: seq<Action>, s: State) returns (t: State)
    requires LeadsTo(actions, s) && !s.wire.stop && !ShuttingDown(s.socket)
    ensures LeadsTo(actions, t) && Quiet(t) && t.seen.deviceLost == s.seen.deviceLost
  {
    ReachedIsSound(actions, s);
    t := s;
    if s.control.lock.SocketThread? {
      LockedReset(s);
      t := ResetEnds(actions, s, s.socket.next);
      ResumedGoesOn(s.socket.next);
    }
    assert !ShuttingDown(t.socket) && !t.wire.stop && !t.control.lock.SocketThread?;
    hide Inv, Decided, LeadsTo, ShuttingDown;
    t := PresentLeaves(actions, t);
    ReachedIsSound(actions, t);
    OutsideIsFree(t);
  }

  lemma LockedReset(s: State)
    requires Inv(s) && s.control.lock.SocketThread? && !s.wire.stop
    ensures s.socket.Resetting? && AtReset(s, s.socket.next)
  {
    hide Pixels, Provenance, Accounts, PresentThreadOk, FenceThreadOk, Phases;
  }

  lemma ResumedGoesOn(next: Resume)
    ensures next.ToExit? <==> ShuttingDown(Resumed(next))
  {
  }

  lemma OutsideIsFree(s: State)
    requires Inv(s) && s.present == Outside && !s.control.lock.SocketThread?
    ensures s.control.lock.Nobody?
  {
    hide Pixels, Provenance, Accounts, SocketThreadOk, FenceThreadOk, Phases;
  }

  // Some continuation brings a fresh connection to rest, without a fence wait that fails.
  ghost predicate CanServe(actions: seq<Action>) {
    exists more, n :: RestsAfter(actions, more, n)
  }

  ghost predicate RestsAfter(actions: seq<Action>, more: seq<Action>, n: nat) {
    && Run(actions + more).Some? && AtRest(Run(actions + more).value, n)
    && Run(actions).Some? && |Run(actions).value.sessions| < n
    && Run(actions + more).value.seen.deviceLost == Run(actions).value.seen.deviceLost
  }

  lemma SessionsStay(s: State, a: Action, t: State)
    requires Step(s, a) == Some(t)
    ensures |s.sessions| <= |t.sessions|
  {
  }

  lemma {:induction false} ConnectionsAreCounted(actions: seq<Action>, more: seq<Action>)
    requires Run(actions + more).Some?
    ensures Run(actions).Some? && |Run(actions).value.sessions| <= |Run(actions + more).value.sessions|
  {
    if more == [] {
      assert actions + more == actions;
    } else {
      var front, a := more[..|more| - 1], more[|more| - 1];
      assert (actions + more)[..|actions + more| - 1] == actions + front && (actions + more)[|actions + more| - 1] == a;
      hide Step;
      ConnectionsAreCounted(actions, front);
      SessionsStay(Run(actions + front).value, a, Run(actions + more).value);
    }
  }

  // The layer is stopped or on its way out.
  predicate Over(s: State) {
    s.wire.stop || ShuttingDown(s.socket)
  }

  lemma StepStaysOver(s: State, a: Action, t: State)
    requires Over(s) && Step(s, a) == Some(t)
    ensures Over(t)
  {
    hide PresentStep, FenceStep;
    if a.ByPresent? {
      PresentKeepsSocket(s, a.choice, t);
    } else if a.ByFence? {
      FenceKeepsSocket(s, a.choice, t);
    } else if a.BySocket? {
      SocketStaysOver(s, a.choice, t);
    }
    hide SocketStep;
  }

  lemma SocketStaysOver(s: State, c: Choice, t: State)
    requires Over(s) && SocketStep(s, c) == Some(t)
    ensures Over(t)
  {
    SocketKeepsStop(s, c, t);
    hide RequestStep, OpenStep, AckStep, ReceiveStep;
    if ShuttingDown(s.socket) {
      ExitGoesOn(s, c, t);
    }
    hide SocketStep, ShuttingDown;
  }

  lemma ExitGoesOn(s: State, c: Choice, t: State)
    requires ShuttingDown(s.socket) && SocketStep(s, c) == Some(t)
    ensures ShuttingDown(t.socket)
  {
    hide RequestStep, OpenStep, AckStep, ReceiveStep;
  }

  lemma SocketKeepsStop(s: State, c: Choice, t: State)
    requires SocketStep(s, c) == Some(t)
    ensures t.wire.stop == s.wire.stop
  {
    match s.socket
    case Requesting(_, _) => RequestKeepsRest(s, c, t);
    case _ =>
    hide RequestStep;
  }

  lemma PresentKeepsSocket(s: State, c: Choice, t: State)
    requires PresentStep(s, c) == Some(t)
    ensures t.socket == s.socket && t.wire.stop == s.wire.stop
  {
  }

  lemma FenceKeepsSocket(s: State, c: Choice, t: State)
    requires FenceStep(s, c) == Some(t)
    ensures t.socket == s.socket && t.wire.stop == s.wire.stop
  {
  }

  lemma {:induction false} RunStaysOver(actions: seq<Action>, more: seq<Action>)
    requires Run(actions).Some? && Over(Run(actions).value) && Run(actions + more).Some?
    ensures Over(Run(actions + more).value)
  {
    if more == [] {
      assert actions + more == actions;
    } else {
      var front, a := more[..|more| - 1], more[|more| - 1];
      assert (actions + more)[..|actions + more| - 1] == actions + front && (actions + more)[|actions + more| - 1] == a;
      hide Step, Over;
      RunStaysOver(actions, front);
      StepStaysOver(Run(actions + front).value, a, Run(actions + more).value);
    }
  }

  /** Some continuation of a run brings a new connection to rest, where it can serve any request, exactly when the layer
      is not stopped and its socket thread not shutting down, whatever its threads are doing; no fence wait has to fail
      for that. */
  lemma ServiceCanResumeExactly(actions: seq<Action>)
    requires Run(actions).Some?
    ensures CanServe(actions) <==> !Run(actions).value.wire.stop && !ShuttingDown(Run(actions).value.socket)
  {
    var s := Run(actions).value;
    assert actions + [] == actions && LeadsTo(actions, s);
    hide Run, Inv, AtTop, LeadsTo, Decided, Quiet;
    if Over(s) {
      forall more, n ensures !RestsAfter(actions, more, n) {
        if Run(actions + more).Some? {
          RunStaysOver(actions, more);
        }
      }
    } else {
      hide AtRest, Over, ShuttingDown, CanServe;
      var t := LayerGetsQuiet(actions, s);
      t := SocketReachesTop(actions, t);
      NextConnection(actions, t);
    }
  }

  lemma NextConnection(actions: seq<Action>, s: State)
    requires Run(actions).Some? && LeadsTo(actions, s) && Quiet(s) && s.socket == Between(Top)
    requires s.seen.deviceLost == Run(actions).value.seen.deviceLost
    ensures CanServe(actions)
  {
    ReachedIsSound(actions, s);
    TopIsFree(s);
    assert |Run(actions).value.sessions| <= |s.sessions| by {
      var more :| Run(actions + more) == Some(s);
      ConnectionsAreCounted(actions, more);
    }
    hide Run, AtRest, Inv, Decided, AtTop, LeadsTo;
    var t := ConnectionIsOpened(actions, s);
    RestIsServing(actions, t, |s.sessions| + 1);
  }

  lemma RestIsServing(actions: seq<Action>, t: State, n: nat)
    requires Run(actions).Some? && LeadsTo(actions, t) && AtRest(t, n) && n > |Run(actions).value.sessions|
    requires t.seen.deviceLost == Run(actions).value.seen.deviceLost
    ensures CanServe(actions)
  {
    hide Run, AtRest;
    var more :| Run(actions + more) == Some(t);
    assert RestsAfter(actions, more, n);
  }
}
