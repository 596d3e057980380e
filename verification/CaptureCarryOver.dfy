// Which connections can be sent a READY that answers an earlier one: those opened while a present call that took a
// request of an earlier connection may still capture.
module CaptureCarryOver {
  import opened Common
  import opened CaptureProtocol
  import opened CaptureInvariant
  import opened CaptureSafety
  import opened CaptureAnswers
  import opened CaptureDisabled

  // A present call has taken a request and may still capture.
  predicate Carrying(pc: PresentPc) {
    (pc.Entering? && !pc.entering.Refusing?) || pc.Exchange? || pc.Preparing? || pc.Publishing?
  }

  // Every READY sent or yet to be sent on connection `n` carries a request of that connection.
  predicate AnswersItself(s: State, n: nat) {
    0 < n <= |s.sessions| ==>
      forall ready | ready in s.sessions[n - 1].toConsumer :: ready.origin == n
  }

  // ---------------------------------------------------------------- no call carries a request over

  // While connection `n` is the current one, every request on its way to a READY is its own.
  predicate OwnRequests(s: State, n: nat) {
    && (s.wire.pending || s.present == Entering(Taken) ==> s.wire.pendingTag.origin == n)
    && (s.socket.Requesting? && s.socket.requesting.SetPending? ==> s.wire.pendingTag.origin == n)
    && (Carrying(s.present) && s.present != Entering(Taken) ==> s.job.call.tag.origin == n)
    && (s.present.Publishing? && Tagged(s.present.publishing) ==> s.job.submitted.origin == n)
    && (s.control.stage.Copying? || s.control.stage.Promoted? ==> s.job.submitted.origin == n)
  }

  predicate Own(s: State, n: nat) {
    && 0 < n <= |s.sessions|
    && (n == |s.sessions| ==> OwnRequests(s, n))
    && AnswersItself(s, n)
  }

  lemma EnterKeepsOwnRequests(s: State, n: nat, c: Choice, t: State)
    requires OwnRequests(s, n) && s.present.Entering? && EnterStep(s, s.present.entering, c) == Some(t)
    ensures OwnRequests(t, n)
  {
  }

  lemma CaptureKeepsOwnRequests(s: State, n: nat, c: Choice, t: State)
    requires OwnRequests(s, n) && PresentStep(s, c) == Some(t) && PresentThreadOk(s)
    requires s.present.Preparing? || s.present.Publishing?
    ensures OwnRequests(t, n)
  {
    hide TakeStep, EnterStep, ExchangeStep, CallStep, LeaveStep;
  }

  lemma EndKeepsOwnRequests(s: State, n: nat, c: Choice, t: State)
    requires OwnRequests(s, n) && PresentStep(s, c) == Some(t)
    requires s.present.Presenting? || s.present.Leaving?
    ensures OwnRequests(t, n)
  {
    hide TakeStep, EnterStep, ExchangeStep, PrepareStep, PublishStep;
  }

  lemma PresentKeepsOwnRequests(s: State, n: nat, c: Choice, t: State)
    requires OwnRequests(s, n) && PresentStep(s, c) == Some(t) && PresentThreadOk(s)
    ensures OwnRequests(t, n)
  {
    hide EnterStep, PrepareStep, PublishStep, CallStep, LeaveStep;
    if s.present.Entering? {
      EnterKeepsOwnRequests(s, n, c, t);
    } else if s.present.Preparing? || s.present.Publishing? {
      CaptureKeepsOwnRequests(s, n, c, t);
    } else if s.present.Presenting? || s.present.Leaving? {
      EndKeepsOwnRequests(s, n, c, t);
    }
  }

  lemma PresentKeepsReadys(s: State, n: nat, c: Choice, t: State)
    requires 0 < n <= |s.sessions| && PresentStep(s, c) == Some(t)
    ensures |t.sessions| == |s.sessions| && t.sessions[n - 1].toConsumer == s.sessions[n - 1].toConsumer
  {
  }

  lemma FenceKeepsOwn(s: State, n: nat, c: Choice, t: State)
    requires Own(s, n) && FenceStep(s, c) == Some(t) && FenceThreadOk(s)
    ensures Own(t, n)
  {
  }

  lemma BetweenKeepsOwn(s: State, n: nat, c: Choice, t: State)
    requires Own(s, n) && s.socket.Between? && BetweenStep(s, s.socket.between, c) == t
    ensures Own(t, n)
  {
  }

  lemma RequestKeepsOwn(s: State, n: nat, c: Choice, t: State)
    requires Own(s, n) && s.socket.Requesting? && RequestStep(s, s.socket.request, s.socket.requesting, c) == t
    ensures Own(t, n)
  {
  }

  lemma OpenKeepsOwn(s: State, n: nat, c: Choice, t: State)
    requires Own(s, n) && s.socket.Opening? && OpenStep(s, s.socket.opening, c) == t
    ensures Own(t, n)
  {
  }

  lemma PacketsKeepOwn(s: State, n: nat, c: Choice, t: State)
    requires Own(s, n) && (s.socket.Receive? || s.socket.Acking?) && SocketStep(s, c) == Some(t)
    ensures Own(t, n)
  {
    hide BetweenStep, OpenStep, RequestStep, ResetStep;
  }

  lemma ResetKeepsOwn(s: State, n: nat, c: Choice, t: State)
    requires Own(s, n) && s.socket.Resetting? && ResetStep(s, s.socket.resetting, s.socket.next, c) == Some(t)
    ensures Own(t, n)
  {
  }

  lemma SocketKeepsOwn(s: State, n: nat, c: Choice, t: State)
    requires Own(s, n) && SocketStep(s, c) == Some(t)
    ensures Own(t, n)
  {
    hide BetweenStep, OpenStep, ReceiveStep, RequestStep, AckStep, ResetStep;
    match s.socket
    case Between(_) => BetweenKeepsOwn(s, n, c, t);
    case Requesting(_, _) => RequestKeepsOwn(s, n, c, t);
    case Resetting(_, _) => ResetKeepsOwn(s, n, c, t);
    case Opening(_) => OpenKeepsOwn(s, n, c, t);
    case Receive => PacketsKeepOwn(s, n, c, t);
    case Acking(_, _) => PacketsKeepOwn(s, n, c, t);
    case _ =>
  }

  lemma ConsumerKeepsOwn(s: State, n: nat, i: nat, m: ConsumerAction, t: State)
    requires Own(s, n) && ConsumerStep(s, i, m) == Some(t)
    ensures Own(t, n)
  {
  }

  lemma OthersKeepOwn(s: State, n: nat, a: Action, t: State)
    requires Own(s, n) && Step(s, a) == Some(t) && (a.ByDisable? || a.ByRetire? || a.ByGpu?)
    ensures Own(t, n)
  {
  }

  lemma StepKeepsOwn(s: State, n: nat, a: Action, t: State)
    requires Inv(s) && Own(s, n) && Step(s, a) == Some(t)
    ensures Own(t, n)
  {
    hide PresentStep, FenceStep, SocketStep, ConsumerStep, GpuStep, OwnRequests, FenceThreadOk, PresentThreadOk;
    hide Phases, SocketThreadOk, Pixels, Provenance, Accounts, AnswersItself;
    match a
    case ByPresent(c) =>
      PresentKeepsReadys(s, n, c, t);
      if n == |s.sessions| { PresentKeepsOwnRequests(s, n, c, t); }
      assert AnswersItself(t, n) by { SameReadys(s, n, t); }
    case ByFence(c) => FenceKeepsOwn(s, n, c, t);
    case BySocket(c) => SocketKeepsOwn(s, n, c, t);
    case ByConsumer(i, m) => ConsumerKeepsOwn(s, n, i, m, t);
    case _ => OthersKeepOwn(s, n, a, t);
  }

  lemma SameReadys(s: State, n: nat, t: State)
    requires 0 < n <= |s.sessions| && AnswersItself(s, n)
    requires |t.sessions| == |s.sessions| && t.sessions[n - 1].toConsumer == s.sessions[n - 1].toConsumer
    ensures AnswersItself(t, n)
  {
  }

  lemma OpenedOwn(s: State)
    requires Inv(s) && s.socket == Opening(StoreDisconnected) && !Carrying(s.present)
    ensures Own(s, |s.sessions|)
  {
    hide Outcomes, Tracked, Origins, Answers, Accounts;
    assert SessionOk(s.sessions[Current(s)]);
    hide SessionOk;
  }

  lemma {:induction false} RunKeepsOwn(actions: seq<Action>, more: seq<Action>, n: nat)
    requires Run(actions).Some? && Own(Run(actions).value, n) && Run(actions + more).Some?
    ensures Own(Run(actions + more).value, n)
  {
    hide Step, Own, Inv;
    if more == [] {
      assert actions + more == actions;
    } else {
      var m := |more| - 1;
      assert (actions + more)[..|actions| + m] == actions + more[..m];
      RunKeepsOwn(actions, more[..m], n);
      RunInv(actions + more[..m]);
      StepKeepsOwn(Run(actions + more[..m]).value, n, more[m], Run(actions + more).value);
    }
  }

  // ---------------------------------------------------------------- a stopped layer sends no READY

  // Connection `n` has not been sent a READY, and its fence thread will look at `stop` before anything else.
  predicate Silent(s: State, n: nat) {
    && s.wire.stop && 0 < n <= |s.sessions| && s.sessions[n - 1].toConsumer == []
    && (n == |s.sessions| ==> s.fence.NotRunning? || s.fence == Looking(CheckStop) || s.fence.Finished?)
  }

  lemma OpenedSilent(s: State)
    requires Inv(s) && s.socket == Opening(StoreDisconnected) && s.wire.stop
    ensures Silent(s, |s.sessions|)
  {
    hide Outcomes, Tracked, Origins, Answers, Accounts;
    var x := s.sessions[Current(s)];
    assert SessionOk(x) && !x.owed;
  }

  lemma PresentKeepsStop(s: State, c: Choice, t: State)
    requires PresentStep(s, c) == Some(t)
    ensures t.wire.stop == s.wire.stop && t.fence == s.fence
  {
  }

  lemma FenceKeepsSilent(s: State, n: nat, c: Choice, t: State)
    requires Silent(s, n) && FenceStep(s, c) == Some(t)
    ensures Silent(t, n)
  {
  }

  lemma RequestKeepsRest(s: State, c: Choice, t: State)
    requires s.socket.Requesting? && RequestStep(s, s.socket.request, s.socket.requesting, c) == t
    ensures t.wire.stop == s.wire.stop && t.fence == s.fence && t.sessions == s.sessions && !BeingMade(t.socket)
  {
  }

  lemma ResetKeepsSilent(s: State, n: nat, c: Choice, t: State)
    requires Silent(s, n) && s.socket.Resetting? && ResetStep(s, s.socket.resetting, s.socket.next, c) == Some(t)
    ensures Silent(t, n)
  {
  }

  lemma PacketsKeepSilent(s: State, n: nat, c: Choice, t: State)
    requires Silent(s, n) && (s.socket.Receive? || s.socket.Acking?) && SocketStep(s, c) == Some(t)
    ensures Silent(t, n)
  {
    hide BetweenStep, OpenStep, RequestStep, ResetStep;
  }

  lemma SocketKeepsSilent(s: State, n: nat, c: Choice, t: State)
    requires Silent(s, n) && SocketStep(s, c) == Some(t)
    ensures Silent(t, n)
  {
    hide ReceiveStep, RequestStep, AckStep, ResetStep;
    match s.socket
    case Requesting(_, _) => RequestKeepsRest(s, c, t);
    case Resetting(_, _) => ResetKeepsSilent(s, n, c, t);
    case Receive => PacketsKeepSilent(s, n, c, t);
    case Acking(_, _) => PacketsKeepSilent(s, n, c, t);
    case _ =>
  }

  lemma OthersKeepSilent(s: State, n: nat, a: Action, t: State)
    requires Silent(s, n) && Step(s, a) == Some(t) && !a.ByPresent? && !a.ByFence? && !a.BySocket?
    ensures Silent(t, n)
  {
  }

  lemma StepKeepsSilent(s: State, n: nat, a: Action, t: State)
    requires Silent(s, n) && Step(s, a) == Some(t)
    ensures Silent(t, n)
  {
    hide PresentStep, FenceStep, SocketStep, DisableStep, RetireStep, GpuStep, ConsumerStep;
    match a
    case ByPresent(c) =>
      PresentKeepsReadys(s, n, c, t);
      PresentKeepsStop(s, c, t);
    case ByFence(c) => FenceKeepsSilent(s, n, c, t);
    case BySocket(c) => SocketKeepsSilent(s, n, c, t);
    case _ => OthersKeepSilent(s, n, a, t);
  }

  lemma {:induction false} RunKeepsSilent(actions: seq<Action>, more: seq<Action>, n: nat)
    requires Run(actions).Some? && Silent(Run(actions).value, n) && Run(actions + more).Some?
    ensures Silent(Run(actions + more).value, n)
  {
    hide Step, Silent;
    if more == [] {
      assert actions + more == actions;
    } else {
      var m := |more| - 1;
      assert (actions + more)[..|actions| + m] == actions + more[..m];
      RunKeepsSilent(actions, more[..m], n);
      StepKeepsSilent(Run(actions + more[..m]).value, n, more[m], Run(actions + more).value);
    }
  }

  // ---------------------------------------------------------------- a call that carries a request over

  // While a connection is being made and a call is under way, only `disable` has closed the socket.
  predicate OpenedForCall(s: State) {
    BeingMade(s.socket) && Carrying(s.present) && !s.wire.stop ==> s.wire.open
  }

  predicate BeingMade(pc: SocketPc) {
    (pc.Between? && Connecting(pc.between)) || pc == Opening(StoreDisconnected)
  }

  lemma StepKeepsOpened(s: State, a: Action, t: State)
    requires SocketThreadOk(s) && NeverRecreates(s) && OpenedForCall(s) && Step(s, a) == Some(t)
    ensures OpenedForCall(t)
  {
    match a
    case ByPresent(c) => PresentKeepsOpened(s, c, t);
    case ByFence(c) =>
    case BySocket(c) => SocketKeepsOpened(s, c, t);
    case _ =>
  }

  lemma PresentKeepsOpened(s: State, c: Choice, t: State)
    requires SocketThreadOk(s) && OpenedForCall(s) && PresentStep(s, c) == Some(t)
    ensures OpenedForCall(t)
  {
    hide TakeStep, EnterStep, ExchangeStep, PrepareStep, PublishStep, CallStep, LeaveStep;
    if s.present.Entering? {
      EnterKeepsOpened(s, c, t);
    } else if s.present.Preparing? || s.present.Publishing? {
      CaptureKeepsOpened(s, c, t);
    } else {
      RestKeepsOpened(s, c, t);
    }
  }

  lemma EnterKeepsOpened(s: State, c: Choice, t: State)
    requires OpenedForCall(s) && s.present.Entering? && EnterStep(s, s.present.entering, c) == Some(t)
    ensures OpenedForCall(t)
  {
  }

  lemma CaptureKeepsOpened(s: State, c: Choice, t: State)
    requires OpenedForCall(s) && PresentStep(s, c) == Some(t)
    requires s.present.Preparing? || s.present.Publishing?
    ensures OpenedForCall(t)
  {
    hide TakeStep, EnterStep, ExchangeStep, CallStep, LeaveStep;
  }

  lemma RestKeepsOpened(s: State, c: Choice, t: State)
    requires SocketThreadOk(s) && OpenedForCall(s) && PresentStep(s, c) == Some(t)
    requires s.present.Outside? || s.present.Exchange? || s.present.Presenting? || s.present.Leaving?
    ensures OpenedForCall(t)
  {
    hide EnterStep, PrepareStep, PublishStep;
  }

  lemma SocketKeepsOpened(s: State, c: Choice, t: State)
    requires OpenedForCall(s) && NeverRecreates(s) && SocketStep(s, c) == Some(t)
    ensures OpenedForCall(t)
  {
    hide RequestStep;
    if s.socket.Requesting? {
      RequestKeepsRest(s, c, t);
    }
  }

  lemma {:induction false} RunKeepsOpened(actions: seq<Action>)
    requires Run(actions).Some?
    ensures OpenedForCall(Run(actions).value)
  {
    hide Step, OpenedForCall, NeverRecreates, Inv;
    if actions == [] {
      assert OpenedForCall(INITIAL) by { InitialOpened(); }
    } else {
      var before := actions[..|actions| - 1];
      RunKeepsOpened(before);
      RunInv(before);
      RunNeverRecreates(before);
      assert SocketThreadOk(Run(before).value) by { InvSocket(Run(before).value); }
      StepKeepsOpened(Run(before).value, actions[|actions| - 1], Run(actions).value);
    }
  }

  lemma InvSocket(s: State)
    requires Inv(s)
    ensures SocketThreadOk(s)
  {
  }

  lemma InitialOpened()
    ensures OpenedForCall(INITIAL)
  {
  }

  // No REQUEST has been stored, and none read, since the connection was opened.
  lemma {:induction false} NothingStoredYet(actions: seq<Action>)
    requires Run(actions).Some? && Run(actions).value.socket.Opening?
    ensures !TrailOf(actions).stored && !TrailOf(actions).read
  {
    if actions != [] {
      var before := actions[..|actions| - 1];
      var a := actions[|actions| - 1];
      hide Run, Step;
      OpeningBefore(Run(before).value, a, Run(actions).value);
      if Run(before).value.socket.Opening? {
        NothingStoredYet(before);
      }
    }
  }

  lemma OpeningBefore(s: State, a: Action, t: State)
    requires Step(s, a) == Some(t) && t.socket.Opening?
    ensures s.socket.Opening? || (a.BySocket? && |s.sessions| < |t.sessions|)
  {
  }

  ghost predicate LeadsTo(actions: seq<Action>, t: State) {
    exists more :: Run(actions + more) == Some(t)
  }

  lemma Go(actions: seq<Action>, s: State, a: Action) returns (t: State)
    requires LeadsTo(actions, s) && Step(s, a).Some?
    ensures LeadsTo(actions, t) && Step(s, a) == Some(t)
  {
    hide Step;
    var more :| Run(actions + more) == Some(s);
    assert (actions + (more + [a]))[..|actions + more|] == actions + more;
    assert Run(actions + (more + [a])) == Step(s, a);
    t := Step(s, a).value;
  }

  // What the present, fence and GPU steps below leave of connection `n`.
  predicate SameChannel(s: State, t: State, n: nat) {
    && |t.sessions| == |s.sessions| && t.socket == s.socket && t.wire.pending == s.wire.pending
    && (0 < n <= |s.sessions| ==>
          && t.sessions[n - 1].toProducer == s.sessions[n - 1].toProducer
          && t.sessions[n - 1].toConsumer == s.sessions[n - 1].toConsumer
          && t.sessions[n - 1].reader == s.sessions[n - 1].reader)
  }

  // Connection `n` holds the image and has not been closed or stopped.
  predicate Connected(s: State, n: nat) {
    n == |s.sessions| && n > 0 && s.wire.open && !s.wire.stop && s.control.hasImage
  }

  // The present call answers `tag`, at the lock, while connection `n` is being opened.
  predicate AtTheLock(s: State, n: nat, tag: Tag) {
    Connected(s, n) && s.socket == Opening(StoreDisconnected) && s.present == Exchange && s.job.call.tag == tag
  }

  // A present call that answers `tag` is on its way to the lock.
  predicate Approaching(s: State, n: nat, tag: Tag) {
    && Connected(s, n)
    && (if s.present == Entering(Taken) then s.wire.pendingTag == tag else s.job.call.tag == tag)
    && ((s.present.Entering? && !s.present.entering.Refusing? && s.control.lock.Nobody?) || s.present.Exchange?)
  }

  lemma CallReachesLock(actions: seq<Action>, s: State, n: nat, tag: Tag) returns (t: State)
    requires LeadsTo(actions, s) && Approaching(s, n, tag)
    ensures LeadsTo(actions, t) && Connected(t, n) && t.present == Exchange && t.job.call.tag == tag
    ensures SameChannel(s, t, n) && t.fence == s.fence && t.control.phase == s.control.phase
    decreases if s.present.Exchange? then 0 else if s.present.entering.LockWait? then 1
              else if s.present.entering.FenceCheck? then 2 else 3
  {
    if s.present.Exchange? {
      t := s;
    } else {
      t := Go(actions, s, ByPresent(Proceed));
      t := CallReachesLock(actions, t, n, tag);
    }
  }

  // The same call with the connection open.
  predicate AtExchange(s: State, n: nat, tag: Tag) {
    && Connected(s, n) && s.control.phase.Idle? && s.present == Exchange && s.fence == Looking(CheckStop)
    && s.job.call.tag == tag
  }

  lemma ConnectionOpens(actions: seq<Action>, s: State, n: nat, tag: Tag) returns (t: State)
    requires LeadsTo(actions, s) && AtTheLock(s, n, tag)
    ensures LeadsTo(actions, t) && AtExchange(t, n, tag)
  {
    var go := BySocket(Proceed);
    hide BetweenStep, ReceiveStep, RequestStep, AckStep, ResetStep;
    t := Go(actions, s, go);
    t := Go(actions, t, go);
    t := Go(actions, t, go);
    t := Go(actions, t, go);
    t := Go(actions, t, go);
  }

  // The call has submitted its copy into the image of connection `n` and not yet published it.
  predicate AtPublishing(s: State, n: nat, tag: Tag) {
    && Connected(s, n) && s.present == Publishing(MarkInFlight) && s.fence == Looking(CheckStop)
    && s.job.call.tag == tag && s.sessions[n - 1].copy.Queued? && s.sessions[n - 1].copy.frame == tag.sequence
  }

  lemma CallCaptures(actions: seq<Action>, s: State, n: nat, tag: Tag) returns (t: State)
    requires LeadsTo(actions, s) && AtExchange(s, n, tag)
    ensures LeadsTo(actions, t) && AtPublishing(t, n, tag) && SameChannel(s, t, n)
  {
    var go := ByPresent(Proceed);
    hide TakeStep, EnterStep, PublishStep, CallStep, LeaveStep;
    t := Go(actions, s, go);
    t := Go(actions, t, go);
    t := Go(actions, t, go);
    t := Go(actions, t, go);
    t := Go(actions, t, go);
  }

  // The capture has been presented and waits for the fence thread.
  predicate AtPresented(s: State, n: nat, tag: Tag) {
    && Connected(s, n) && s.control.phase.Submitted? && s.fence == Looking(CheckStop)
    && s.job.submitted == tag && s.job.outcome == 1 && s.present == Leaving(Returning)
    && s.sessions[n - 1].copy.Queued? && s.sessions[n - 1].copy.frame == tag.sequence
  }

  lemma CallPresents(actions: seq<Action>, s: State, n: nat, tag: Tag) returns (t: State)
    requires LeadsTo(actions, s) && AtPublishing(s, n, tag)
    ensures LeadsTo(actions, t) && AtPresented(t, n, tag) && SameChannel(s, t, n)
  {
    var go := ByPresent(Proceed);
    hide TakeStep, EnterStep, ExchangeStep, PrepareStep, LeaveStep;
    t := Go(actions, s, go);
    t := Go(actions, t, go);
    t := Go(actions, t, go);
    t := Go(actions, t, go);
    t := Go(actions, t, go);
    t := Go(actions, t, ByPresent(Presented(true, NoFence)));
    t := Go(actions, t, go);
  }

  // Its copy has completed as well, and the image shows the capture.
  predicate AtSignal(s: State, n: nat, tag: Tag) {
    && Connected(s, n) && s.control.phase.Submitted? && s.fence == Looking(CheckStop)
    && s.job.submitted == tag && s.job.outcome == 1 && s.present == Leaving(Returning) && s.job.fenceSignaled
    && s.sessions[n - 1].copy.NoCopy? && s.sessions[n - 1].content == Some(tag.sequence)
  }

  lemma CopyCompletes(actions: seq<Action>, s: State, n: nat, tag: Tag) returns (t: State)
    requires LeadsTo(actions, s) && AtPresented(s, n, tag)
    ensures LeadsTo(actions, t) && AtSignal(t, n, tag) && SameChannel(s, t, n)
  {
    t := Go(actions, s, ByGpu(n - 1));
    t := Go(actions, t, ByGpu(n - 1));
  }

  // READY has been sent for the capture, whose call is about to return.
  predicate AtReady(s: State, n: nat, tag: Tag) {
    && Connected(s, n) && s.control.phase.AwaitingAck? && s.fence == Looking(CheckStop)
    && s.job.submitted == tag && s.present == Leaving(Returning)
    && tag in s.sessions[n - 1].toConsumer && s.sessions[n - 1].content == Some(tag.sequence)
  }

  lemma ReadyIsSent(actions: seq<Action>, s: State, n: nat, tag: Tag) returns (t: State)
    requires LeadsTo(actions, s) && AtSignal(s, n, tag)
    ensures LeadsTo(actions, t) && AtReady(t, n, tag)
    ensures t.socket == s.socket && t.wire.pending == s.wire.pending
    ensures t.sessions[n - 1].toProducer == s.sessions[n - 1].toProducer
    ensures t.sessions[n - 1].toConsumer == s.sessions[n - 1].toConsumer + [tag]
    ensures t.sessions[n - 1].reader == s.sessions[n - 1].reader
    ensures t.sessions[n - 1].copy.NoCopy?
  {
    var go := ByFence(Proceed);
    t := Go(actions, s, go);
    t := Go(actions, t, go);
    t := Go(actions, t, go);
    t := Go(actions, t, go);
    t := Go(actions, t, go);
    t := Go(actions, t, go);
    t := Go(actions, t, go);
  }

  lemma CarryingAtOpening(s: State)
    requires Inv(s) && s.socket == Opening(StoreDisconnected) && Carrying(s.present)
    ensures s.sessions != [] && s.control.hasImage
    ensures s.present.Exchange? || (s.present.Entering? && !s.present.entering.Refusing? && s.control.lock.Nobody?)
  {
    hide Pixels, Provenance, Accounts;
  }

  lemma OpensWithCall(actions: seq<Action>) returns (tag: Tag)
    requires Run(actions).Some? && Run(actions).value.socket == Opening(StoreDisconnected)
    requires !Run(actions).value.wire.stop && Carrying(Run(actions).value.present)
    ensures tag.origin < |Run(actions).value.sessions|
    ensures Approaching(Run(actions).value, |Run(actions).value.sessions|, tag)
  {
    var s := Run(actions).value;
    tag := if s.present == Entering(Taken) then s.wire.pendingTag else s.job.call.tag;
    hide Run, TrailOf, Inv;
    RunInv(actions);
    RunKeepsOpened(actions);
    RunTraced(actions);
    NothingStoredYet(actions);
    CarryingAtOpening(Run(actions).value);
  }

  lemma CarriedOver(actions: seq<Action>) returns (t: State)
    requires Run(actions).Some? && Run(actions).value.socket == Opening(StoreDisconnected)
    requires !Run(actions).value.wire.stop && Carrying(Run(actions).value.present)
    ensures LeadsTo(actions, t) && !AnswersItself(t, |Run(actions).value.sessions|)
  {
    var s := Run(actions).value;
    var n := |s.sessions|;
    assert actions + [] == actions;
    assert LeadsTo(actions, s);
    var tag := OpensWithCall(actions);
    hide Run, Carrying, LeadsTo, Approaching, AtExchange, AtPublishing, AtPresented, AtSignal;
    t := CallReachesLock(actions, s, n, tag);
    t := ConnectionOpens(actions, t, n, tag);
    t := CallCaptures(actions, t, n, tag);
    t := CallPresents(actions, t, n, tag);
    t := CopyCompletes(actions, t, n, tag);
    t := ReadyIsSent(actions, t, n, tag);
  }

  /** When a connection has just been opened, every READY it is ever sent answers one of its own REQUESTs, exactly when
      the layer has been stopped or no present call that took an earlier request may still capture. */
  lemma ConnectionAnswersItselfExactly(actions: seq<Action>)
    requires Run(actions).Some? && Run(actions).value.socket == Opening(StoreDisconnected)
    ensures
      var s := Run(actions).value;
      (forall more | Run(actions + more).Some? :: AnswersItself(Run(actions + more).value, |s.sessions|))
      <==> s.wire.stop || !Carrying(s.present)
  {
    var s := Run(actions).value;
    var n := |s.sessions|;
    RunInv(actions);
    hide Run, Inv, Step, Own, Silent, AnswersItself, Carrying;
    if s.wire.stop {
      OpenedSilent(s);
      forall more | Run(actions + more).Some? ensures AnswersItself(Run(actions + more).value, n) {
        RunKeepsSilent(actions, more, n);
        SilentAnswersItself(Run(actions + more).value, n);
      }
    } else if !Carrying(s.present) {
      OpenedOwn(s);
      forall more | Run(actions + more).Some? ensures AnswersItself(Run(actions + more).value, n) {
        RunKeepsOwn(actions, more, n);
        OwnAnswersItself(Run(actions + more).value, n);
      }
    } else {
      var t := CarriedOver(actions);
      var more :| Run(actions + more) == Some(t);
      assert !AnswersItself(Run(actions + more).value, n);
    }
  }

  lemma SilentAnswersItself(s: State, n: nat)
    requires Silent(s, n)
    ensures AnswersItself(s, n)
  {
  }

  lemma OwnAnswersItself(s: State, n: nat)
    requires Own(s, n)
    ensures AnswersItself(s, n)
  {
  }
}
