// A connection at rest serves any request: the protocol is not only safe, it can always take the next capture.
module CaptureService {
  import opened Common
  import opened CaptureProtocol
  import opened CaptureInvariant
  import opened CaptureSafety
  import opened CaptureCarryOver

  // Connection `n` is being served and nothing of an earlier request is left: no call, no packet, no copy.
  predicate AtRest(s: State, n: nat) {
    && Connected(s, n) && s.control.phase.Idle? && s.control.lock.Nobody? && !s.wire.pending
    && s.present == Outside && s.fence == Looking(CheckStop) && s.socket == Receive
    && s.sessions[n - 1].reader.Waiting? && s.sessions[n - 1].toConsumer == [] && s.sessions[n - 1].toProducer == []
  }

  // The request `tag` of connection `n` waits for a present.
  predicate AtTake(s: State, n: nat, tag: Tag) {
    && Connected(s, n) && s.control.phase.Idle? && s.control.lock.Nobody?
    && s.wire.pending && s.wire.pendingTag == tag
    && s.present == Outside && s.fence == Looking(CheckStop) && s.socket == Receive
    && s.sessions[n - 1].reader.Waiting? && s.sessions[n - 1].toConsumer == [] && s.sessions[n - 1].toProducer == []
  }

  lemma RequestIsStored(actions: seq<Action>, s: State, n: nat, q: nat) returns (t: State)
    requires LeadsTo(actions, s) && AtRest(s, n)
    ensures LeadsTo(actions, t) && AtTake(t, n, Tag(q, n))
  {
    var go := BySocket(Proceed);
    hide LeadsTo, BetweenStep, OpenStep, AckStep, ResetStep;
    t := Go(actions, s, ByConsumer(n - 1, SendRequest(q)));
    t := Go(actions, t, go);
    t := Go(actions, t, go);
    t := Go(actions, t, go);
    t := Go(actions, t, go);
    t := Go(actions, t, go);
  }

  lemma RequestIsTaken(actions: seq<Action>, s: State, n: nat, tag: Tag) returns (t: State)
    requires LeadsTo(actions, s) && AtTake(s, n, tag)
    ensures LeadsTo(actions, t) && Approaching(t, n, tag) && SameChannel(s.(wire := t.wire), t, n)
    ensures t.fence == s.fence && t.control.phase == s.control.phase && !t.wire.pending
  {
    hide LeadsTo;
    t := Go(actions, s, ByPresent(Proceed));
  }

  // READY for `tag` is all that is on its way, and nothing else is under way but the return of the present call.
  predicate Answered(s: State, n: nat, tag: Tag) {
    && AtReady(s, n, tag) && !s.wire.pending && s.socket == Receive && s.sessions[n - 1].reader.Waiting?
    && s.sessions[n - 1].toConsumer == [tag] && s.sessions[n - 1].toProducer == []
  }

  lemma CallAnswers(actions: seq<Action>, s: State, n: nat, tag: Tag) returns (t: State)
    requires LeadsTo(actions, s) && AtTake(s, n, tag)
    ensures LeadsTo(actions, t) && Answered(t, n, tag)
  {
    assert Connected(s, n);
    hide LeadsTo, AtPublishing, AtPresented, AtSignal, Step;
    t := RequestIsTaken(actions, s, n, tag);
    t := CallReachesLock(actions, t, n, tag);
    assert AtExchange(t, n, tag);
    hide Approaching, AtExchange;
    t := CallCaptures(actions, t, n, tag);
    t := CallPresents(actions, t, n, tag);
    t := CopyCompletes(actions, t, n, tag);
    assert SameChannel(s.(wire := t.wire), t, n);
    t := ReadyIsSent(actions, t, n, tag);
  }

  // The consumer has read the image and acknowledged it, and the call has returned.
  predicate AtAck(s: State, n: nat, tag: Tag) {
    && Connected(s, n) && s.control.phase.AwaitingAck? && s.control.lock.Nobody?
    && s.fence == Looking(CheckStop) && s.socket == Receive && s.job.submitted == tag && s.present == Outside
    && s.sessions[n - 1].reader.Waiting? && s.sessions[n - 1].content == Some(tag.sequence)
    && s.sessions[n - 1].toConsumer == [] && s.sessions[n - 1].toProducer == [Ack(tag.sequence)]
  }

  lemma ConsumerAcknowledges(actions: seq<Action>, s: State, n: nat, tag: Tag) returns (t: State)
    requires LeadsTo(actions, s) && Answered(s, n, tag)
    ensures LeadsTo(actions, t) && AtAck(t, n, tag) && t.wire.pending == s.wire.pending
  {
    hide LeadsTo;
    t := Go(actions, s, ByPresent(Proceed));
    t := Go(actions, t, ByConsumer(n - 1, TakeReady));
    t := Go(actions, t, ByConsumer(n - 1, BeginRead));
    t := Go(actions, t, ByConsumer(n - 1, EndRead));
    t := Go(actions, t, ByConsumer(n - 1, SendAck));
  }

  lemma AckIsHandled(actions: seq<Action>, s: State, n: nat, tag: Tag) returns (t: State)
    requires LeadsTo(actions, s) && AtAck(s, n, tag) && !s.wire.pending
    ensures LeadsTo(actions, t) && AtRest(t, n) && t.sessions[n - 1].content == Some(tag.sequence)
  {
    var go := BySocket(Proceed);
    hide LeadsTo, BetweenStep, OpenStep, RequestStep, ResetStep;
    t := Go(actions, s, go);
    t := Go(actions, t, go);
    t := Go(actions, t, go);
    t := Go(actions, t, go);
  }

  // A run that serves the request: at its point `ready` READY is on its way for this very request, with its pixels
  // in the image, and at its end the consumer has read them and the connection is at rest again.
  ghost predicate Serves(actions: seq<Action>, n: nat, q: nat, ready: seq<Action>, rest: seq<Action>) {
    var handed, done := Run(actions + ready), Run(actions + ready + rest);
    && handed.Some? && Answered(handed.value, n, Tag(q, n))
    && done.Some? && AtRest(done.value, n) && done.value.sessions[n - 1].content == Some(q)
  }

  /** Whatever has happened before, a connection at rest can serve any request: some continuation sends READY for it
      and, once the consumer has read the image and acknowledged it, is at rest again, so the next one can follow. */
  lemma RequestIsServed(actions: seq<Action>, q: nat)
    requires Run(actions).Some? && AtRest(Run(actions).value, |Run(actions).value.sessions|)
    ensures exists ready, rest :: Serves(actions, |Run(actions).value.sessions|, q, ready, rest)
  {
    var s := Run(actions).value;
    var n := |s.sessions|;
    hide Run, AtRest, AtTake, Answered, AtAck;
    assert actions + [] == actions && LeadsTo(actions, s);
    var t := RequestIsStored(actions, s, n, q);
    t := CallAnswers(actions, t, n, Tag(q, n));
    var ready :| Run(actions + ready) == Some(t);
    assert actions + ready + [] == actions + ready && LeadsTo(actions + ready, t);
    var done := CallIsOver(actions + ready, t, n, Tag(q, n));
    var rest :| Run(actions + ready + rest) == Some(done);
    assert Serves(actions, n, q, ready, rest);
  }

  lemma CallIsOver(actions: seq<Action>, s: State, n: nat, tag: Tag) returns (t: State)
    requires LeadsTo(actions, s) && Answered(s, n, tag)
    ensures LeadsTo(actions, t) && AtRest(t, n) && t.sessions[n - 1].content == Some(tag.sequence)
  {
    assert !s.wire.pending;
    hide LeadsTo, Answered, AtAck, AtRest;
    t := ConsumerAcknowledges(actions, s, n, tag);
    t := AckIsHandled(actions, t, n, tag);
  }

  // Between two connections, with no present call under way and no stop.
  predicate AtTop(s: State) {
    && s.socket == Between(Top) && s.present == Outside && !s.wire.stop
    && !s.control.hasImage && !s.wire.pending && s.control.lock.Nobody?
  }

  lemma TopIsFree(s: State)
    requires Inv(s) && s.socket == Between(Top) && s.present == Outside && !s.wire.stop
    ensures AtTop(s)
  {
    hide Pixels, Provenance, Accounts;
  }

  lemma ConnectionIsOpened(actions: seq<Action>, s: State) returns (t: State)
    requires LeadsTo(actions, s) && AtTop(s)
    ensures LeadsTo(actions, t) && AtRest(t, |s.sessions| + 1) && t.seen.deviceLost == s.seen.deviceLost
  {
    var go := BySocket(Proceed);
    hide LeadsTo, ReceiveStep, RequestStep, AckStep, ResetStep;
    t := Go(actions, s, go);
    t := Go(actions, t, go);
    t := Go(actions, t, go);
    t := Go(actions, t, go);
    t := Go(actions, t, go);
    t := Go(actions, t, go);
    t := Go(actions, t, go);
    t := Go(actions, t, go);
    t := Go(actions, t, go);
  }

  // The connection after the first `n` is at rest.
  ghost predicate ComesToRest(actions: seq<Action>, more: seq<Action>, n: nat) {
    Run(actions + more).Some? && AtRest(Run(actions + more).value, n + 1)
  }

  /** Between two connections, with no present call under way and no stop, the next connection can come to rest. */
  lemma ConnectionComesToRest(actions: seq<Action>)
    requires Run(actions).Some? && Run(actions).value.socket == Between(Top)
    requires Run(actions).value.present == Outside && !Run(actions).value.wire.stop
    ensures exists more :: ComesToRest(actions, more, |Run(actions).value.sessions|)
  {
    var s := Run(actions).value;
    RunInv(actions);
    TopIsFree(s);
    hide Run, Inv, AtRest, AtTop;
    assert actions + [] == actions && LeadsTo(actions, s);
    var t := ConnectionIsOpened(actions, s);
    var more :| Run(actions + more) == Some(t);
    assert ComesToRest(actions, more, |s.sessions|);
  }
}
