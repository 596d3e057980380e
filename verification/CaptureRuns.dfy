// Runs that show what the capture hand-off does not promise.
module CaptureRuns {
  import opened Common
  import opened CaptureProtocol
  import opened CaptureCarryOver

  ghost predicate Reachable(s: State) {
    exists actions :: Run(actions) == Some(s)
  }

  lemma Reach(s: State, a: Action) returns (t: State)
    requires Reachable(s) && Step(s, a).Some?
    ensures Reachable(t) && Step(s, a) == Some(t)
  {
    hide Step;
    var actions :| Run(actions) == Some(s);
    assert (actions + [a])[..|actions|] == actions;
    assert Run(actions + [a]) == Step(s, a);
    t := Step(s, a).value;
  }

  lemma InitialReachable()
    ensures Reachable(INITIAL)
  {
    assert Run([]) == Some(INITIAL);
  }

  // The state `s` with one more open connection, whose image is fresh, waiting for its first packet.
  function Connected(s: State): State {
    s.(control := Control(Idle, Free, s.control.lock, true, s.control.firstExport),
       wire := s.wire.(open := true),
       job := s.job.(call := s.job.call.(late := !s.present.Outside?)),
       fence := Looking(CheckStop),
       socket := Receive,
       counts := NO_COUNTS,
       sessions := s.sessions + [FRESH_SESSION],
       seen := s.seen.(clearedDuringCall := !s.present.Outside?))
  }

  lemma ConnectedReachable(s: State)
    requires Reachable(s) && s.socket == Between(Top) && !s.wire.stop && !s.control.hasImage && s.control.stage.Free?
    ensures Reachable(Connected(s))
  {
    var go := BySocket(Proceed);
    var t := Reach(s, go);
    t := Reach(t, go);
    t := Reach(t, go);
    t := Reach(t, go);
    assert t == s.(wire := s.wire.(open := true), control := s.control.(hasImage := true),
                   sessions := s.sessions + [FRESH_SESSION], socket := Opening(StoreDisconnected));
    t := Reach(t, go);
    t := Reach(t, go);
    t := Reach(t, go);
    t := Reach(t, go);
    t := Reach(t, go);
  }

  // The first connection has received REQUEST 7 and a present call has taken it, without having read its number.
  const ASKED := Connected(INITIAL).(
    job := INITIAL.job.(call := Call(Tag(0, 0), ProducerAcquire(true), false)),
    wire := Wire(false, true, false, Tag(7, 1)),
    present := Entering(Taken),
    counts := NO_COUNTS.(requests := 1),
    seen := INITIAL.seen.(asked := {Tag(7, 1)}))

  lemma AskedReachable()
    ensures Reachable(ASKED)
  {
    InitialReachable();
    ConnectedReachable(INITIAL);
    var s := Connected(INITIAL);
    assert s.sessions == [FRESH_SESSION];
    var t := Reach(s, ByConsumer(0, SendRequest(7)));
    var asked := t.sessions[0];
    assert asked == FRESH_SESSION.(toProducer := [] + [Request(7)]) && t.sessions == [asked];
    assert asked.toProducer == [Request(7)] && asked.toProducer[1..] == [];
    t := Reach(t, BySocket(Proceed));
    assert t.sessions == [FRESH_SESSION] && t.seen.asked == {Tag(7, 1)};
    t := Reach(t, BySocket(Proceed));
    t := Reach(t, BySocket(Proceed));
    t := Reach(t, BySocket(Proceed));
    t := Reach(t, BySocket(Proceed));
    assert t.wire == Wire(false, true, true, Tag(7, 1)) && t.socket.Receive?;
    t := Reach(t, ByPresent(Proceed));
    assert t == ASKED;
  }

  // The call has read the number and waits for the lock.
  const TAKEN := ASKED.(
    job := INITIAL.job.(call := Call(Tag(7, 1), ProducerAcquire(true), false)),
    present := Entering(LockWait))

  lemma TakenReachable()
    ensures Reachable(TAKEN)
  {
    AskedReachable();
    var t := Reach(ASKED, ByPresent(Proceed));
    t := Reach(t, ByPresent(Proceed));
    assert t == TAKEN;
  }

  // `disabled` does not absorb: after `disable` has stored it, an error in the present thread stores `idle`.  The
  // other stores that overwrite it are those of CaptureDisabled.StoreDecided.
  lemma DisabledIsOverwritten()
    ensures exists s, t, c ::
      Reachable(s) && s.wire.stop && s.control.phase.Disabled? && PresentStep(s, c) == Some(t) && t.control.phase.Idle?
  {
    TakenReachable();
    var t := Reach(TAKEN, ByPresent(Proceed));
    t := Reach(t, ByPresent(Proceed));
    t := Reach(t, ByDisable(StopFlag));
    var s := Reach(t, ByDisable(StopPhase));
    t := Reach(s, ByPresent(Error));
    assert PresentStep(s, Error) == Some(t);
  }

  // The first connection of `s` has ended and its image is gone, whatever the present call is doing.
  function Ended(s: State): State {
    s.(control := INITIAL.control, wire := s.wire.(open := false), fence := NotRunning, socket := Between(Top))
  }

  lemma EndedReachable(s: State)
    requires Reachable(s) && (s == TAKEN || s == ASKED)
    ensures Reachable(Ended(s))
  {
    var t := Closing(s);
    t := Reach(t, ByFence(Proceed));
    t := Reach(t, ByFence(Proceed));
    t := Reach(t, BySocket(Proceed));
    t := Reach(t, BySocket(Proceed));
    t := Reach(t, BySocket(Proceed));
    t := Reach(t, BySocket(Proceed));
    assert t == Ended(s);
  }

  lemma Closing(s: State) returns (t: State)
    requires Reachable(s) && (s == TAKEN || s == ASKED)
    ensures Reachable(t)
    ensures t == s.(control := Control(Disabled, Free, SocketThread, true, true), wire := s.wire.(open := false),
                    socket := Resetting(Join, ToAfterwards))
  {
    t := Reach(s, BySocket(Error));
    t := Reach(t, BySocket(Proceed));
    t := Reach(t, BySocket(Proceed));
    t := Reach(t, BySocket(Proceed));
    t := Reach(t, BySocket(Proceed));
  }

  // The second connection is open while the call that took the request of the first still waits for the lock.
  const RECONNECTED := Connected(Ended(TAKEN))

  lemma ReconnectedReachable()
    ensures Reachable(RECONNECTED)
  {
    TakenReachable();
    EndedReachable(TAKEN);
    ConnectedReachable(Ended(TAKEN));
  }

  // That call then captures into the new image, and the second connection is sent a READY for REQUEST 7, which only
  // the first one asked for.
  lemma ReadyMayAnswerAnEarlierConnection()
    ensures exists s :: Reachable(s) && |s.sessions| == 2 && s.sessions[1].toConsumer == [Tag(7, 1)]
                        && Tag(7, 2) !in s.seen.asked
  {
    ReconnectedReachable();
    var t := Captured();
    t := Reach(t, ByPresent(Presented(true, NoFence)));
    t := Reach(t, ByPresent(Proceed));
    t := Reach(t, ByFence(Proceed));
    t := Reach(t, ByFence(Proceed));
    t := Reach(t, ByFence(Proceed));
    t := Reach(t, ByFence(Proceed));
    t := Reach(t, ByFence(Proceed));
    t := Reach(t, ByFence(Proceed));
    t := Reach(t, ByFence(Proceed));
    assert t.sessions[1].toConsumer == [Tag(7, 1)];
  }

  lemma Recorded() returns (t: State)
    ensures Reachable(t) && |t.sessions| == 2 && t.sessions[1].toConsumer == [] && t.seen.asked == {Tag(7, 1)}
    ensures t.sessions[1].copy.Queued? && t.control.hasImage && !t.job.fenceSignaled
    ensures t.present == Publishing(MarkInFlight) && t.fence == Looking(CheckStop)
    ensures t.job.call.tag == Tag(7, 1) && t.wire.open && !t.wire.stop
  {
    ReconnectedReachable();
    t := Reach(RECONNECTED, ByPresent(Proceed));
    t := Reach(t, ByPresent(Proceed));
    t := Reach(t, ByPresent(Proceed));
    t := Reach(t, ByPresent(Proceed));
    t := Reach(t, ByPresent(Proceed));
    t := Reach(t, ByPresent(Proceed));
    assert |t.sessions| == 2 && t.sessions[1].copy.Queued? && t.sessions[1].toConsumer == [];
  }

  lemma Captured() returns (t: State)
    ensures Reachable(t) && |t.sessions| == 2 && t.sessions[1].toConsumer == [] && t.seen.asked == {Tag(7, 1)}
    ensures t.present == Presenting(Calling) && t.fence == Looking(CheckStop) && t.control.phase.Submitted?
    ensures t.job.fenceSignaled && t.job.submitted == Tag(7, 1) && t.wire.open && !t.wire.stop
  {
    t := Recorded();
    t := Reach(t, ByPresent(Proceed));
    t := Reach(t, ByPresent(Proceed));
    t := Reach(t, ByPresent(Proceed));
    t := Reach(t, ByPresent(Proceed));
    t := Reach(t, ByPresent(Proceed));
    t := Reach(t, ByGpu(1));
    t := Reach(t, ByGpu(1));
  }

  // It does not help that the call reads the number only after the second connection was opened: until that one has
  // stored a number of its own, there is only the old one to read.
  lemma LateReadMayAnswerAnEarlierConnection()
    ensures exists actions, more ::
      && Run(actions).Some? && Run(actions).value.socket == Opening(StoreDisconnected)
      && Run(actions).value.present == Entering(Taken) && |Run(actions).value.sessions| == 2
      && Run(actions + more).Some? && !AnswersItself(Run(actions + more).value, 2)
  {
    AskedReachable();
    EndedReachable(ASKED);
    var t := Reach(Ended(ASKED), BySocket(Proceed));
    t := Reach(t, BySocket(Proceed));
    t := Reach(t, BySocket(Proceed));
    t := Reach(t, BySocket(Proceed));
    assert t.socket == Opening(StoreDisconnected) && t.present == Entering(Taken) && !t.wire.stop;
    assert |t.sessions| == 2;
    hide Run, Step, AnswersItself;
    var actions :| Run(actions) == Some(t);
    var u := CarriedOver(actions);
    var more :| Run(actions + more) == Some(u);
    assert Run(actions).Some? && Run(actions + more).Some?;
  }
}
