// Which connection a READY answers: exactly when it is the one it is sent on, and which connections can be sent a
// READY that answers an earlier one.
module CaptureAnswers {
  import opened Common
  import opened CaptureProtocol
  import opened CaptureInvariant
  import opened CaptureSafety

  // ---------------------------------------------------------------- one READY

  // What has happened to the request number since the current connection's image was made: the socket thread has
  // stored one, the present thread last read it after that, and the last submission stored a number so read.
  datatype Trail = Trail(stored: bool, read: bool, sent: bool)

  function NextTrail(w: Trail, s: State, a: Action, t: State): Trail {
    if |s.sessions| < |t.sessions| then Trail(false, false, false)
    else
      match a
      case BySocket(_) =>
        if s.socket.Requesting? && s.socket.requesting.StorePending? then w.(stored := true) else w
      case ByPresent(_) =>
        if s.present == Entering(Taken) then w.(read := w.stored)
        else if s.present == Publishing(StoreSequence) then w.(sent := w.read)
        else w
      case _ => w
  }

  function TrailOf(actions: seq<Action>): Trail
    requires Run(actions).Some?
  {
    if actions == [] then Trail(false, false, false)
    else
      var before := actions[..|actions| - 1];
      NextTrail(TrailOf(before), Run(before).value, actions[|actions| - 1], Run(actions).value)
  }

  // The trail tells whether the stored numbers came with the current connection.
  predicate Traced(s: State, w: Trail) {
    var n := |s.sessions|;
    && s.wire.pendingTag.origin <= n && s.job.call.tag.origin <= n && s.job.submitted.origin <= n
    && (n > 0 ==>
          && (w.stored <==> s.wire.pendingTag.origin == n)
          && (w.read <==> s.job.call.tag.origin == n)
          && (w.sent <==> s.job.submitted.origin == n))
  }

  // The stored request numbers, and the number of connections so far.
  predicate SameTags(s: State, t: State) {
    && t.wire.pendingTag == s.wire.pendingTag && t.job.call.tag == s.job.call.tag
    && t.job.submitted == s.job.submitted && |t.sessions| == |s.sessions|
  }

  lemma EnterTraced(s: State, w: Trail, c: Choice, t: State)
    requires Traced(s, w) && s.present.Entering? && EnterStep(s, s.present.entering, c) == Some(t)
    ensures Traced(t, NextTrail(w, s, ByPresent(c), t))
  {
  }

  lemma PublishTraced(s: State, w: Trail, c: Choice, t: State)
    requires Traced(s, w) && s.present.Publishing? && PublishStep(s, s.present.publishing) == t
    ensures Traced(t, NextTrail(w, s, ByPresent(c), t))
  {
  }

  lemma PrepareKeepsTags(s: State, c: Choice, t: State)
    requires s.present.Preparing? && PrepareStep(s, s.present.preparing, c) == Some(t)
    ensures SameTags(s, t)
  {
  }

  lemma LaterKeepsTags(s: State, c: Choice, t: State)
    requires s.present.Presenting? || s.present.Leaving?
    requires PresentStep(s, c) == Some(t)
    ensures SameTags(s, t)
  {
    hide TakeStep, EnterStep, ExchangeStep, PrepareStep, PublishStep;
  }

  lemma PresentTraced(s: State, w: Trail, c: Choice, t: State)
    requires Traced(s, w) && PresentStep(s, c) == Some(t)
    ensures Traced(t, NextTrail(w, s, ByPresent(c), t))
  {
    hide EnterStep, PrepareStep, PublishStep, CallStep, LeaveStep;
    match s.present
    case Entering(_) => EnterTraced(s, w, c, t);
    case Publishing(_) => PublishTraced(s, w, c, t);
    case Preparing(_) => PrepareKeepsTags(s, c, t);
    case Presenting(_) => LaterKeepsTags(s, c, t);
    case Leaving(_) => LaterKeepsTags(s, c, t);
    case _ =>
  }

  lemma WatchKeepsTags(s: State, c: Choice, t: State)
    requires s.fence.Watching? && WatchStep(s, s.fence.watching, c) == Some(t)
    ensures SameTags(s, t)
  {
  }

  lemma FenceTraced(s: State, w: Trail, c: Choice, t: State)
    requires Traced(s, w) && FenceStep(s, c) == Some(t)
    ensures Traced(t, NextTrail(w, s, ByFence(c), t))
  {
    hide WatchStep;
    if s.fence.Watching? {
      WatchKeepsTags(s, c, t);
    }
  }

  lemma BetweenTraced(s: State, w: Trail, c: Choice, t: State)
    requires Traced(s, w) && s.socket.Between? && BetweenStep(s, s.socket.between, c) == t
    ensures Traced(t, NextTrail(w, s, BySocket(c), t))
  {
  }

  lemma RequestTraced(s: State, w: Trail, c: Choice, t: State)
    requires Traced(s, w) && s.socket.Requesting? && RequestStep(s, s.socket.request, s.socket.requesting, c) == t
    ensures Traced(t, NextTrail(w, s, BySocket(c), t))
  {
  }

  lemma ResetKeepsTags(s: State, c: Choice, t: State)
    requires s.socket.Resetting? && ResetStep(s, s.socket.resetting, s.socket.next, c) == Some(t)
    ensures SameTags(s, t)
  {
  }

  lemma PacketsKeepTags(s: State, c: Choice, t: State)
    requires (s.socket.Receive? || s.socket.Acking?) && SocketStep(s, c) == Some(t)
    ensures SameTags(s, t)
  {
    hide BetweenStep, OpenStep, RequestStep, ResetStep;
  }

  lemma SocketTraced(s: State, w: Trail, c: Choice, t: State)
    requires Traced(s, w) && SocketStep(s, c) == Some(t)
    ensures Traced(t, NextTrail(w, s, BySocket(c), t))
  {
    hide BetweenStep, ReceiveStep, RequestStep, AckStep, ResetStep;
    match s.socket
    case Between(_) => BetweenTraced(s, w, c, t);
    case Requesting(_, _) => RequestTraced(s, w, c, t);
    case Resetting(_, _) => ResetKeepsTags(s, c, t);
    case Receive => PacketsKeepTags(s, c, t);
    case Acking(_, _) => PacketsKeepTags(s, c, t);
    case _ =>
  }

  lemma StepTraced(s: State, w: Trail, a: Action, t: State)
    requires Traced(s, w) && Step(s, a) == Some(t)
    ensures Traced(t, NextTrail(w, s, a, t))
  {
    hide PresentStep, FenceStep, SocketStep;
    match a
    case ByPresent(c) => PresentTraced(s, w, c, t);
    case ByFence(c) => FenceTraced(s, w, c, t);
    case BySocket(c) => SocketTraced(s, w, c, t);
    case _ =>
  }

  lemma {:induction false} RunTraced(actions: seq<Action>)
    requires Run(actions).Some?
    ensures Traced(Run(actions).value, TrailOf(actions))
  {
    hide Step, NextTrail, Traced;
    if actions == [] {
      assert Traced(INITIAL, Trail(false, false, false)) by { InitialTraced(); }
    } else {
      var before := actions[..|actions| - 1];
      RunTraced(before);
      StepTraced(Run(before).value, TrailOf(before), actions[|actions| - 1], Run(actions).value);
    }
  }

  lemma InitialTraced()
    ensures Traced(INITIAL, Trail(false, false, false))
  {
  }

  /** A READY answers a REQUEST of the connection it is sent on exactly when the capture read the request number after
      this connection had stored one. */
  lemma ReadyAnswersItsConnectionExactly(actions: seq<Action>, c: Choice, i: nat)
    requires Run(actions).Some?
    requires FenceStep(Run(actions).value, c).Some? && i < |Run(actions).value.sessions|
    requires
      var t := FenceStep(Run(actions).value, c).value;
      |t.sessions| == |Run(actions).value.sessions| && t.sessions[i] != Run(actions).value.sessions[i]
    ensures
      var s := Run(actions).value;
      var ready := s.job.submitted;
      && FenceStep(s, c).value.sessions[i].toConsumer == s.sessions[i].toConsumer + [ready]
      && ready in s.seen.asked
      && (ready.origin == i + 1 <==> TrailOf(actions).sent)
  {
    hide Run, FenceStep, Inv;
    ReadyIsTrue(actions, c, i);
    RunTraced(actions);
  }
}
