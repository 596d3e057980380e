// Safety of the capture hand-off over whole runs: what holds in every state that some interleaving of the producer
// threads, the GPU and the consumer can reach.
module CaptureSafety {
  import opened Common
  import opened CaptureProtocol
  import opened CaptureInvariant
  import opened CaptureSteps

  // ---------------------------------------------------------------- the invariant over runs

  lemma PresentKeeps(s: State, c: Choice, t: State)
    requires Inv(s) && PresentStep(s, c) == Some(t)
    ensures Inv(t)
  {
    hide Phases, PresentThreadOk, FenceThreadOk, SocketThreadOk, Sessions, Images, Outcomes, Tracked, Origins;
    hide Answers, Accounts;
    hide TakeStep, EnterStep, ExchangeStep, PrepareStep, PublishStep, CallStep, LeaveStep;
    match s.present
    case Outside => TakeKeepsInv(s, t);
    case Entering(_) =>
      EnterKeepsProtocol(s, c, t);
      EnterKeepsImages(s, c, t);
      EnterKeepsOutcomes(s, c, t);
      EnterKeepsProvenance(s, c, t);
      EnterKeepsAccounts(s, c, t);
    case Exchange =>
      ExchangeKeepsCore(s, t);
      ExchangeKeepsBooks(s, t);
    case Preparing(_) =>
      PrepareKeepsProtocol(s, c, t);
      PrepareKeepsImages(s, c, t);
      PrepareKeepsOutcomes(s, c, t);
      PrepareKeepsProvenance(s, c, t);
      PrepareKeepsAccounts(s, c, t);
    case Publishing(_) =>
      PublishKeepsProtocol(s, t);
      PublishKeepsPixels(s, t);
      PublishKeepsProvenance(s, t);
      PublishKeepsAccounts(s, t);
    case Presenting(_) =>
      CallKeepsCore(s, c, t);
      CallKeepsBooks(s, c, t);
    case Leaving(_) =>
      LeaveKeepsProtocol(s, t);
      LeaveKeepsImages(s, t);
      LeaveKeepsOutcomes(s, t);
      LeaveKeepsProvenance(s, t);
      LeaveKeepsAccounts(s, t);
  }

  lemma FenceKeeps(s: State, c: Choice, t: State)
    requires Inv(s) && FenceStep(s, c) == Some(t)
    ensures Inv(t)
  {
    hide Phases, PresentThreadOk, FenceThreadOk, SocketThreadOk, Sessions, Images, Outcomes, Tracked, Origins;
    hide Answers, Accounts;
    hide LookStep, WatchStep, DeliverStep;
    if s.fence.Looking? {
      LookKeepsCore(s, t);
      LookKeepsBooks(s, t);
    } else if s.fence.Watching? {
      WatchKeepsProtocol(s, c, t);
      WatchKeepsPixels(s, c, t);
      WatchKeepsBooks(s, c, t);
    } else if s.fence.Delivering? {
      DeliverKeepsCore(s, c, t);
      DeliverKeepsBooks(s, c, t);
    } else {
      FenceCloseKeepsInv(s, c, t);
    }
  }

  lemma SocketKeeps(s: State, c: Choice, t: State)
    requires Inv(s) && SocketStep(s, c) == Some(t)
    ensures Inv(t)
  {
    hide Phases, PresentThreadOk, FenceThreadOk, SocketThreadOk, Sessions, Images, Outcomes, Tracked, Origins;
    hide Answers, Accounts;
    hide BetweenStep, OpenStep, ReceiveStep, RequestStep, AckStep, ResetStep;
    match s.socket
    case Between(_) =>
      BetweenKeepsProtocol(s, c, t);
      BetweenKeepsImages(s, c, t);
      BetweenKeepsOutcomes(s, c, t);
      BetweenKeepsProvenance(s, c, t);
      BetweenKeepsAccounts(s, c, t);
    case Opening(_) =>
      OpenKeepsProtocol(s, c, t);
      OpenKeepsPixels(s, c, t);
      OpenKeepsProvenance(s, c, t);
      OpenKeepsAccounts(s, c, t);
    case Receive =>
      ReceiveKeepsCore(s, c, t);
      ReceiveKeepsBooks(s, c, t);
    case Requesting(_, _) =>
      RequestKeepsProtocol(s, c, t);
      RequestKeepsPixels(s, c, t);
      RequestKeepsProvenance(s, c, t);
      RequestKeepsAccounts(s, c, t);
    case Acking(_, _) =>
      AckKeepsProtocol(s, t);
      AckKeepsPixels(s, t);
      AckKeepsProvenance(s, t);
      AckKeepsAccounts(s, t);
    case Resetting(_, _) =>
      ResetKeepsProtocol(s, c, t);
      ResetKeepsImages(s, c, t);
      ResetKeepsOutcomes(s, c, t);
      ResetKeepsProvenance(s, c, t);
      ResetKeepsAccounts(s, c, t);
    case Closing =>
      SocketCloseKeepsCore(s, c, t);
      SocketCloseKeepsBooks(s, c, t);
    case DropPending =>
      SocketCloseKeepsCore(s, c, t);
      SocketCloseKeepsBooks(s, c, t);
  }

  lemma StepKeeps(s: State, a: Action, t: State)
    requires Inv(s) && Step(s, a) == Some(t)
    ensures Inv(t)
  {
    hide Phases, PresentThreadOk, FenceThreadOk, SocketThreadOk, Sessions, Images, Outcomes, Tracked, Origins;
    hide Answers, Accounts;
    hide PresentStep, FenceStep, SocketStep, DisableStep, RetireStep, GpuStep, ConsumerStep;
    match a
    case ByPresent(c) => PresentKeeps(s, c, t);
    case ByFence(c) => FenceKeeps(s, c, t);
    case BySocket(c) => SocketKeeps(s, c, t);
    case ByDisable(d) =>
      DisableKeepsCore(s, d, t);
      DisableKeepsBooks(s, d, t);
    case ByRetire => RetireKeepsInv(s, t);
    case ByGpu(i) => GpuKeepsInv(s, i, t);
    case ByConsumer(i, m) =>
      ConsumerKeepsProtocol(s, i, m, t);
      ConsumerKeepsImages(s, i, m, t);
      ConsumerKeepsOutcomes(s, i, m, t);
      ConsumerKeepsBooks(s, i, m, t);
  }

  lemma {:induction false} RunInv(actions: seq<Action>)
    requires Run(actions).Some?
    ensures Inv(Run(actions).value)
  {
    hide Inv, Step;
    if actions == [] {
      InitialInv();
    } else {
      var before := actions[..|actions| - 1];
      RunInv(before);
      StepKeeps(Run(before).value, actions[|actions| - 1], Run(actions).value);
    }
  }

  // ---------------------------------------------------------------- main results

  // A READY for session `i` was sent and its ACK has not been handled: the producer still owes itself that ACK, or
  // the READY or its answer is still somewhere on the way.
  predicate Outstanding(s: State, i: nat) {
    i < |s.sessions| && (s.sessions[i].owed || Tokens(s.sessions[i]) > 0)
  }

  // The present thread is between `recording` and the store that publishes or abandons the capture into image `i`.
  predicate RecordingInto(s: State, i: nat) {
    i == Current(s) && s.control.hasImage && (s.present.Preparing? || s.present.Publishing?)
  }

  // Mutual exclusion: no copy into an image is queued, running or being recorded while a READY for it is
  // outstanding, even after the producer has closed that connection.
  lemma ReadyExcludesCopy(actions: seq<Action>, i: nat)
    requires Run(actions).Some? && Outstanding(Run(actions).value, i)
    ensures Run(actions).value.sessions[i].copy.NoCopy?
    ensures !RecordingInto(Run(actions).value, i)
  {
    RunInv(actions);
  }

  // Whatever the consumer reads is, for as long as it reads, the capture its READY named.
  lemma ReadbackSeesItsCapture(actions: seq<Action>, i: nat)
    requires Run(actions).Some? && i < |Run(actions).value.sessions|
    requires Run(actions).value.sessions[i].reader.Reading?
    ensures
      var x := Run(actions).value.sessions[i];
      x.content == Some(x.reader.sequence) && x.copy.NoCopy? && x.image == Image(TransferSrc, Consumer)
  {
    RunInv(actions);
    hide Inv, Run;
    SessionHolds(Run(actions).value, i);
  }

  lemma SessionHolds(s: State, i: nat)
    requires Inv(s) && i < |s.sessions|
    ensures SessionOk(s.sessions[i])
  {
  }

  // A READY is sent only for a copy that has completed and whose present returned success or suboptimal, and it
  // carries the tag of a REQUEST received on this connection or an earlier one.
  lemma ReadyIsTrue(actions: seq<Action>, c: Choice, i: nat)
    requires Run(actions).Some?
    requires FenceStep(Run(actions).value, c).Some? && i < |Run(actions).value.sessions|
    requires
      var t := FenceStep(Run(actions).value, c).value;
      |t.sessions| == |Run(actions).value.sessions| && t.sessions[i] != Run(actions).value.sessions[i]
    ensures
      var s := Run(actions).value;
      var ready := s.job.submitted;
      && i == Current(s) && s.wire.open
      && FenceStep(s, c).value.sessions[i].toConsumer == s.sessions[i].toConsumer + [ready]
      && s.sessions[i].copy.NoCopy? && s.sessions[i].content == Some(ready.sequence)
      && s.sessions[i].image == Image(General, External)
      && s.seen.presentOk
      && ready in s.seen.asked && ready.origin <= i + 1
  {
    RunInv(actions);
    var s := Run(actions).value;
    hide Run, LookStep, WatchStep;
    if s.fence.Looking? || s.fence.Watching? {
      FenceLeavesSessions(s, c);
    }
  }

  lemma FenceLeavesSessions(s: State, c: Choice)
    requires s.fence.Looking? || s.fence.Watching?
    ensures FenceStep(s, c).Some? ==> FenceStep(s, c).value.sessions == s.sessions
  {
  }

  // The ownership chain: wherever the GPU of either process is about to execute a barrier on an exported image, the
  // image's actual layout and owner are the barrier's old side.
  lemma BarriersMatch(actions: seq<Action>, i: nat)
    requires Run(actions).Some? && i < |Run(actions).value.sessions|
    ensures
      var x := Run(actions).value.sessions[i];
      && (x.copy.Queued? ==> Matches(x.image, x.copy.barrier))
      && (x.copy.Executing? ==> Matches(x.image, PRODUCER_RELEASE))
      && (ConsumerMove(x, BeginRead).Some? ==> Matches(x.image, CONSUMER_ACQUIRE))
      && (ConsumerMove(x, EndRead).Some? ==> Matches(x.image, CONSUMER_RELEASE))
  {
    RunInv(actions);
    hide Inv, Run;
    SessionHolds(Run(actions).value, i);
  }

  // Between two packets, with no take left to settle, every request of the connection is in exactly one counter;
  // only a call that was already running when the counters were cleared can add one more outcome.
  lemma RequestsAreAccountedFor(actions: seq<Action>)
    requires Run(actions).Some?
    requires Run(actions).value.socket.Receive? && !Unsettled(Run(actions).value.present)
    ensures
      var s := Run(actions).value;
      var outcomes := s.counts.captures + s.counts.busy + s.counts.coalesced + s.counts.refused + Count(s.wire.pending);
      && s.counts.requests <= outcomes <= s.counts.requests + 1
      && (!s.seen.clearedDuringCall ==> outcomes == s.counts.requests)
  {
    RunInv(actions);
  }

  // The image is destroyed only after its last copy has completed, unless waiting for a fence has failed.
  lemma DestroyWaitsForCopy(actions: seq<Action>)
    requires Run(actions).Some?
    requires Run(actions).value.socket.Resetting? && Run(actions).value.socket.resetting.Destroy?
    requires Run(actions).value.control.hasImage && !Run(actions).value.seen.deviceLost
    ensures
      var s := Run(actions).value;
      s.sessions != [] && s.sessions[Current(s)].copy.NoCopy?
  {
    RunInv(actions);
  }

  // The fence thread of the previous connection is over before the next one is started.
  lemma OneFenceThread(actions: seq<Action>)
    requires Run(actions).Some? && Run(actions).value.socket == Opening(Spawn)
    ensures Run(actions).value.fence.NotRunning?
  {
    RunInv(actions);
  }

  // Every READY on its way answers a REQUEST that was received, on the same connection or an earlier one.
  lemma ReadyAnswersRequest(actions: seq<Action>, i: nat, k: nat)
    requires Run(actions).Some? && i < |Run(actions).value.sessions|
    requires k < |Run(actions).value.sessions[i].toConsumer|
    ensures
      var s := Run(actions).value;
      s.sessions[i].toConsumer[k] in s.seen.asked && s.sessions[i].toConsumer[k].origin <= i + 1
  {
    RunInv(actions);
  }
}
