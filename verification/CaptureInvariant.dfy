// What every reachable state of the capture hand-off satisfies.
module CaptureInvariant {
  import opened Common
  import opened CaptureProtocol

  // ---------------------------------------------------------------- groups of program points

  predicate PresentLocked(pc: PresentPc) {
    !pc.Outside? && !pc.Entering?
  }

  // The capture has stored `first_export_ = false`.
  predicate Exported(p: PublishPoint) {
    p.StoreSequence? || p.ClearOutcome? || p.StoreSubmitted?
  }

  // The capture has stored `submitted_sequence_`.
  predicate Tagged(p: PublishPoint) {
    p.ClearOutcome? || p.StoreSubmitted?
  }

  // A take whose counter has not been settled.
  predicate Unsettled(pc: PresentPc) {
    pc.Entering? || pc.Exchange? || pc.Preparing? || (pc.Publishing? && !Exported(pc.publishing))
    || (pc.Leaving? && (pc.leaving.CountBusy? || pc.leaving.Rejected?))
  }

  // The present thread has read the sequence it answers and has not yet stored it or given up.
  predicate Tracking(pc: PresentPc) {
    (pc.Entering? && !pc.entering.Taken?) || pc.Exchange? || pc.Preparing? || pc.Publishing?
  }

  predicate Serving(pc: SocketPc) {
    pc.Receive? || pc.Requesting? || pc.Acking?
  }

  predicate SocketLocked(pc: SocketPc) {
    pc.Resetting? && !pc.resetting.TakeLock?
  }

  // The fence thread has seen the fence signaled.
  predicate SawSignal(pc: FencePc) {
    pc.Watching? && (pc.watching == ClearInFlight(true) || pc.watching.ReadOutcome? || pc.watching.SawZero?
                     || pc.watching.Promote?)
  }

  predicate Promoting(pc: FencePc) {
    pc.Watching? && pc.watching.Promote?
  }

  // ---------------------------------------------------------------- READYs that are still owed an ACK

  function Acks(q: seq<Packet>): nat {
    if q == [] then 0 else Acks(q[..|q| - 1]) + (if q[|q| - 1].Ack? then 1 else 0)
  }

  function Count(b: bool): nat {
    if b then 1 else 0
  }

  // The reader is between taking a READY and answering it.
  predicate Engaged(r: Reader) {
    r.Holding? || r.Reading? || r.Done? || r.Abandoned?
  }

  predicate Lent(r: Reader) {
    r.Reading? || r.Abandoned?
  }

  // READYs on their way, in the consumer's hands, or answered by an ACK on its way back.
  function Tokens(x: Session): nat {
    |x.toConsumer| + Count(Engaged(x.reader)) + Acks(x.toProducer)
  }

  const SHARED := Image(General, External)
  const LENT := Image(TransferSrc, Consumer)

  // What holds of every session, also one the producer has dropped.
  predicate SessionOk(x: Session) {
    && (x.copy.Queued? ==> Matches(x.image, x.copy.barrier) && x.copy.barrier.newLayout == TransferDst
                           && (x.copy.barrier.target == Producer || x.copy.barrier.target == Unclaimed))
    && (x.copy.Executing? ==> Matches(x.image, PRODUCER_RELEASE))
    && (Lent(x.reader) <==> x.image == LENT)
    && Tokens(x) <= Count(x.owed)
    && (x.owed ==> x.copy.NoCopy? && x.content.Some? && (x.image == SHARED || x.image == LENT))
    && (forall k :: 0 <= k < |x.toConsumer| ==> x.content == Some(x.toConsumer[k].sequence))
    && (x.reader.Holding? || x.reader.Reading? || x.reader.Done? ==> x.content == Some(x.reader.sequence))
  }

  // ---------------------------------------------------------------- the invariant

  predicate PhaseOf(stage: Stage, phase: Phase) {
    phase.Disabled?
    || match stage
       case Free => phase.Disconnected? || phase.Idle?
       case Capturing => phase.Recording?
       case Copying => phase.Submitted?
       case Promoted => phase.AwaitingAck?
       case Handed => phase.AwaitingAck?
  }

  predicate Phases(s: State) {
    && PhaseOf(s.control.stage, s.control.phase)
    && (!s.control.hasImage ==> s.control.stage.Free? && !s.control.phase.Idle? && s.control.firstExport)
    && (s.control.hasImage ==> s.sessions != [])
  }

  predicate PresentThreadOk(s: State) {
    && (s.control.stage.Capturing? <==> s.present.Preparing? || s.present.Publishing?)
    && (s.present.Presenting? ==> s.control.stage.Copying?)
    && (s.control.lock.PresentThread? <==> PresentLocked(s.present))
  }

  predicate FenceThreadOk(s: State) {
    && (s.fence.Watching? ==> s.control.stage.Copying?)
    && (s.fence.Delivering? ==> s.control.stage.Promoted?)
  }

  predicate SocketThreadOk(s: State) {
    && (s.control.lock.SocketThread? <==> SocketLocked(s.socket))
    && (s.socket.Between? ==> s.control.stage.Free? && !s.control.hasImage && s.fence.NotRunning?)
    && (s.socket.Opening? ==> s.control.stage.Free? && !s.control.phase.Idle? && s.control.hasImage)
    && (s.socket.Opening? && (s.socket.opening.StoreDisconnected? || s.socket.opening.Spawn?) ==>
          s.fence.NotRunning?)
    && (Serving(s.socket) ==> s.control.hasImage)
    && (s.socket.Acking? ==> s.control.stage.Handed?)
    && (s.socket.Resetting? && !s.socket.resetting.TakeLock? && !s.socket.resetting.StoreDisabled? ==>
          s.control.phase.Disabled?)
    && (s.socket.Resetting? && (s.socket.resetting.AwaitCopy? || s.socket.resetting.Destroy?) ==>
          s.fence.NotRunning?)
    && (s.wire.pending ==> Serving(s.socket) || s.socket.Closing? || s.socket.DropPending?)
  }

  // Progress of the copy submitted for `frame` into the current image.
  predicate Submission(s: State, x: Session, frame: nat) {
    && (s.job.fenceSignaled <==> x.copy.NoCopy?)
    && (x.copy.Queued? ==> x.copy.frame == frame)
    && (x.copy.Executing? ==> x.copy.frame == frame)
    && (x.copy.NoCopy? ==> x.image == SHARED && x.content == Some(frame))
  }

  predicate Sessions(s: State) {
    forall i :: 0 <= i < |s.sessions| ==> SessionOk(s.sessions[i])
  }

  predicate Images(s: State) {
    s.control.hasImage && s.sessions != [] ==> CurrentImage(s, s.sessions[Current(s)])
  }

  predicate CurrentImage(s: State, x: Session) {
    && (x.owed ==> s.control.stage.Handed?)
    && (s.socket.Acking? ==> x.owed && Tokens(x) == 0)
    && (s.control.stage.Free? || s.present.Preparing? ==>
          x.copy.NoCopy? && x.image == (if s.control.firstExport then Image(Undefined, Unclaimed) else SHARED))
    && (s.present.Preparing? && s.present.preparing.Submit? ==>
          s.job.call.barrier == ProducerAcquire(s.control.firstExport))
    && (s.present.Preparing? && (s.present.preparing.Record? || s.present.preparing.Submit?) ==>
          !s.job.fenceSignaled)
    && (s.present.Publishing? ==> Submission(s, x, s.job.call.tag.sequence))
    && (s.present.Publishing? && Exported(s.present.publishing) ==> !s.control.firstExport)
    && (s.present.Publishing? && Tagged(s.present.publishing) ==> s.job.submitted == s.job.call.tag)
    && (s.control.stage.Copying? ==> Submission(s, x, s.job.submitted.sequence) && !s.control.firstExport)
    && (SawSignal(s.fence) ==> s.job.fenceSignaled)
    && (s.control.stage.Promoted? || s.control.stage.Handed? ==>
          x.copy.NoCopy? && x.content == Some(s.job.submitted.sequence) && !s.control.firstExport
          && (x.image == SHARED || x.image == LENT))
  }

  predicate Outcomes(s: State) {
    && (s.present.Publishing? && s.present.publishing.StoreSubmitted? ==> s.job.outcome != 1)
    && (s.present.Presenting? ==> s.job.outcome != 1 && !Promoting(s.fence))
    && (s.control.stage.Copying? && s.job.outcome == 1 ==> s.seen.presentOk)
    && (Promoting(s.fence) || s.control.stage.Promoted? || s.control.stage.Handed? ==> s.seen.presentOk)
    && (s.present.Presenting? && s.present.presenting.Succeeded? ==> s.seen.presentOk)
  }

  // A copy that may still run is known to the reset, unless a fence wait has failed.
  predicate Tracked(s: State) {
    && (s.control.stage.Copying? && !s.job.fenceSignaled ==> s.job.inFlight || s.seen.deviceLost)
    && (s.present.Publishing? && !s.present.publishing.MarkInFlight? ==> s.job.inFlight)
    && (s.fence.Watching? && (s.fence.watching == ClearInFlight(false) || s.fence.watching.Lost?) ==>
          s.seen.deviceLost)
    && (s.socket.Resetting? && s.socket.resetting.Destroy? && s.control.stage.Copying? ==>
          s.job.fenceSignaled || s.seen.deviceLost)
  }

  // The consumer of session number `tag.origin` has sent REQUEST `tag.sequence`.
  predicate Asked(s: State, tag: Tag) {
    tag in s.seen.asked && tag.origin <= |s.sessions|
  }

  predicate Origins(s: State) {
    && (s.wire.pending || s.present == Entering(Taken) ==> Asked(s, s.wire.pendingTag))
    && (s.socket.Requesting? ==> Asked(s, Tag(s.socket.request, |s.sessions|)))
    && (s.socket.Requesting? && s.socket.requesting.SetPending? ==> Asked(s, s.wire.pendingTag))
    && (Tracking(s.present) ==> Asked(s, s.job.call.tag))
    && (s.control.stage.Copying? || s.control.stage.Promoted? || s.control.stage.Handed? ==> Asked(s, s.job.submitted))
    && (s.present.Publishing? && Tagged(s.present.publishing) ==> Asked(s, s.job.submitted))
  }

  predicate Answers(s: State) {
    forall i, k :: 0 <= i < |s.sessions| && 0 <= k < |s.sessions[i].toConsumer| ==>
      s.sessions[i].toConsumer[k] in s.seen.asked && s.sessions[i].toConsumer[k].origin <= i + 1
  }

  // Every request of this connection is accounted for.
  predicate Accounts(s: State) {
    Serving(s.socket) || s.socket == Opening(StoreIdle) ==>
      && s.counts.requests + s.counts.late
         == s.counts.captures + s.counts.busy + s.counts.coalesced + s.counts.refused + Count(s.wire.pending)
            + Count(s.socket.Requesting?) + Count(Unsettled(s.present) && !s.job.call.late)
      && s.counts.late + Count(Unsettled(s.present) && s.job.call.late) <= Count(s.seen.clearedDuringCall)
  }

  predicate Protocol(s: State) {
    Phases(s) && PresentThreadOk(s) && FenceThreadOk(s) && SocketThreadOk(s)
  }

  predicate Pixels(s: State) {
    Sessions(s) && Images(s) && Outcomes(s) && Tracked(s)
  }

  predicate Provenance(s: State) {
    Origins(s) && Answers(s)
  }

  predicate Inv(s: State) {
    Protocol(s) && Pixels(s) && Provenance(s) && Accounts(s)
  }

  lemma InitialInv()
    ensures Inv(INITIAL)
  {
  }

  lemma {:induction false} AcksFront(q: seq<Packet>)
    requires q != []
    ensures Acks(q) == Acks(q[1..]) + Count(q[0].Ack?)
  {
    if |q| > 1 {
      AcksFront(q[..|q| - 1]);
      assert q[..|q| - 1][1..] == q[1..][..|q| - 2];
    }
  }
}
