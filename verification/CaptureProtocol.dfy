// The hand-off protocol between a game's swapchain and a capture consumer.  Three producer threads (the game's
// present call, the fence thread and the socket thread) share one exported image with the consumer process.  Each
// step below is one atomic access of a shared variable, one locked update, or one event of the GPU or the consumer;
// any enabled thread may take the next step.
module CaptureProtocol {
  import opened Common

  // ---------------------------------------------------------------- the exported image

  datatype Layout = Undefined | General | TransferDst | TransferSrc

  // Who owns the image in the sense of queue family ownership; Unclaimed until a queue first uses it.
  datatype Owner = Unclaimed | External | Producer | Consumer

  datatype Image = Image(layout: Layout, owner: Owner)

  datatype Barrier = Barrier(oldLayout: Layout, newLayout: Layout, source: Owner, target: Owner)

  // The barrier in front of the producer's copy; Unclaimed on both sides stands for the ignored queue family.
  function ProducerAcquire(firstExport: bool): Barrier {
    if firstExport then Barrier(Undefined, TransferDst, Unclaimed, Unclaimed)
    else Barrier(General, TransferDst, External, Producer)
  }

  const PRODUCER_RELEASE := Barrier(TransferDst, General, Producer, External)
  const CONSUMER_ACQUIRE := Barrier(General, TransferSrc, External, Consumer)
  const CONSUMER_RELEASE := Barrier(TransferSrc, General, Consumer, External)

  // The old side of the barrier is the image's actual layout and owner.
  predicate Matches(image: Image, barrier: Barrier) {
    image.layout == barrier.oldLayout && image.owner == barrier.source
  }

  // The image after the barrier has executed on `queue`.
  function Executed(barrier: Barrier, queue: Owner): Image {
    Image(barrier.newLayout, if barrier.target == Unclaimed then queue else barrier.target)
  }

  // The GPU's progress with the last submitted copy into an image.
  datatype Copy = NoCopy | Queued(barrier: Barrier, frame: nat) | Executing(frame: nat)

  // ---------------------------------------------------------------- one connection

  datatype Packet = Request(sequence: nat) | Ack(sequence: nat)

  datatype Reader = Waiting | Holding(sequence: nat) | Reading(sequence: nat) | Done(sequence: nat) | Abandoned | Gone

  // A session is one connection with its own exported image.  `owed` records that a READY was sent whose ACK the
  // producer has not handled; `content` is the capture whose pixels the image holds.
  datatype Session = Session(
    toConsumer: seq<Tag>,
    toProducer: seq<Packet>,
    reader: Reader,
    image: Image,
    copy: Copy,
    content: Option<nat>,
    owed: bool)

  const FRESH_SESSION := Session([], [], Waiting, Image(Undefined, Unclaimed), NoCopy, None, false)

  // ---------------------------------------------------------------- the producer

  datatype Phase = Disconnected | Idle | Recording | Submitted | AwaitingAck | Disabled

  // The present thread: before the lock, between `recording` and its end (before and after the queue submission),
  // inside the present call, and on the way out.
  datatype PresentPc =
    | Outside
    | Entering(entering: EnterPoint)
    | Exchange
    | Preparing(preparing: PreparePoint)
    | Publishing(publishing: PublishPoint)
    | Presenting(presenting: PresentPoint)
    | Leaving(leaving: LeavePoint)

  datatype EnterPoint = Taken | FenceCheck | Refusing | LockWait
  datatype PreparePoint = Checks | FenceReset | Record | Submit
  datatype PublishPoint = MarkInFlight | CountCapture | StoreSequence | ClearOutcome | StoreSubmitted
  datatype PresentPoint = Calling | Succeeded | Failed | FailedOutcome
  datatype LeavePoint = CountBusy | Rejected | FailedClose | Returning

  // The fence thread: looking for `submitted`, following the copy it saw, and handing it over.
  datatype FencePc =
    | NotRunning
    | Looking(looking: LookPoint)
    | Watching(watching: WatchPoint)
    | Delivering(delivering: DeliverPoint)
    | SendClose
    | Finished

  datatype LookPoint = CheckStop | LoadPhase
  datatype WatchPoint = WaitFence | ClearInFlight(ok: bool) | Lost | ReadOutcome | SawZero | Promote
  datatype DeliverPoint = Send | SendFailed

  // The socket thread: without an image, opening a connection, serving it, and tearing it down.
  datatype SocketPc =
    | Between(between: BetweenPoint)
    | Opening(opening: OpenPoint)
    | Receive
    | Requesting(request: nat, requesting: RequestPoint)
    | Acking(ack: nat, acking: AckPoint)
    | Closing
    | DropPending
    | Resetting(resetting: ResetPoint, next: Resume)
    | Ended

  datatype BetweenPoint = Top | Admission | Admitted | CreateImage | Afterwards | ExitDisabled
  datatype OpenPoint = StoreDisconnected | Spawn | Hello | ZeroCounters | StoreIdle
  datatype RequestPoint = PhaseOfRequest | RefuseBusy | PendingOfRequest | Coalesce | StorePending | SetPending
  datatype AckPoint = PhaseOfAck | SequenceOfAck | AckStore
  datatype ResetPoint = TakeLock | StoreDisabled | Join | AwaitCopy | Destroy
  datatype Resume = ToTop | ToCreate | ToAfterwards | ToExit

  datatype Holder = Nobody | PresentThread | SocketThread

  // A request's sequence number and the session it arrived on, counted from one.
  datatype Tag = Tag(sequence: nat, origin: nat)

  // The present call in progress: the request it answers, the barrier it recorded, and whether the counters were
  // cleared while it was running.
  datatype Call = Call(tag: Tag, barrier: Barrier, late: bool)

  // The fence that tells when the last present is over: none outstanding, the layer's own, or the game's.
  datatype PresentFence = NoFence | OwnFence | GameFence

  // The four counters the layer reports, and two the report leaves out: takes refused by an error before a capture,
  // and outcomes of a call that began before the counters were cleared.
  datatype Counters = Counters(requests: nat, captures: nat, busy: nat, coalesced: nat, refused: nat, late: nat)

  const NO_COUNTS := Counters(0, 0, 0, 0, 0, 0)

  // How far the current capture has got.  The layer does not store it: it is what the phase would be if no thread
  // ever overwrote it with `disabled`.
  datatype Stage = Free | Capturing | Copying | Promoted | Handed

  // What has happened so far: whether the last submission was presented, whether a fence wait has failed, whether
  // the counters were last cleared during a present call, and every request received.
  datatype History = History(presentOk: bool, deviceLost: bool, clearedDuringCall: bool, asked: set<Tag>)

  // The phase, and what the resources lock protects.
  datatype Control = Control(phase: Phase, stage: Stage, lock: Holder, hasImage: bool, firstExport: bool)

  // The stop flag, whether the socket is open, and the request waiting for a present.
  datatype Wire = Wire(stop: bool, open: bool, pending: bool, pendingTag: Tag)

  // The present call, what the last submission stored, and the fences.
  datatype Job = Job(
    call: Call,
    submitted: Tag,
    outcome: nat,
    inFlight: bool,
    fenceSignaled: bool,
    presentFence: PresentFence)

  datatype State = State(
    control: Control,
    wire: Wire,
    job: Job,
    present: PresentPc,
    fence: FencePc,
    socket: SocketPc,
    counts: Counters,
    sessions: seq<Session>,
    seen: History)

  const INITIAL := State(
    Control(Disconnected, Free, Nobody, false, true),
    Wire(false, false, false, Tag(0, 0)),
    Job(Call(Tag(0, 0), ProducerAcquire(true), false), Tag(0, 0), 0, false, false, NoFence),
    Outside, NotRunning, Between(Top), NO_COUNTS, [], History(false, false, false, {}))

  // The session whose image the producer holds, or last held.
  function Current(s: State): int {
    |s.sessions| - 1
  }

  // The state with the current session replaced.
  function WithCurrent(s: State, x: Session): State
    requires s.sessions != []
  {
    s.(sessions := s.sessions[Current(s) := x])
  }

  function Phased(s: State, phase: Phase): State {
    s.(control := s.control.(phase := phase))
  }

  function Staged(s: State, phase: Phase, stage: Stage): State {
    s.(control := s.control.(phase := phase, stage := stage))
  }

  function Locked(s: State, holder: Holder): State {
    s.(control := s.control.(lock := holder))
  }

  function Closed(s: State): State {
    s.(wire := s.wire.(open := false))
  }

  function WithCall(s: State, call: Call): State {
    s.(job := s.job.(call := call))
  }

  // ---------------------------------------------------------------- the present thread

  // What the surroundings decide at a step: the ordinary way on, an error, a fence that is not there yet, or the
  // result of the present call itself.
  datatype Choice = Proceed | Error | NotReady | Presented(success: bool, left: PresentFence)

  function Bump(c: Counters, call: Call): Counters {
    if call.late then c.(late := c.late + 1) else c
  }

  function CountedBusy(s: State): Counters {
    Bump(s.counts.(busy := s.counts.busy + 1), s.job.call)
  }

  function CountedRefused(s: State): Counters {
    Bump(s.counts.(refused := s.counts.refused + 1), s.job.call)
  }

  function CountedCapture(s: State): Counters {
    Bump(s.counts.(captures := s.counts.captures + 1), s.job.call)
  }

  // An error or an unready fence after the phase became `recording` puts `idle` back.
  function BackToIdle(s: State, point: LeavePoint): State {
    Staged(s, Idle, Free).(present := Leaving(point))
  }

  function PresentStep(s: State, c: Choice): Option<State> {
    match s.present
    case Outside => TakeStep(s)
    case Entering(e) => EnterStep(s, e, c)
    case Exchange => Some(ExchangeStep(s))
    case Preparing(p) => PrepareStep(s, p, c)
    case Publishing(p) => Some(PublishStep(s, p))
    case Presenting(p) => CallStep(s, p, c)
    case Leaving(l) => Some(LeaveStep(s, l))
  }

  function TakeStep(s: State): Option<State> {
    if s.wire.pending then
      Some(WithCall(s, s.job.call.(late := false)).(wire := s.wire.(pending := false), present := Entering(Taken)))
    else None
  }

  function EnterStep(s: State, point: EnterPoint, c: Choice): Option<State> {
    match point
    case Taken => Some(WithCall(s, s.job.call.(tag := s.wire.pendingTag)).(present := Entering(FenceCheck)))
    case FenceCheck =>
      if c.Proceed? then Some(s.(present := Entering(LockWait)))
      else if c.NotReady? then Some(s.(counts := CountedBusy(s), present := Outside))
      else if c.Error? then Some(Phased(s, Disabled).(present := Entering(Refusing)))
      else None
    case Refusing => Some(Closed(s).(counts := CountedRefused(s), present := Outside))
    case LockWait =>
      if s.control.lock.Nobody? then Some(Locked(s, PresentThread).(present := Exchange)) else None
  }

  function ExchangeStep(s: State): State {
    if s.control.phase.Idle? then Staged(s, Recording, Capturing).(present := Preparing(Checks))
    else s.(present := Leaving(CountBusy))
  }

  function PrepareStep(s: State, point: PreparePoint, c: Choice): Option<State> {
    if c.Error? then Some(BackToIdle(s, Rejected))
    else
      match point
      case Checks =>
        if c.Proceed? then
          Some(s.(job := s.job.(presentFence := NoFence), present := Preparing(FenceReset)))
        else if c.NotReady? && !s.job.presentFence.NoFence? then Some(BackToIdle(s, CountBusy))
        else None
      case FenceReset =>
        var reset := s.(job := s.job.(fenceSignaled := false));
        if c.NotReady? then Some(BackToIdle(reset, Rejected))
        else if c.Proceed? then Some(reset.(present := Preparing(Record)))
        else None
      case Record =>
        if c.Proceed? then
          Some(WithCall(s, s.job.call.(barrier := ProducerAcquire(s.control.firstExport)))
                 .(present := Preparing(Submit)))
        else None
      case Submit =>
        if c.Proceed? && s.sessions != [] then
          var x := s.sessions[Current(s)];
          Some(WithCurrent(s, x.(copy := Queued(s.job.call.barrier, s.job.call.tag.sequence)))
                 .(seen := s.seen.(presentOk := false), present := Publishing(MarkInFlight)))
        else None
  }

  function PublishStep(s: State, point: PublishPoint): State {
    match point
    case MarkInFlight => s.(job := s.job.(inFlight := true), present := Publishing(CountCapture))
    case CountCapture =>
      s.(control := s.control.(firstExport := false), counts := CountedCapture(s),
         present := Publishing(StoreSequence))
    case StoreSequence => s.(job := s.job.(submitted := s.job.call.tag), present := Publishing(ClearOutcome))
    case ClearOutcome => s.(job := s.job.(outcome := 0), present := Publishing(StoreSubmitted))
    case StoreSubmitted => Staged(s, Submitted, Copying).(present := Presenting(Calling))
  }

  function CallStep(s: State, point: PresentPoint, c: Choice): Option<State> {
    match point
    case Calling =>
      if c.Presented? then
        Some(s.(job := s.job.(presentFence := c.left), seen := s.seen.(presentOk := c.success),
                present := Presenting(if c.success then Succeeded else Failed)))
      else None
    case Succeeded => Some(s.(job := s.job.(outcome := 1), present := Leaving(Returning)))
    case Failed => Some(Phased(s, Disabled).(present := Presenting(FailedOutcome)))
    case FailedOutcome => Some(s.(job := s.job.(outcome := 2), present := Leaving(FailedClose)))
  }

  function LeaveStep(s: State, point: LeavePoint): State {
    match point
    case CountBusy => Locked(s, Nobody).(counts := CountedBusy(s), present := Outside)
    case Rejected => Locked(s, Nobody).(counts := CountedRefused(s), present := Outside)
    case FailedClose => Closed(s).(present := Leaving(Returning))
    case Returning => Locked(s, Nobody).(present := Outside)
  }

  // ---------------------------------------------------------------- the fence thread

  function FenceStep(s: State, c: Choice): Option<State> {
    match s.fence
    case NotRunning => None
    case Looking(l) => Some(LookStep(s, l))
    case Watching(w) => WatchStep(s, w, c)
    case Delivering(d) => DeliverStep(s, d, c)
    case SendClose => Some(Closed(s).(fence := Finished))
    case Finished => None
  }

  function LookStep(s: State, point: LookPoint): State {
    match point
    case CheckStop => s.(fence := if s.wire.stop then Finished else Looking(LoadPhase))
    case LoadPhase =>
      s.(fence := if s.control.phase.Disabled? then Finished
                  else if s.control.phase.Submitted? then Watching(WaitFence)
                  else Looking(CheckStop))
  }

  function WatchStep(s: State, point: WatchPoint, c: Choice): Option<State> {
    match point
    case WaitFence =>
      if c.Error? then Some(s.(seen := s.seen.(deviceLost := true), fence := Watching(ClearInFlight(false))))
      else if s.job.fenceSignaled then Some(s.(fence := Watching(ClearInFlight(true))))
      else None
    case ClearInFlight(ok) =>
      Some(s.(job := s.job.(inFlight := false), fence := Watching(if ok then ReadOutcome else Lost)))
    case Lost => Some(Phased(s, Disabled).(fence := Finished))
    case ReadOutcome =>
      Some(s.(fence := if s.job.outcome == 0 then Watching(SawZero)
                       else if s.job.outcome == 1 then Watching(Promote)
                       else Finished))
    case SawZero => Some(s.(fence := if s.wire.stop then Finished else Watching(ReadOutcome)))
    case Promote =>
      if s.control.phase.Submitted? then Some(Staged(s, AwaitingAck, Promoted).(fence := Delivering(Send)))
      else Some(s.(fence := Looking(CheckStop)))
  }

  function DeliverStep(s: State, point: DeliverPoint, c: Choice): Option<State> {
    match point
    case Send =>
      if c.Error? then Some(s.(fence := Delivering(SendFailed)))
      else if s.wire.open && s.sessions != [] then
        var x := s.sessions[Current(s)];
        Some(WithCurrent(s, x.(toConsumer := x.toConsumer + [s.job.submitted], owed := true))
               .(control := s.control.(stage := Handed), fence := Looking(CheckStop)))
      else None
    case SendFailed => Some(Phased(s, Disabled).(fence := SendClose))
  }

  // ---------------------------------------------------------------- the socket thread

  function SocketStep(s: State, c: Choice): Option<State> {
    match s.socket
    case Between(b) => Some(BetweenStep(s, b, c))
    case Opening(o) => Some(OpenStep(s, o, c))
    case Receive => ReceiveStep(s, c)
    case Requesting(q, r) => Some(RequestStep(s, q, r, c))
    case Acking(q, a) => if s.sessions == [] then None else Some(AckStep(s, q, a))
    case Closing => Some(Closed(s).(socket := DropPending))
    case DropPending => Some(s.(wire := s.wire.(pending := false), socket := Resetting(TakeLock, ToAfterwards)))
    case Resetting(r, next) => ResetStep(s, r, next, c)
    case Ended => None
  }

  function BetweenStep(s: State, point: BetweenPoint, c: Choice): State {
    match point
    case Top =>
      if s.wire.stop then s.(socket := Ended)
      else if c.Error? then Phased(s, Disabled).(socket := Ended)
      else s.(wire := s.wire.(open := true), socket := Between(Admission))
    case Admission => if c.Error? then Closed(s).(socket := Between(Top)) else s.(socket := Between(Admitted))
    case Admitted => s.(socket := if s.control.hasImage then Resetting(TakeLock, ToCreate) else Between(CreateImage))
    case CreateImage =>
      if c.Error? then Closed(s).(socket := Resetting(TakeLock, ToExit))
      else
        s.(control := s.control.(hasImage := true), sessions := s.sessions + [FRESH_SESSION],
           socket := Opening(StoreDisconnected))
    case Afterwards =>
      if s.wire.stop then Phased(s, Disabled).(socket := Ended)
      else Phased(s, Disconnected).(socket := Between(Top))
    case ExitDisabled => Phased(s, Disabled).(socket := Ended)
  }

  function OpenStep(s: State, point: OpenPoint, c: Choice): State {
    match point
    case StoreDisconnected => Phased(s, Disconnected).(socket := Opening(Spawn))
    case Spawn => s.(fence := Looking(CheckStop), socket := Opening(Hello))
    case Hello =>
      if c.Error? then Closed(s).(socket := Resetting(TakeLock, ToTop)) else s.(socket := Opening(ZeroCounters))
    case ZeroCounters =>
      WithCall(s, s.job.call.(late := !s.present.Outside?))
        .(counts := NO_COUNTS, seen := s.seen.(clearedDuringCall := !s.present.Outside?),
          socket := Opening(StoreIdle))
    case StoreIdle => Phased(s, Idle).(socket := Receive)
  }

  // One packet, or the end of the connection.
  function ReceiveStep(s: State, c: Choice): Option<State> {
    if c.Error? then Some(s.(socket := Closing))
    else if s.sessions == [] || s.sessions[Current(s)].toProducer == [] then None
    else
      var x := s.sessions[Current(s)];
      Some(Received(WithCurrent(s, x.(toProducer := x.toProducer[1..])), x.toProducer[0]))
  }

  function Received(s: State, packet: Packet): State {
    match packet
    case Request(q) =>
      s.(counts := s.counts.(requests := s.counts.requests + 1),
         seen := s.seen.(asked := s.seen.asked + {Tag(q, |s.sessions|)}),
         socket := Requesting(q, PhaseOfRequest))
    case Ack(q) => s.(socket := Acking(q, PhaseOfAck))
  }

  // Once a request is answered, sending the status packet may fail and end the connection.
  function RequestStep(s: State, q: nat, point: RequestPoint, c: Choice): State {
    var answered := if c.Error? then Closing else Receive;
    match point
    case PhaseOfRequest =>
      s.(socket := Requesting(q, if s.control.phase.Idle? then PendingOfRequest else RefuseBusy))
    case RefuseBusy => s.(counts := s.counts.(busy := s.counts.busy + 1), socket := answered)
    case PendingOfRequest => s.(socket := Requesting(q, if s.wire.pending then Coalesce else StorePending))
    case Coalesce => s.(counts := s.counts.(coalesced := s.counts.coalesced + 1), socket := answered)
    case StorePending =>
      s.(wire := s.wire.(pendingTag := Tag(q, |s.sessions|)), socket := Requesting(q, SetPending))
    case SetPending =>
      if s.wire.pending then s.(counts := s.counts.(coalesced := s.counts.coalesced + 1), socket := answered)
      else s.(wire := s.wire.(pending := true), socket := answered)
  }

  // An ACK has been handled, whatever came of it.
  function AckHandled(s: State): State
    requires s.sessions != []
  {
    WithCurrent(s, s.sessions[Current(s)].(owed := false)).(socket := Receive)
  }

  function AckStep(s: State, q: nat, point: AckPoint): State
    requires s.sessions != []
  {
    match point
    case PhaseOfAck => if s.control.phase.AwaitingAck? then s.(socket := Acking(q, SequenceOfAck)) else AckHandled(s)
    case SequenceOfAck =>
      if q == s.job.submitted.sequence then s.(socket := Acking(q, AckStore)) else AckHandled(s)
    case AckStore => AckHandled(Staged(s, Idle, Free))
  }

  function Resumed(next: Resume): SocketPc {
    match next
    case ToTop => Between(Top)
    case ToCreate => Between(CreateImage)
    case ToAfterwards => Between(Afterwards)
    case ToExit => Between(ExitDisabled)
  }

  function ResetStep(s: State, point: ResetPoint, next: Resume, c: Choice): Option<State> {
    match point
    case TakeLock =>
      if s.control.lock.Nobody? then Some(Locked(s, SocketThread).(socket := Resetting(StoreDisabled, next)))
      else None
    case StoreDisabled => Some(Phased(s, Disabled).(socket := Resetting(Join, next)))
    case Join =>
      if s.fence.NotRunning? || s.fence.Finished? then
        Some(s.(fence := NotRunning, socket := Resetting(AwaitCopy, next)))
      else None
    case AwaitCopy =>
      var waited := s.(job := s.job.(inFlight := false), socket := Resetting(Destroy, next));
      if !s.job.inFlight || s.job.fenceSignaled then Some(waited)
      else if c.Error? then Some(waited.(seen := s.seen.(deviceLost := true)))
      else None
    case Destroy =>
      Some(s.(control := s.control.(hasImage := false, firstExport := true, stage := Free, lock := Nobody),
              job := s.job.(fenceSignaled := false, presentFence := NoFence),
              socket := Resumed(next)))
  }

  // ---------------------------------------------------------------- everything else

  // The stores of `disable`, in any order once `stop` is set, as often as it is called.
  datatype DisableStore = StopFlag | StopPhase | OutcomeTwo | CloseSocket

  function DisableStep(s: State, d: DisableStore): Option<State> {
    if d.StopFlag? then Some(s.(wire := s.wire.(stop := true)))
    else if !s.wire.stop then None
    else
      match d
      case StopPhase => Some(Phased(s, Disabled))
      case OutcomeTwo => Some(s.(job := s.job.(outcome := 2)))
      case _ => Some(Closed(s))
  }

  // The game destroys fences, among them the one the last present was given.
  function RetireStep(s: State): Option<State> {
    if s.control.lock.Nobody? && s.job.presentFence.GameFence? then
      Some(s.(job := s.job.(presentFence := NoFence)))
    else None
  }

  // The GPU starts or completes the copy into image `i`.
  function GpuMove(x: Session): Option<Session> {
    match x.copy
    case NoCopy => None
    case Queued(barrier, frame) => Some(x.(copy := Executing(frame), image := Executed(barrier, Producer)))
    case Executing(frame) =>
      Some(x.(copy := NoCopy, content := Some(frame), image := Executed(PRODUCER_RELEASE, Producer)))
  }

  // Completing the current copy signals the fence.
  function GpuStep(s: State, i: nat): Option<State> {
    if i >= |s.sessions| then None
    else
      match GpuMove(s.sessions[i])
      case None => None
      case Some(x) =>
        var signal := x.copy.NoCopy? && s.control.hasImage && i == Current(s);
        Some(s.(sessions := s.sessions[i := x],
                job := s.job.(fenceSignaled := s.job.fenceSignaled || signal)))
  }

  datatype ConsumerAction = TakeReady | BeginRead | EndRead | SendAck | SendRequest(sequence: nat) | Leave

  function ConsumerMove(x: Session, a: ConsumerAction): Option<Session> {
    match a
    case TakeReady =>
      if x.reader.Waiting? && x.toConsumer != [] then
        Some(x.(reader := Holding(x.toConsumer[0].sequence), toConsumer := x.toConsumer[1..]))
      else None
    case BeginRead =>
      if x.reader.Holding? then
        Some(x.(reader := Reading(x.reader.sequence), image := Executed(CONSUMER_ACQUIRE, Consumer)))
      else None
    case EndRead =>
      if x.reader.Reading? then
        Some(x.(reader := Done(x.reader.sequence), image := Executed(CONSUMER_RELEASE, Consumer)))
      else None
    case SendAck =>
      if x.reader.Holding? || x.reader.Done? then
        Some(x.(reader := Waiting, toProducer := x.toProducer + [Ack(x.reader.sequence)]))
      else None
    case SendRequest(q) =>
      if x.reader.Gone? || x.reader.Abandoned? then None
      else Some(x.(toProducer := x.toProducer + [Request(q)]))
    case Leave =>
      if x.reader.Reading? then Some(x.(reader := Abandoned))
      else if x.reader.Abandoned? then None
      else Some(x.(reader := Gone))
  }

  // The consumer of connection `i` moves; one whose connection the producer has dropped may still be reading.
  function ConsumerStep(s: State, i: nat, a: ConsumerAction): Option<State> {
    if i >= |s.sessions| then None
    else
      match ConsumerMove(s.sessions[i], a)
      case None => None
      case Some(x) => Some(s.(sessions := s.sessions[i := x]))
  }

  datatype Action =
    | ByPresent(choice: Choice)
    | ByFence(choice: Choice)
    | BySocket(choice: Choice)
    | ByDisable(store: DisableStore)
    | ByRetire
    | ByGpu(session: nat)
    | ByConsumer(session: nat, move: ConsumerAction)

  function Step(s: State, a: Action): Option<State> {
    match a
    case ByPresent(c) => PresentStep(s, c)
    case ByFence(c) => FenceStep(s, c)
    case BySocket(c) => SocketStep(s, c)
    case ByDisable(d) => DisableStep(s, d)
    case ByRetire => RetireStep(s)
    case ByGpu(i) => GpuStep(s, i)
    case ByConsumer(i, m) => ConsumerStep(s, i, m)
  }

  // The state after a run from the initial state, or nothing when some step was not enabled.
  function Run(actions: seq<Action>): Option<State> {
    if actions == [] then Some(INITIAL)
    else
      match Run(actions[..|actions| - 1])
      case None => None
      case Some(s) => Step(s, actions[|actions| - 1])
  }
}
