// Every kind of step keeps the invariant of the capture hand-off, one part of it at a time.
module CaptureSteps {
  import opened Common
  import opened CaptureProtocol
  import opened CaptureInvariant

  // ---------------------------------------------------------------- the present thread

  lemma TakeKeepsInv(s: State, t: State)
    requires Inv(s)
    requires s.present.Outside? && TakeStep(s) == Some(t)
    ensures Inv(t)
  {
  }

  lemma EnterKeepsProtocol(s: State, c: Choice, t: State)
    requires Protocol(s)
    requires s.present.Entering? && EnterStep(s, s.present.entering, c) == Some(t)
    ensures Protocol(t)
  {
  }

  lemma EnterKeepsImages(s: State, c: Choice, t: State)
    requires Protocol(s) && Sessions(s) && Images(s)
    requires s.present.Entering? && EnterStep(s, s.present.entering, c) == Some(t)
    ensures Sessions(t) && Images(t)
  {
    hide SessionOk, Tokens;
  }

  lemma EnterKeepsOutcomes(s: State, c: Choice, t: State)
    requires Protocol(s) && Pixels(s)
    requires s.present.Entering? && EnterStep(s, s.present.entering, c) == Some(t)
    ensures Outcomes(t) && Tracked(t)
  {
  }

  lemma EnterKeepsOrigins(s: State, c: Choice, t: State)
    requires Protocol(s) && Origins(s)
    requires s.present.Entering? && EnterStep(s, s.present.entering, c) == Some(t)
    ensures Origins(t)
  {
  }

  lemma EnterKeepsAnswers(s: State, c: Choice, t: State)
    requires Answers(s)
    requires s.present.Entering? && EnterStep(s, s.present.entering, c) == Some(t)
    ensures Answers(t)
  {
  }

  lemma EnterKeepsProvenance(s: State, c: Choice, t: State)
    requires Protocol(s) && Provenance(s)
    requires s.present.Entering? && EnterStep(s, s.present.entering, c) == Some(t)
    ensures Provenance(t)
  {
    hide Protocol, Origins, Answers, EnterStep;
    EnterKeepsOrigins(s, c, t);
    EnterKeepsAnswers(s, c, t);
  }

  lemma EnterKeepsAccounts(s: State, c: Choice, t: State)
    requires SocketThreadOk(s) && Accounts(s)
    requires s.present.Entering? && EnterStep(s, s.present.entering, c) == Some(t)
    ensures Accounts(t)
  {
  }

  lemma ExchangeKeepsCore(s: State, t: State)
    requires Protocol(s) && Pixels(s)
    requires s.present.Exchange? && t == ExchangeStep(s)
    ensures Protocol(t) && Pixels(t)
  {
  }

  lemma ExchangeKeepsBooks(s: State, t: State)
    requires Protocol(s) && Provenance(s) && Accounts(s)
    requires s.present.Exchange? && t == ExchangeStep(s)
    ensures Provenance(t) && Accounts(t)
  {
  }

  lemma PrepareKeepsProtocol(s: State, c: Choice, t: State)
    requires Protocol(s)
    requires s.present.Preparing? && PrepareStep(s, s.present.preparing, c) == Some(t)
    ensures Protocol(t)
  {
  }

  lemma PrepareKeepsImages(s: State, c: Choice, t: State)
    requires Protocol(s) && Sessions(s) && Images(s)
    requires s.present.Preparing? && PrepareStep(s, s.present.preparing, c) == Some(t)
    ensures Sessions(t) && Images(t)
  {
  }

  lemma PrepareKeepsOutcomes(s: State, c: Choice, t: State)
    requires Protocol(s) && Pixels(s)
    requires s.present.Preparing? && PrepareStep(s, s.present.preparing, c) == Some(t)
    ensures Outcomes(t) && Tracked(t)
  {
  }

  lemma PrepareKeepsOrigins(s: State, c: Choice, t: State)
    requires Protocol(s) && Origins(s)
    requires s.present.Preparing? && PrepareStep(s, s.present.preparing, c) == Some(t)
    ensures Origins(t)
  {
  }

  lemma PrepareKeepsAnswers(s: State, c: Choice, t: State)
    requires Answers(s)
    requires s.present.Preparing? && PrepareStep(s, s.present.preparing, c) == Some(t)
    ensures Answers(t)
  {
  }

  lemma PrepareKeepsProvenance(s: State, c: Choice, t: State)
    requires Protocol(s) && Provenance(s)
    requires s.present.Preparing? && PrepareStep(s, s.present.preparing, c) == Some(t)
    ensures Provenance(t)
  {
    hide Protocol, Origins, Answers, PrepareStep;
    PrepareKeepsOrigins(s, c, t);
    PrepareKeepsAnswers(s, c, t);
  }

  lemma PrepareKeepsAccounts(s: State, c: Choice, t: State)
    requires SocketThreadOk(s) && Accounts(s)
    requires s.present.Preparing? && PrepareStep(s, s.present.preparing, c) == Some(t)
    ensures Accounts(t)
  {
  }

  lemma PublishKeepsProtocol(s: State, t: State)
    requires Protocol(s)
    requires s.present.Publishing? && t == PublishStep(s, s.present.publishing)
    ensures Protocol(t)
  {
  }

  lemma PublishKeepsPixels(s: State, t: State)
    requires Protocol(s) && Pixels(s)
    requires s.present.Publishing? && t == PublishStep(s, s.present.publishing)
    ensures Pixels(t)
  {
  }

  lemma PublishKeepsProvenance(s: State, t: State)
    requires Protocol(s) && Provenance(s)
    requires s.present.Publishing? && t == PublishStep(s, s.present.publishing)
    ensures Provenance(t)
  {
  }

  lemma PublishKeepsAccounts(s: State, t: State)
    requires SocketThreadOk(s) && Accounts(s)
    requires s.present.Publishing? && t == PublishStep(s, s.present.publishing)
    ensures Accounts(t)
  {
  }

  lemma CallKeepsCore(s: State, c: Choice, t: State)
    requires Protocol(s) && Pixels(s)
    requires s.present.Presenting? && CallStep(s, s.present.presenting, c) == Some(t)
    ensures Protocol(t) && Pixels(t)
  {
  }

  lemma CallKeepsBooks(s: State, c: Choice, t: State)
    requires Protocol(s) && Provenance(s) && Accounts(s)
    requires s.present.Presenting? && CallStep(s, s.present.presenting, c) == Some(t)
    ensures Provenance(t) && Accounts(t)
  {
  }

  lemma LeaveKeepsProtocol(s: State, t: State)
    requires Protocol(s)
    requires s.present.Leaving? && t == LeaveStep(s, s.present.leaving)
    ensures Protocol(t)
  {
  }

  lemma LeaveKeepsImages(s: State, t: State)
    requires Protocol(s) && Sessions(s) && Images(s)
    requires s.present.Leaving? && t == LeaveStep(s, s.present.leaving)
    ensures Sessions(t) && Images(t)
  {
    hide SessionOk, Tokens;
  }

  lemma LeaveKeepsOutcomes(s: State, t: State)
    requires Protocol(s) && Pixels(s)
    requires s.present.Leaving? && t == LeaveStep(s, s.present.leaving)
    ensures Outcomes(t) && Tracked(t)
  {
  }

  lemma LeaveKeepsProvenance(s: State, t: State)
    requires Protocol(s) && Provenance(s)
    requires s.present.Leaving? && t == LeaveStep(s, s.present.leaving)
    ensures Provenance(t)
  {
  }

  lemma LeaveKeepsAccounts(s: State, t: State)
    requires SocketThreadOk(s) && Accounts(s)
    requires s.present.Leaving? && t == LeaveStep(s, s.present.leaving)
    ensures Accounts(t)
  {
  }

  // ---------------------------------------------------------------- the fence thread

  lemma LookKeepsCore(s: State, t: State)
    requires Protocol(s) && Pixels(s)
    requires s.fence.Looking? && t == LookStep(s, s.fence.looking)
    ensures Protocol(t) && Pixels(t)
  {
  }

  lemma LookKeepsBooks(s: State, t: State)
    requires Protocol(s) && Provenance(s) && Accounts(s)
    requires s.fence.Looking? && t == LookStep(s, s.fence.looking)
    ensures Provenance(t) && Accounts(t)
  {
  }

  lemma WatchKeepsProtocol(s: State, c: Choice, t: State)
    requires Protocol(s) && Outcomes(s)
    requires s.fence.Watching? && WatchStep(s, s.fence.watching, c) == Some(t)
    ensures Protocol(t)
  {
  }

  lemma WatchKeepsPixels(s: State, c: Choice, t: State)
    requires Protocol(s) && Pixels(s)
    requires s.fence.Watching? && WatchStep(s, s.fence.watching, c) == Some(t)
    ensures Pixels(t)
  {
  }

  lemma WatchKeepsBooks(s: State, c: Choice, t: State)
    requires Protocol(s) && Provenance(s) && Accounts(s)
    requires s.fence.Watching? && WatchStep(s, s.fence.watching, c) == Some(t)
    ensures Provenance(t) && Accounts(t)
  {
  }

  lemma DeliverKeepsCore(s: State, c: Choice, t: State)
    requires Protocol(s) && Pixels(s)
    requires s.fence.Delivering? && DeliverStep(s, s.fence.delivering, c) == Some(t)
    ensures Protocol(t) && Pixels(t)
  {
  }

  lemma DeliverKeepsBooks(s: State, c: Choice, t: State)
    requires Protocol(s) && Provenance(s) && Accounts(s)
    requires s.fence.Delivering? && DeliverStep(s, s.fence.delivering, c) == Some(t)
    ensures Provenance(t) && Accounts(t)
  {
  }

  lemma FenceCloseKeepsInv(s: State, c: Choice, t: State)
    requires Inv(s)
    requires s.fence.SendClose? && FenceStep(s, c) == Some(t)
    ensures Inv(t)
  {
  }

  // ---------------------------------------------------------------- the socket thread

  lemma BetweenKeepsProtocol(s: State, c: Choice, t: State)
    requires Protocol(s)
    requires s.socket.Between? && t == BetweenStep(s, s.socket.between, c)
    ensures Protocol(t)
  {
  }

  lemma BetweenKeepsSessions(s: State, c: Choice, t: State)
    requires Sessions(s)
    requires s.socket.Between? && t == BetweenStep(s, s.socket.between, c)
    ensures Sessions(t)
  {
    assert SessionOk(FRESH_SESSION);
    hide SessionOk;
  }

  lemma BetweenKeepsCurrent(s: State, c: Choice, t: State)
    requires Protocol(s) && Images(s)
    requires s.socket.Between? && t == BetweenStep(s, s.socket.between, c)
    ensures Images(t)
  {
  }

  lemma BetweenKeepsImages(s: State, c: Choice, t: State)
    requires Protocol(s) && Sessions(s) && Images(s)
    requires s.socket.Between? && t == BetweenStep(s, s.socket.between, c)
    ensures Sessions(t) && Images(t)
  {
    hide Protocol, Sessions, Images, BetweenStep;
    BetweenKeepsSessions(s, c, t);
    BetweenKeepsCurrent(s, c, t);
  }

  lemma BetweenKeepsOutcomes(s: State, c: Choice, t: State)
    requires Protocol(s) && Pixels(s)
    requires s.socket.Between? && t == BetweenStep(s, s.socket.between, c)
    ensures Outcomes(t) && Tracked(t)
  {
  }

  lemma BetweenKeepsOrigins(s: State, c: Choice, t: State)
    requires Protocol(s) && Provenance(s)
    requires s.socket.Between? && t == BetweenStep(s, s.socket.between, c)
    ensures Origins(t)
  {
  }

  lemma BetweenKeepsAnswers(s: State, c: Choice, t: State)
    requires Protocol(s) && Provenance(s)
    requires s.socket.Between? && t == BetweenStep(s, s.socket.between, c)
    ensures Answers(t)
  {
  }

  lemma BetweenKeepsProvenance(s: State, c: Choice, t: State)
    requires Protocol(s) && Provenance(s)
    requires s.socket.Between? && t == BetweenStep(s, s.socket.between, c)
    ensures Provenance(t)
  {
    BetweenKeepsOrigins(s, c, t);
    BetweenKeepsAnswers(s, c, t);
    hide Origins, Answers, Protocol, BetweenStep;
  }

  lemma BetweenKeepsAccounts(s: State, c: Choice, t: State)
    requires SocketThreadOk(s) && Accounts(s)
    requires s.socket.Between? && t == BetweenStep(s, s.socket.between, c)
    ensures Accounts(t)
  {
  }

  lemma OpenKeepsProtocol(s: State, c: Choice, t: State)
    requires Protocol(s)
    requires s.socket.Opening? && t == OpenStep(s, s.socket.opening, c)
    ensures Protocol(t)
  {
  }

  lemma OpenKeepsPixels(s: State, c: Choice, t: State)
    requires Protocol(s) && Pixels(s)
    requires s.socket.Opening? && t == OpenStep(s, s.socket.opening, c)
    ensures Pixels(t)
  {
  }

  lemma OpenKeepsProvenance(s: State, c: Choice, t: State)
    requires Protocol(s) && Provenance(s)
    requires s.socket.Opening? && t == OpenStep(s, s.socket.opening, c)
    ensures Provenance(t)
  {
  }

  lemma OpenKeepsAccounts(s: State, c: Choice, t: State)
    requires SocketThreadOk(s) && Accounts(s)
    requires s.socket.Opening? && t == OpenStep(s, s.socket.opening, c)
    ensures Accounts(t)
  {
  }

  lemma ReceiveKeepsCore(s: State, c: Choice, t: State)
    requires Protocol(s) && Pixels(s)
    requires s.socket.Receive? && ReceiveStep(s, c) == Some(t)
    ensures Protocol(t) && Pixels(t)
  {
    if s.sessions != [] && s.sessions[Current(s)].toProducer != [] {
      AcksFront(s.sessions[Current(s)].toProducer);
    }
  }

  lemma ReceiveKeepsBooks(s: State, c: Choice, t: State)
    requires Protocol(s) && Provenance(s) && Accounts(s)
    requires s.socket.Receive? && ReceiveStep(s, c) == Some(t)
    ensures Provenance(t) && Accounts(t)
  {
    if s.sessions != [] && s.sessions[Current(s)].toProducer != [] {
      AcksFront(s.sessions[Current(s)].toProducer);
    }
  }

  lemma RequestKeepsProtocol(s: State, c: Choice, t: State)
    requires Protocol(s)
    requires s.socket.Requesting? && t == RequestStep(s, s.socket.request, s.socket.requesting, c)
    ensures Protocol(t)
  {
  }

  lemma RequestKeepsImages(s: State, c: Choice, t: State)
    requires Protocol(s) && Images(s)
    requires s.socket.Requesting? && t == RequestStep(s, s.socket.request, s.socket.requesting, c)
    ensures Images(t)
  {
  }

  lemma RequestKeepsOutcomes(s: State, c: Choice, t: State)
    requires Protocol(s) && Sessions(s) && Outcomes(s) && Tracked(s)
    requires s.socket.Requesting? && t == RequestStep(s, s.socket.request, s.socket.requesting, c)
    ensures Sessions(t) && Outcomes(t) && Tracked(t)
  {
    hide SessionOk;
  }

  lemma RequestKeepsPixels(s: State, c: Choice, t: State)
    requires Protocol(s) && Pixels(s)
    requires s.socket.Requesting? && t == RequestStep(s, s.socket.request, s.socket.requesting, c)
    ensures Pixels(t)
  {
    RequestKeepsImages(s, c, t);
    RequestKeepsOutcomes(s, c, t);
    hide Protocol, Sessions, Images, Outcomes, Tracked, RequestStep;
  }

  lemma RequestKeepsOrigins(s: State, c: Choice, t: State)
    requires Protocol(s) && Origins(s)
    requires s.socket.Requesting? && t == RequestStep(s, s.socket.request, s.socket.requesting, c)
    ensures Origins(t)
  {
  }

  lemma RequestKeepsAnswers(s: State, c: Choice, t: State)
    requires Answers(s)
    requires s.socket.Requesting? && t == RequestStep(s, s.socket.request, s.socket.requesting, c)
    ensures Answers(t)
  {
  }

  lemma RequestKeepsProvenance(s: State, c: Choice, t: State)
    requires Protocol(s) && Provenance(s)
    requires s.socket.Requesting? && t == RequestStep(s, s.socket.request, s.socket.requesting, c)
    ensures Provenance(t)
  {
    hide Protocol, Origins, Answers, RequestStep;
    RequestKeepsOrigins(s, c, t);
    RequestKeepsAnswers(s, c, t);
  }

  lemma RequestKeepsAccounts(s: State, c: Choice, t: State)
    requires SocketThreadOk(s) && Accounts(s)
    requires s.socket.Requesting? && t == RequestStep(s, s.socket.request, s.socket.requesting, c)
    ensures Accounts(t)
  {
  }

  lemma AckKeepsProtocol(s: State, t: State)
    requires Protocol(s)
    requires s.sessions != [] && s.socket.Acking? && t == AckStep(s, s.socket.ack, s.socket.acking)
    ensures Protocol(t)
  {
  }

  lemma AckKeepsPixels(s: State, t: State)
    requires Protocol(s) && Pixels(s)
    requires s.sessions != [] && s.socket.Acking? && t == AckStep(s, s.socket.ack, s.socket.acking)
    ensures Pixels(t)
  {
  }

  lemma AckKeepsOrigins(s: State, t: State)
    requires Protocol(s) && Provenance(s)
    requires s.sessions != [] && s.socket.Acking? && t == AckStep(s, s.socket.ack, s.socket.acking)
    ensures Origins(t)
  {
  }

  lemma AckKeepsAnswers(s: State, t: State)
    requires Protocol(s) && Provenance(s)
    requires s.sessions != [] && s.socket.Acking? && t == AckStep(s, s.socket.ack, s.socket.acking)
    ensures Answers(t)
  {
  }

  lemma AckKeepsProvenance(s: State, t: State)
    requires Protocol(s) && Provenance(s)
    requires s.sessions != [] && s.socket.Acking? && t == AckStep(s, s.socket.ack, s.socket.acking)
    ensures Provenance(t)
  {
    AckKeepsOrigins(s, t);
    AckKeepsAnswers(s, t);
    hide Origins, Answers, Protocol, AckStep;
  }

  lemma AckKeepsAccounts(s: State, t: State)
    requires SocketThreadOk(s) && Accounts(s)
    requires s.sessions != [] && s.socket.Acking? && t == AckStep(s, s.socket.ack, s.socket.acking)
    ensures Accounts(t)
  {
  }

  lemma ResetKeepsProtocol(s: State, c: Choice, t: State)
    requires Protocol(s)
    requires s.socket.Resetting? && ResetStep(s, s.socket.resetting, s.socket.next, c) == Some(t)
    ensures Protocol(t)
  {
  }

  lemma ResetKeepsImages(s: State, c: Choice, t: State)
    requires Protocol(s) && Sessions(s) && Images(s)
    requires s.socket.Resetting? && ResetStep(s, s.socket.resetting, s.socket.next, c) == Some(t)
    ensures Sessions(t) && Images(t)
  {
    hide SessionOk, Tokens;
  }

  lemma ResetKeepsOutcomes(s: State, c: Choice, t: State)
    requires Protocol(s) && Pixels(s)
    requires s.socket.Resetting? && ResetStep(s, s.socket.resetting, s.socket.next, c) == Some(t)
    ensures Outcomes(t) && Tracked(t)
  {
  }

  lemma ResetKeepsProvenance(s: State, c: Choice, t: State)
    requires Protocol(s) && Provenance(s)
    requires s.socket.Resetting? && ResetStep(s, s.socket.resetting, s.socket.next, c) == Some(t)
    ensures Provenance(t)
  {
  }

  lemma ResetKeepsAccounts(s: State, c: Choice, t: State)
    requires SocketThreadOk(s) && Accounts(s)
    requires s.socket.Resetting? && ResetStep(s, s.socket.resetting, s.socket.next, c) == Some(t)
    ensures Accounts(t)
  {
  }

  lemma SocketCloseKeepsCore(s: State, c: Choice, t: State)
    requires Protocol(s) && Pixels(s)
    requires (s.socket.Closing? || s.socket.DropPending?) && SocketStep(s, c) == Some(t)
    ensures Protocol(t) && Pixels(t)
  {
  }

  lemma SocketCloseKeepsBooks(s: State, c: Choice, t: State)
    requires Protocol(s) && Provenance(s) && Accounts(s)
    requires (s.socket.Closing? || s.socket.DropPending?) && SocketStep(s, c) == Some(t)
    ensures Provenance(t) && Accounts(t)
  {
  }

  // ---------------------------------------------------------------- everything else

  lemma DisableKeepsCore(s: State, d: DisableStore, t: State)
    requires Protocol(s) && Pixels(s)
    requires DisableStep(s, d) == Some(t)
    ensures Protocol(t) && Pixels(t)
  {
  }

  lemma DisableKeepsBooks(s: State, d: DisableStore, t: State)
    requires Protocol(s) && Provenance(s) && Accounts(s)
    requires DisableStep(s, d) == Some(t)
    ensures Provenance(t) && Accounts(t)
  {
  }

  lemma RetireKeepsInv(s: State, t: State)
    requires Inv(s)
    requires RetireStep(s) == Some(t)
    ensures Inv(t)
  {
  }

  lemma GpuKeepsInv(s: State, i: nat, t: State)
    requires Inv(s)
    requires GpuStep(s, i) == Some(t)
    ensures Inv(t)
  {
  }

  lemma MoveKeepsTokens(x: Session, m: ConsumerAction, y: Session)
    requires ConsumerMove(x, m) == Some(y)
    ensures Tokens(y) <= Tokens(x)
    ensures Engaged(y.reader) && !Engaged(x.reader) ==> x.toConsumer != []
  {
    match m
    case TakeReady =>
    case BeginRead =>
    case EndRead =>
    case SendAck =>
    case SendRequest(q) =>
    case Leave =>
  }

  lemma OnItsWayIsOwed(x: Session)
    requires SessionOk(x) && (Engaged(x.reader) || x.toConsumer != [])
    ensures x.owed
  {
  }

  lemma MoveKeepsSession(x: Session, m: ConsumerAction, y: Session)
    requires SessionOk(x) && ConsumerMove(x, m) == Some(y)
    ensures SessionOk(y) && y.owed == x.owed && y.copy == x.copy && y.content == x.content
    ensures y.image == x.image || (x.owed && (y.image == SHARED || y.image == LENT))
    ensures Tokens(y) <= Tokens(x)
  {
    MoveKeepsTokens(x, m, y);
    if Engaged(x.reader) || x.toConsumer != [] {
      OnItsWayIsOwed(x);
    }
    hide Acks, Tokens;
    match m
    case TakeReady =>
    case BeginRead =>
    case EndRead =>
    case SendAck =>
    case SendRequest(q) =>
    case Leave =>
  }

  lemma ConsumerKeepsProtocol(s: State, i: nat, m: ConsumerAction, t: State)
    requires Protocol(s)
    requires ConsumerStep(s, i, m) == Some(t)
    ensures Protocol(t)
  {
  }

  lemma ConsumerKeepsImages(s: State, i: nat, m: ConsumerAction, t: State)
    requires Protocol(s) && Sessions(s) && Images(s)
    requires ConsumerStep(s, i, m) == Some(t)
    ensures Sessions(t) && Images(t)
  {
    MoveKeepsSession(s.sessions[i], m, t.sessions[i]);
    hide SessionOk, Tokens, ConsumerMove;
  }

  lemma ConsumerKeepsOutcomes(s: State, i: nat, m: ConsumerAction, t: State)
    requires Protocol(s) && Pixels(s)
    requires ConsumerStep(s, i, m) == Some(t)
    ensures Outcomes(t) && Tracked(t)
  {
  }

  lemma ConsumerKeepsBooks(s: State, i: nat, m: ConsumerAction, t: State)
    requires Protocol(s) && Provenance(s) && Accounts(s)
    requires ConsumerStep(s, i, m) == Some(t)
    ensures Provenance(t) && Accounts(t)
  {
  }
}
