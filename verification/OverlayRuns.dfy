// Whole runs of the overlay consumer: which live records a stream can contribute.
module OverlayRuns {
  import opened Common
  import opened Structured
  import opened OverlayConsumer

  datatype Op =
    | Apply(record: Value, invocation: string)
    | Disconnect(at: int)
    | Expire(at: int, grace: nat)

  predicate Accepted(v: View, op: Op) {
    op.Apply? && Applied(v, op.record, op.invocation).Some?
  }

  predicate AcceptedSnapshot(v: View, op: Op) {
    Accepted(v, op) && IsSnapshot(op.record)
  }

  predicate AcceptedLive(v: View, op: Op) {
    Accepted(v, op) && IsLive(op.record)
  }

  // A refused record leaves the view as it is.
  function Step(v: View, op: Op): View {
    match op
    case Apply(record, invocation) =>
      (match Applied(v, record, invocation) case None => v case Some(w) => w)
    case Disconnect(at) => Disconnected(v, at)
    case Expire(at, grace) => Expired(v, at, grace)
  }

  function After(v: View, ops: seq<Op>): View
    decreases |ops|
  {
    if ops == [] then v else After(Step(v, ops[0]), ops[1..])
  }

  predicate NoSnapshot(v: View, ops: seq<Op>)
    decreases |ops|
  {
    ops == [] || (!AcceptedSnapshot(v, ops[0]) && NoSnapshot(Step(v, ops[0]), ops[1..]))
  }

  // The sequence numbers of the live records a run accepts, in order.
  function Live(v: View, ops: seq<Op>): seq<nat>
    decreases |ops|
  {
    if ops == [] then []
    else
      var rest := Live(Step(v, ops[0]), ops[1..]);
      if AcceptedLive(v, ops[0]) then [SequenceOf(ops[0].record)] + rest else rest
  }

  // What one step does to the stream position.
  lemma StreamStep(v: View, op: Op)
    requires !AcceptedSnapshot(v, op)
    ensures AcceptedLive(v, op) ==>
              && v.display.connected && v.next == Some(SequenceOf(op.record)) && Step(v, op).display.connected
              && Step(v, op).next == if v.next.value < U64_MAX then Some(v.next.value + 1) else None
    ensures !AcceptedLive(v, op) ==> Step(v, op).next == v.next
    ensures !v.display.connected ==> !AcceptedLive(v, op) && !Step(v, op).display.connected
  {
    hide RecordOk, SnapshotOk, Event, Replaced;
    if op.Apply? && Applied(v, op.record, op.invocation).Some? {
      assert IsLive(op.record) && LiveOk(v, op.record, op.invocation);
    }
  }

  /** Between snapshots the accepted live records are exactly consecutive, from the position the view holds. */
  lemma {:induction false} LiveIsConsecutive(v: View, ops: seq<Op>)
    requires NoSnapshot(v, ops)
    ensures Live(v, ops) != [] ==> v.display.connected && v.next.Some?
    ensures forall i | 0 <= i < |Live(v, ops)| :: Live(v, ops)[i] == v.next.value + i
    decreases |ops|
  {
    hide Applied, IsLive, IsSnapshot, SequenceOf;
    if ops != [] {
      StreamStep(v, ops[0]);
      LiveIsConsecutive(Step(v, ops[0]), ops[1..]);
    }
  }

  /** After a disconnect no live record is accepted until a snapshot is. */
  lemma {:induction false} NothingAfterDisconnect(v: View, at: int, ops: seq<Op>)
    requires NoSnapshot(v, [Disconnect(at)] + ops)
    ensures Live(v, [Disconnect(at)] + ops) == []
    ensures !After(v, [Disconnect(at)] + ops).display.connected
  {
    var run := [Disconnect(at)] + ops;
    assert run[1..] == ops;
    StaysDisconnected(Disconnected(v, at), ops);
  }

  lemma {:induction false} StaysDisconnected(v: View, ops: seq<Op>)
    requires !v.display.connected && NoSnapshot(v, ops)
    ensures Live(v, ops) == [] && !After(v, ops).display.connected
    decreases |ops|
  {
    hide Applied, IsLive, IsSnapshot, SequenceOf;
    if ops != [] {
      StreamStep(v, ops[0]);
      StaysDisconnected(Step(v, ops[0]), ops[1..]);
    }
  }

  lemma {:induction false} FoldKeepsStream(v: View, slots: seq<Value>)
    requires Folded(v, slots).Some?
    ensures Folded(v, slots).value.next == v.next && Folded(v, slots).value.invocation == v.invocation
  {
    hide Event;
    if slots != [] {
      FoldKeepsStream(v, slots[..|slots| - 1]);
      EventKeepsStream(Folded(v, slots[..|slots| - 1]).value, slots[|slots| - 1]);
    }
  }

  // An accepted snapshot opens the stream at the position it names.
  lemma SnapshotOpens(v: View, record: Value, invocation: string)
    requires AcceptedSnapshot(v, Apply(record, invocation))
    ensures
      var w := Step(v, Apply(record, invocation));
      w.display.connected && w.invocation == invocation && w.next.Some?
      && w.next == AsU64(Field(record, "next_sequence"))
  {
    hide RecordOk, StatusOk, Event, Folded;
    var start := WithStatus(BLANK.(invocation := invocation, next := AsU64(Field(record, "next_sequence"))),
                            Field(record, "status"));
    FoldKeepsStream(start, RetainedSlots(record, |SLOTS|));
  }

  /** After a snapshot the accepted live records are numbered from its `next_sequence`, without gap or repeat. */
  lemma {:induction false} LiveFollowsSnapshot(v: View, record: Value, invocation: string, ops: seq<Op>)
    requires AcceptedSnapshot(v, Apply(record, invocation))
    requires NoSnapshot(Step(v, Apply(record, invocation)), ops)
    ensures
      var live := Live(Step(v, Apply(record, invocation)), ops);
      forall i | 0 <= i < |live| :: live[i] == AsU64(Field(record, "next_sequence")).value + i
  {
    SnapshotOpens(v, record, invocation);
    LiveIsConsecutive(Step(v, Apply(record, invocation)), ops);
  }

  /** Live records carry the invocation of the snapshot that opened their stream. */
  lemma {:induction false} LiveKeepsInvocation(v: View, ops: seq<Op>)
    requires NoSnapshot(v, ops)
    ensures After(v, ops).invocation == v.invocation
    ensures forall i | 0 <= i < |ops| && AcceptedLive(After(v, ops[..i]), ops[i]) :: ops[i].invocation == v.invocation
    decreases |ops|
  {
    hide RecordOk, Event;
    if ops != [] {
      var w := Step(v, ops[0]);
      InvocationStep(v, ops[0]);
      LiveKeepsInvocation(w, ops[1..]);
      forall i | 0 <= i < |ops| && AcceptedLive(After(v, ops[..i]), ops[i])
        ensures ops[i].invocation == v.invocation
      {
        hide Applied, AcceptedLive;
        if i > 0 {
          assert ops[..i][1..] == ops[1..][..i - 1];
          assert ops[1..][i - 1] == ops[i];
        } else {
          assert ops[..0] == [];
        }
      }
    }
  }

  lemma InvocationStep(v: View, op: Op)
    requires !AcceptedSnapshot(v, op)
    ensures Step(v, op).invocation == v.invocation
    ensures AcceptedLive(v, op) ==> op.invocation == v.invocation
  {
    if op.Apply? && Applied(v, op.record, op.invocation).Some? && IsLive(op.record) {
      EventKeepsStream(v, op.record);
    }
  }

  /** Away from a snapshot, the screen shown changes only together with its revision. */
  lemma ScreenChangesAreNumbered(v: View, op: Op)
    requires !AcceptedSnapshot(v, op) && v.display.screen.revision < U64_MAX
    ensures
      var before, after := v.display.screen, Step(v, op).display.screen;
      after == before || after.revision == before.revision + 1
  {
    if op.Apply? && Applied(v, op.record, op.invocation).Some? && IsLive(op.record) {
      hide RecordOk;
      EventNumbersScreen(v, op.record);
    }
  }

  lemma EventNumbersScreen(v: View, record: Value)
    requires v.display.screen.revision < U64_MAX && Event(v, record).Some?
    ensures
      var before, after := v.display.screen, Event(v, record).value.display.screen;
      after == before || after.revision == before.revision + 1
  {
  }
}
