// What each record leaves in the display, field by field, read off the record alone; and what a snapshot shows.
module OverlayDisplay {
  import opened Common
  import opened Structured
  import opened OverlayConsumer

  // The text a record has at a place, if it has one.
  function TextAt(record: Value, path: seq<string>): Option<string> {
    if path != [] then
      if record.Object? && path[0] in record.fields then TextAt(record.fields[path[0]], path[1..]) else None
    else if record.Text? then Some(record.text)
    else None
  }

  function NextRevision(n: nat): nat {
    if n < 0xffff_ffff_ffff_ffff then n + 1 else n
  }

  lemma TextStep(record: Value, a: string, rest: seq<string>)
    ensures TextAt(record, [a] + rest) == TextAt(Field(record, a), rest)
  {
    assert ([a] + rest)[0] == a && ([a] + rest)[1..] == rest;
  }

  // Reading two or three levels deep is reading through the objects in between.
  lemma TextOfField(record: Value, a: string, b: string, c: string)
    ensures TextAt(record, [a]) == AsText(Field(record, a))
    ensures TextAt(record, [a, b]) == AsText(Field(Field(record, a), b))
    ensures TextAt(record, [a, b, c]) == AsText(Field(Field(Field(record, a), b), c))
  {
    TextStep(record, a, []);
    TextStep(record, a, [b]);
    TextStep(Field(record, a), b, []);
    TextStep(record, a, [b, c]);
    TextStep(Field(record, a), b, [c]);
    TextStep(Field(Field(record, a), b), c, []);
    assert [a] + [] == [a] && [a] + [b] == [a, b] && [b] + [] == [b];
    assert [a] + [b, c] == [a, b, c] && [b] + [c] == [b, c] && [c] + [] == [c];
  }

  // ---------------------------------------------------------------- results

  // The signal lamp for the status of a result: active from the first detection on, an error after a retraction.
  ghost predicate SignalShows(signal: Lamp, result: Value) {
    var status := TextAt(result, ["state", "status"]);
    && (status == Some("inactive") ==> signal == Inactive)
    && (status == Some("provisional") ==> signal == Lit)
    && (status == Some("confirmed") ==> signal == Lit)
    && (status == Some("retracted") ==> signal == Failed)
  }

  /** A result record sets the signal lamp by its status, and nothing else. */
  lemma ResultShows(v: View, record: Value, invocation: string)
    requires RecordOk(record, invocation) && TextAt(record, ["event"]) == Some("result_changed")
    ensures
      && Event(v, record).Some?
      && var w := Event(v, record).value;
         && w == v.(display := v.display.(signal := w.display.signal))
         && SignalShows(w.display.signal, record)
         && TextAt(record, ["state", "status"]) in
              {Some("inactive"), Some("provisional"), Some("confirmed"), Some("retracted")}
  {
    TextOfField(record, "event", "", "");
    TextOfField(record, "state", "status", "");
    hide ResultIdentityOk, TextAt;
  }

  // ---------------------------------------------------------------- the status

  ghost predicate DependenciesReady(status: Value) {
    && TextAt(status, ["catalog"]) == Some("ready") && TextAt(status, ["model"]) == Some("ready")
    && (TextAt(status, ["scores"]).Some? ==> TextAt(status, ["scores"]) == Some("ready"))
    && (TextAt(status, ["recording"]).Some? ==> TextAt(status, ["recording"]) == Some("ready"))
  }

  // The system lamp: lit in a session with every dependency ready, out before and after one, and an error otherwise.
  ghost predicate SystemShows(system: Lamp, status: Value) {
    var watcher := TextAt(status, ["watcher"]);
    && (watcher == Some("session_active") ==> system == if DependenciesReady(status) then Lit else Failed)
    && (watcher in {Some("starting"), Some("waiting_for_source"), Some("session_finished"), Some("stopped")} ==>
          system == Inactive)
    && (watcher in {Some("ambiguous_sources"), Some("remote_unavailable"), Some("catalog_unavailable"),
                    Some("admission_rejected")} ==>
          system == Failed)
  }

  predicate Over(status: Value) {
    TextAt(status, ["watcher"]) == Some("session_finished") || TextAt(status, ["watcher"]) == Some("stopped")
  }

  lemma StatusDecides(v: View, status: Value)
    requires StatusOk(status)
    ensures
      var w := WithStatus(v, status);
      && w == v.(session := TextAt(status, ["capture", "session_id"]),
                 display := v.display.(system := w.display.system))
      && SystemShows(w.display.system, status)
  {
    TextOfField(status, "watcher", "", "");
    TextOfField(status, "catalog", "", "");
    TextOfField(status, "model", "", "");
    TextOfField(status, "scores", "", "");
    TextOfField(status, "recording", "", "");
    TextOfField(status, "capture", "session_id", "");
    hide TextAt;
    assert forall k | k in {"catalog", "model"} :: TextIn(Field(status, k), READINESS);
    assert "scores" in {"scores", "recording"} && "recording" in {"scores", "recording"};
  }

  /** A status record sets the system lamp and the session; the end of a session also takes down the chart with its
      history and the screen; everything else stays. */
  lemma StatusShows(v: View, record: Value, invocation: string)
    requires RecordOk(record, invocation) && TextAt(record, ["event"]) == Some("status_changed")
    ensures
      && Event(v, record).Some?
      && var w, status := Event(v, record).value, Field(record, "status");
         && SystemShows(w.display.system, status)
         && w == v.(session := TextAt(status, ["capture", "session_id"]),
                    display := v.display.(system := w.display.system, chart := w.display.chart,
                                          history := w.display.history, screen := w.display.screen))
         && (Over(status) ==>
               && w.display.chart.None? && w.display.history == NoHistory
               && w.display.screen == Screen(None, None, NextRevision(v.display.screen.revision)))
         && (!Over(status) ==>
               && w.display.chart == v.display.chart && w.display.history == v.display.history
               && w.display.screen == v.display.screen)
  {
    TextOfField(record, "event", "", "");
    TextOfField(Field(record, "status"), "watcher", "", "");
    StatusDecides(v, Field(record, "status"));
    hide TextAt, WithStatus, StatusOk, SystemShows;
  }

  // ---------------------------------------------------------------- the screen

  // The screen a record shows: none, or the named one, suspended since the record was emitted or not at all.
  ghost predicate ScreenShows(screen: Screen, record: Value) {
    var state := Field(record, "state");
    if state.Null? then screen.kind.None? && screen.suspendedSince.None?
    else
      && screen.kind == TextAt(record, ["state", "screen"]) && screen.kind.Some?
      && (Field(state, "suspended") == Boolean(false) ==> screen.suspendedSince.None?)
      && (Field(state, "suspended") == Boolean(true) ==>
            && Field(record, "emitted_unix_ms").Num? && Field(record, "emitted_unix_ms").number.Integer?
            && screen.suspendedSince == Some(Field(record, "emitted_unix_ms").number.value))
  }

  /** A screen record sets the screen and moves its revision, and nothing else. */
  lemma ScreenRecordShows(v: View, record: Value, invocation: string)
    requires RecordOk(record, invocation) && TextAt(record, ["event"]) == Some("screen_state_changed")
    ensures
      && Event(v, record).Some?
      && var w := Event(v, record).value;
         && w == v.(display := v.display.(screen := w.display.screen))
         && ScreenShows(w.display.screen, record)
         && w.display.screen.revision == NextRevision(v.display.screen.revision)
  {
    TextOfField(record, "event", "", "");
    TextOfField(record, "state", "screen", "");
    hide TextAt;
  }

  // ---------------------------------------------------------------- selections

  function FirstTitle(titles: Value): string {
    if titles.Array? && titles.items != [] && titles.items[0].Text? then titles.items[0].text else ""
  }

  function Small(v: Value): Option<nat> {
    if v.Num? && v.number.Integer? && 0 <= v.number.value <= 0xffff_ffff then Some(v.number.value) else None
  }

  // The chart a selected state names, with what it shows of it.
  ghost predicate ChartShows(chart: Chart, record: Value) {
    var state := Field(record, "state");
    && TextAt(record, ["state", "scorepeek_song_id"]) == Some(chart.song)
    && TextAt(record, ["state", "play_type"]) == Some(chart.play)
    && TextAt(record, ["state", "difficulty"]) == Some(chart.difficulty)
    && chart.title == FirstTitle(Field(Field(state, "presentation"), "display_titles"))
    && (match TextAt(record, ["state", "presentation", "artist"])
        case Some(artist) => chart.artist == artist
        case None => chart.artist == "")
    && chart.level == Small(Field(state, "level")) && chart.notes == Small(Field(state, "notes"))
  }

  predicate Selects(record: Value) {
    TextAt(record, ["state", "status"]) == Some("selected")
  }

  lemma ChartIsRead(record: Value)
    requires ChartOf(Field(record, "state"), Field(Field(record, "state"), "presentation")).Some?
    ensures ChartShows(ChartOf(Field(record, "state"), Field(Field(record, "state"), "presentation")).value, record)
  {
    TextOfField(record, "state", "scorepeek_song_id", "");
    TextOfField(record, "state", "play_type", "");
    TextOfField(record, "state", "difficulty", "");
    TextOfField(record, "state", "presentation", "artist");
    hide TextAt;
  }

  /** A selection shows the chart it names, with its history only if it was the chart shown; an unresolved one leaves
      the chart; either is remembered, and nothing else changes. */
  lemma SelectionShows(v: View, record: Value, invocation: string)
    requires RecordOk(record, invocation) && TextAt(record, ["event"]) == Some("music_selection_changed")
    ensures
      && Event(v, record).Some?
      && var w := Event(v, record).value;
         && w == v.(selection := Some(record),
                    display := v.display.(chart := w.display.chart, history := w.display.history))
         && (Selects(record) ==>
               && w.display.chart.Some? && ChartShows(w.display.chart.value, record)
               && w.display.history == if w.display.chart == v.display.chart then v.display.history else NoHistory)
         && (!Selects(record) ==> w.display.chart == v.display.chart && w.display.history == v.display.history)
  {
    TextOfField(record, "event", "", "");
    TextOfField(record, "state", "status", "");
    hide TextAt;
    if Selects(record) {
      assert ChartOf(Field(record, "state"), Field(Field(record, "state"), "presentation")).Some?;
      ChartIsRead(record);
    }
    hide ChartOf, ChartShows;
  }

  // ---------------------------------------------------------------- scores, and what is skipped

  predicate Names(record: Value, chart: Chart) {
    && TextAt(record, ["chart", "scorepeek_song_id"]) == Some(chart.song)
    && TextAt(record, ["chart", "play_type"]) == Some(chart.play)
    && TextAt(record, ["chart", "difficulty"]) == Some(chart.difficulty)
  }

  /** A change of the scores moves the query revision exactly when it names the chart shown, and nothing else. */
  lemma ScoreChangeShows(v: View, record: Value, invocation: string)
    requires RecordOk(record, invocation) && TextAt(record, ["event"]) == Some("score_store_changed")
    ensures
      && Event(v, record).Some?
      && var w := Event(v, record).value;
         w == v.(queryRevision := if v.display.chart.Some? && Names(record, v.display.chart.value)
                                  then NextRevision(v.queryRevision) else v.queryRevision)
  {
    TextOfField(record, "event", "", "");
    TextOfField(record, "chart", "scorepeek_song_id", "");
    TextOfField(record, "chart", "play_type", "");
    TextOfField(record, "chart", "difficulty", "");
    hide TextAt;
  }

  const SHOWN := {
    "screen_state_changed", "music_selection_changed", "result_changed", "score_store_changed", "status_changed"}

  /** Records of every other kind, the observed bests among them, show nothing. */
  lemma OtherRecordsShowNothing(v: View, record: Value, invocation: string)
    requires RecordOk(record, invocation)
    requires TextAt(record, ["event"]).Some? && TextAt(record, ["event"]).value !in SHOWN
    ensures Event(v, record) == Some(v)
  {
    TextOfField(record, "event", "", "");
    hide TextAt;
  }

  // ---------------------------------------------------------------- a fold of retained records

  predicate OfKind(record: Value, kind: string) {
    TextAt(record, ["event"]) == Some(kind)
  }

  function LastOf(slots: seq<Value>, kind: string): Option<Value> {
    if slots == [] then None
    else if OfKind(slots[|slots| - 1], kind) then Some(slots[|slots| - 1])
    else LastOf(slots[..|slots| - 1], kind)
  }

  function CountOf(slots: seq<Value>, kind: string): nat {
    if slots == [] then 0
    else CountOf(slots[..|slots| - 1], kind) + if OfKind(slots[|slots| - 1], kind) then 1 else 0
  }

  // The last selection that names a chart.
  function LastSelected(slots: seq<Value>): Option<Value> {
    if slots == [] then None
    else
      var x := slots[|slots| - 1];
      if OfKind(x, "music_selection_changed") && Selects(x) then Some(x) else LastSelected(slots[..|slots| - 1])
  }

  const RETAINED := {
    "result_changed", "screen_state_changed", "music_selection_changed", "music_select_best_observed"}

  ghost predicate Retained(slots: seq<Value>, invocation: string) {
    forall x | x in slots :: RecordOk(x, invocation) && exists kind :: kind in RETAINED && OfKind(x, kind)
  }

  ghost predicate SignalFolds(start: View, w: View, slots: seq<Value>) {
    match LastOf(slots, "result_changed")
    case None => w.display.signal == start.display.signal
    case Some(x) => SignalShows(w.display.signal, x)
  }

  ghost predicate ScreenFolds(start: View, w: View, slots: seq<Value>) {
    && (match LastOf(slots, "screen_state_changed")
        case None => w.display.screen == start.display.screen
        case Some(x) => ScreenShows(w.display.screen, x))
    && w.display.screen.revision == start.display.screen.revision + CountOf(slots, "screen_state_changed")
  }

  ghost predicate SelectionFolds(start: View, w: View, slots: seq<Value>) {
    && (match LastOf(slots, "music_selection_changed")
        case None => w.selection == start.selection
        case Some(x) => w.selection == Some(x))
    && (match LastSelected(slots)
        case None => w.display.chart == start.display.chart
        case Some(x) => w.display.chart.Some? && ChartShows(w.display.chart.value, x))
    && w.display.history == NoHistory
  }

  ghost predicate RestStays(start: View, w: View) {
    && w.queryRevision == start.queryRevision && w.invocation == start.invocation && w.next == start.next
    && w.session == start.session && w.display.system == start.display.system
    && w.display.connected == start.display.connected
  }

  // What a fold of the records from `start` shows: of each part what the last record of its kind says.
  ghost predicate FoldShows(start: View, w: View, slots: seq<Value>) {
    SignalFolds(start, w, slots) && ScreenFolds(start, w, slots) && SelectionFolds(start, w, slots)
    && RestStays(start, w)
  }

  lemma LastAppended(front: seq<Value>, x: Value, kind: string)
    ensures LastOf(front + [x], kind) == if OfKind(x, kind) then Some(x) else LastOf(front, kind)
    ensures CountOf(front + [x], kind) == CountOf(front, kind) + if OfKind(x, kind) then 1 else 0
    ensures kind == "music_selection_changed" ==>
              LastSelected(front + [x]) == if OfKind(x, kind) && Selects(x) then Some(x) else LastSelected(front)
  {
    hide OfKind, Selects;
    assert (front + [x])[..|front + [x]| - 1] == front;
  }

  lemma AllAppended(front: seq<Value>, x: Value, kind: string)
    requires kind in RETAINED && OfKind(x, kind)
    ensures forall other | other in RETAINED ::
              && LastOf(front + [x], other) == (if other == kind then Some(x) else LastOf(front, other))
              && CountOf(front + [x], other) == CountOf(front, other) + if other == kind then 1 else 0
    ensures LastSelected(front + [x])
            == if kind == "music_selection_changed" && Selects(x) then Some(x) else LastSelected(front)
  {
    hide LastOf, CountOf, LastSelected, Selects;
    forall other | other in RETAINED ensures OfKind(x, other) <==> other == kind {}
    hide OfKind;
    LastAppended(front, x, "result_changed");
    LastAppended(front, x, "screen_state_changed");
    LastAppended(front, x, "music_selection_changed");
    LastAppended(front, x, "music_select_best_observed");
  }

  lemma ResultFolds(start: View, v: View, front: seq<Value>, x: Value, invocation: string)
    requires FoldShows(start, v, front) && RecordOk(x, invocation) && OfKind(x, "result_changed")
    ensures Event(v, x).Some? && FoldShows(start, Event(v, x).value, front + [x])
  {
    AllAppended(front, x, "result_changed");
    ResultShows(v, x, invocation);
    hide RecordOk, SignalShows, ScreenShows, ChartShows, Event, LastOf, CountOf, LastSelected, Selects, OfKind, TextAt;
  }

  lemma ScreenRecordFolds(start: View, v: View, front: seq<Value>, x: Value, invocation: string)
    requires FoldShows(start, v, front) && RecordOk(x, invocation) && OfKind(x, "screen_state_changed")
    requires v.display.screen.revision < U64_MAX
    ensures Event(v, x).Some? && FoldShows(start, Event(v, x).value, front + [x])
  {
    AllAppended(front, x, "screen_state_changed");
    ScreenRecordShows(v, x, invocation);
    hide RecordOk, SignalShows, ScreenShows, ChartShows, Event, LastOf, CountOf, LastSelected, Selects, OfKind, TextAt;
  }

  lemma SelectionRecordFolds(start: View, v: View, front: seq<Value>, x: Value, invocation: string)
    requires FoldShows(start, v, front) && RecordOk(x, invocation) && OfKind(x, "music_selection_changed")
    ensures Event(v, x).Some? && FoldShows(start, Event(v, x).value, front + [x])
  {
    AllAppended(front, x, "music_selection_changed");
    SelectionShows(v, x, invocation);
    hide RecordOk, SignalShows, ScreenShows, ChartShows, Event, LastOf, CountOf, LastSelected, Selects, OfKind, TextAt;
  }

  lemma BestFolds(start: View, v: View, front: seq<Value>, x: Value, invocation: string)
    requires FoldShows(start, v, front) && RecordOk(x, invocation) && OfKind(x, "music_select_best_observed")
    ensures Event(v, x).Some? && FoldShows(start, Event(v, x).value, front + [x])
  {
    AllAppended(front, x, "music_select_best_observed");
    OtherRecordsShowNothing(v, x, invocation);
    hide RecordOk, SignalShows, ScreenShows, ChartShows, Event, LastOf, CountOf, LastSelected, Selects, OfKind, TextAt;
  }

  lemma RevisionCounts(start: View, v: View, front: seq<Value>)
    requires FoldShows(start, v, front)
    ensures v.display.screen.revision == start.display.screen.revision + CountOf(front, "screen_state_changed")
  {
    hide SignalFolds, SelectionFolds, RestStays, CountOf, LastOf;
  }

  lemma EventShows(start: View, v: View, front: seq<Value>, x: Value, invocation: string)
    requires FoldShows(start, v, front) && Retained([x], invocation)
    requires start.display.screen.revision + |front| < U64_MAX && CountOf(front, "screen_state_changed") <= |front|
    ensures Event(v, x).Some? && FoldShows(start, Event(v, x).value, front + [x])
  {
    hide RecordOk, Event, FoldShows, OfKind, CountOf;
    assert x in [x];
    var kind :| kind in RETAINED && OfKind(x, kind);
    assert v.display.screen.revision < U64_MAX by { RevisionCounts(start, v, front); }
    if kind == "result_changed" {
      ResultFolds(start, v, front, x, invocation);
    } else if kind == "screen_state_changed" {
      ScreenRecordFolds(start, v, front, x, invocation);
    } else if kind == "music_selection_changed" {
      SelectionRecordFolds(start, v, front, x, invocation);
    } else {
      BestFolds(start, v, front, x, invocation);
    }
  }

  lemma {:induction false} CountIsBounded(slots: seq<Value>, kind: string)
    ensures CountOf(slots, kind) <= |slots|
  {
    hide OfKind;
    if slots != [] {
      CountIsBounded(slots[..|slots| - 1], kind);
    }
  }

  lemma {:induction false} RetainedFoldShows(start: View, slots: seq<Value>, invocation: string)
    requires Retained(slots, invocation) && start.display.history == NoHistory
    requires start.display.screen.revision + |slots| <= U64_MAX
    ensures Folded(start, slots).Some? && FoldShows(start, Folded(start, slots).value, slots)
  {
    hide RecordOk, OfKind, Event, SignalShows, ScreenShows, ChartShows;
    if slots != [] {
      var front, x := slots[..|slots| - 1], slots[|slots| - 1];
      assert slots == front + [x];
      assert Retained(front, invocation) && Retained([x], invocation) by {
        assert forall y | y in front :: y in slots;
        assert x in slots;
      }
      RetainedFoldShows(start, front, invocation);
      CountIsBounded(front, "screen_state_changed");
      hide FoldShows, Retained, LastOf, CountOf;
      EventShows(start, Folded(start, front).value, front, x, invocation);
    }
  }

  // ---------------------------------------------------------------- the retained records of a snapshot

  lemma {:induction false} RetainedMembers(record: Value, k: nat, x: Value)
    requires k <= |SLOTS|
    ensures x in RetainedSlots(record, k) <==>
              exists j :: 0 <= j < k && x == Field(record, SLOTS[j]) && !x.Null?
  {
    if k > 0 {
      RetainedMembers(record, k - 1, x);
      var slot := Field(record, SLOTS[k - 1]);
      if !slot.Null? {
        PlacedMembers(slot, RetainedSlots(record, k - 1), x);
      }
    }
  }

  predicate InOrder(slots: seq<Value>) {
    forall i, j | 0 <= i < j < |slots| :: SequenceOf(slots[i]) <= SequenceOf(slots[j])
  }

  lemma {:induction false} PlacedInOrder(slot: Value, slots: seq<Value>)
    requires InOrder(slots)
    ensures InOrder(Placed(slot, slots))
  {
    hide SequenceOf;
    if slots == [] {
    } else if SequenceOf(slots[|slots| - 1]) <= SequenceOf(slot) {
      assert forall i | 0 <= i < |slots| - 1 :: SequenceOf(slots[i]) <= SequenceOf(slots[|slots| - 1]);
    } else {
      var front, last := slots[..|slots| - 1], slots[|slots| - 1];
      assert forall i | 0 <= i < |front| :: front[i] == slots[i];
      PlacedInOrder(slot, front);
      var placed := Placed(slot, front);
      forall i | 0 <= i < |placed| ensures SequenceOf(placed[i]) <= SequenceOf(last) {
        PlacedMembers(slot, front, placed[i]);
        assert placed[i] in placed;
        if placed[i] != slot {
          var j :| 0 <= j < |front| && front[j] == placed[i];
          assert SequenceOf(slots[j]) <= SequenceOf(slots[|slots| - 1]);
        }
      }
      assert Placed(slot, slots) == placed + [last];
    }
  }

  /** The retained records are folded in the order they were emitted. */
  lemma {:induction false} RetainedInOrder(record: Value, k: nat)
    requires k <= |SLOTS|
    ensures InOrder(RetainedSlots(record, k))
  {
    hide SequenceOf, Placed, InOrder;
    if k > 0 {
      RetainedInOrder(record, k - 1);
      PlacedInOrder(Field(record, SLOTS[k - 1]), RetainedSlots(record, k - 1));
    } else {
      assert InOrder([]) by { EmptyInOrder(); }
    }
  }

  lemma EmptyInOrder()
    ensures InOrder([])
  {
  }

  lemma {:induction false} PlacedCount(slot: Value, slots: seq<Value>, kind: string)
    ensures CountOf(Placed(slot, slots), kind) == CountOf(slots, kind) + if OfKind(slot, kind) then 1 else 0
    ensures |Placed(slot, slots)| == |slots| + 1
  {
    hide OfKind, SequenceOf;
    if slots == [] {
      assert [slot][..0] == [];
    } else if SequenceOf(slots[|slots| - 1]) <= SequenceOf(slot) {
      assert (slots + [slot])[..|slots|] == slots;
    } else {
      var front, last := slots[..|slots| - 1], slots[|slots| - 1];
      PlacedCount(slot, front, kind);
      assert (Placed(slot, front) + [last])[..|Placed(slot, front)|] == Placed(slot, front);
    }
  }

  function KindOf(key: string): string {
    if key == "result" then "result_changed"
    else if key == "screen_state" then "screen_state_changed"
    else if key == "music_selection" then "music_selection_changed"
    else "music_select_best_observed"
  }

  // Every retained record is of the kind of its slot, so each kind occurs at most once.
  lemma SlotHasItsKind(record: Value, invocation: string, j: nat)
    requires SnapshotOk(record, invocation) && j < |SLOTS| && !Field(record, SLOTS[j]).Null?
    ensures RecordOk(Field(record, SLOTS[j]), invocation)
    ensures forall kind :: OfKind(Field(record, SLOTS[j]), kind) <==> kind == KindOf(SLOTS[j])
  {
    hide RecordOk, StatusOk;
    assert SlotOk(record, SLOTS[j], AsU64(Field(record, "next_sequence")).value, invocation);
    TextOfField(Field(record, SLOTS[j]), "event", "", "");
    hide TextAt;
  }

  lemma AllRetained(record: Value, invocation: string)
    requires SnapshotOk(record, invocation)
    ensures Retained(RetainedSlots(record, |SLOTS|), invocation)
  {
    hide RecordOk, SnapshotOk, OfKind, RetainedSlots;
    forall x | x in RetainedSlots(record, |SLOTS|)
      ensures RecordOk(x, invocation) && exists kind :: kind in RETAINED && OfKind(x, kind)
    {
      RetainedMembers(record, |SLOTS|, x);
      var j :| 0 <= j < |SLOTS| && x == Field(record, SLOTS[j]) && !x.Null?;
      SlotHasItsKind(record, invocation, j);
      assert KindOf(SLOTS[j]) in RETAINED;
    }
  }

  lemma {:induction false} SoleIsLast(slots: seq<Value>, kind: string, x: Value)
    requires x in slots && OfKind(x, kind) && forall y | y in slots && OfKind(y, kind) :: y == x
    ensures LastOf(slots, kind) == Some(x)
  {
    hide OfKind;
    var front, last := slots[..|slots| - 1], slots[|slots| - 1];
    if !OfKind(last, kind) {
      assert x in front && forall y | y in front :: y in slots;
      SoleIsLast(front, kind, x);
    } else {
      assert last in slots;
    }
  }

  lemma {:induction false} NoneIsLast(slots: seq<Value>, kind: string)
    requires forall y | y in slots :: !OfKind(y, kind)
    ensures LastOf(slots, kind) == None
  {
    hide OfKind;
    if slots != [] {
      assert forall y | y in slots[..|slots| - 1] :: y in slots;
      assert slots[|slots| - 1] in slots;
      NoneIsLast(slots[..|slots| - 1], kind);
    }
  }

  // The last retained record of a kind is the one in its slot.
  lemma LastIsTheSlot(record: Value, invocation: string, j: nat)
    requires SnapshotOk(record, invocation) && j < |SLOTS|
    ensures
      var slot := Field(record, SLOTS[j]);
      LastOf(RetainedSlots(record, |SLOTS|), KindOf(SLOTS[j])) == if slot.Null? then None else Some(slot)
  {
    hide SnapshotOk, OfKind, RetainedSlots, LastOf, RecordOk;
    var slots, slot := RetainedSlots(record, |SLOTS|), Field(record, SLOTS[j]);
    forall y | y in slots && OfKind(y, KindOf(SLOTS[j])) ensures y == slot && !slot.Null? {
      RetainedMembers(record, |SLOTS|, y);
      var i :| 0 <= i < |SLOTS| && y == Field(record, SLOTS[i]) && !y.Null?;
      SlotHasItsKind(record, invocation, i);
      assert KindOf(SLOTS[i]) == KindOf(SLOTS[j]);
      assert i == j;
    }
    if slot.Null? {
      NoneIsLast(slots, KindOf(SLOTS[j]));
    } else {
      RetainedMembers(record, |SLOTS|, slot);
      SlotHasItsKind(record, invocation, j);
      SoleIsLast(slots, KindOf(SLOTS[j]), slot);
    }
  }

  // The last retained selection that names a chart is the one in the slot, if it names one.
  lemma SelectedIsTheSlot(record: Value, invocation: string)
    requires SnapshotOk(record, invocation)
    ensures
      var slot := Field(record, "music_selection");
      LastSelected(RetainedSlots(record, |SLOTS|)) == if !slot.Null? && Selects(slot) then Some(slot) else None
  {
    hide SnapshotOk, RetainedSlots, LastOf, LastSelected, Selects;
    assert SLOTS[2] == "music_selection";
    var slots, slot := RetainedSlots(record, |SLOTS|), Field(record, "music_selection");
    forall y | y in slots && OfKind(y, "music_selection_changed") ensures y == slot && !slot.Null? {
      RetainedMembers(record, |SLOTS|, y);
      var i :| 0 <= i < |SLOTS| && y == Field(record, SLOTS[i]) && !y.Null?;
      SlotHasItsKind(record, invocation, i);
    }
    if !slot.Null? {
      RetainedMembers(record, |SLOTS|, slot);
      SlotHasItsKind(record, invocation, 2);
    }
    SoleSelected(slots, slot);
  }

  lemma {:induction false} SoleSelected(slots: seq<Value>, x: Value)
    requires forall y | y in slots && OfKind(y, "music_selection_changed") :: y == x
    ensures LastSelected(slots)
            == if x in slots && OfKind(x, "music_selection_changed") && Selects(x) then Some(x) else None
  {
    hide OfKind, Selects;
    if slots != [] {
      var front, last := slots[..|slots| - 1], slots[|slots| - 1];
      assert forall y | y in front :: y in slots;
      assert last in slots;
      SoleSelected(front, x);
      assert x in slots ==> x in front || x == last;
    }
  }

  lemma {:induction false} RetainedCount(record: Value, invocation: string, k: nat)
    requires SnapshotOk(record, invocation) && k <= |SLOTS|
    ensures CountOf(RetainedSlots(record, k), "screen_state_changed")
            == if k >= 2 && !Field(record, "screen_state").Null? then 1 else 0
    ensures |RetainedSlots(record, k)| <= k
  {
    hide SnapshotOk, OfKind, Placed, CountOf;
    if k > 0 {
      RetainedCount(record, invocation, k - 1);
      var slot := Field(record, SLOTS[k - 1]);
      if !slot.Null? {
        PlacedCount(slot, RetainedSlots(record, k - 1), "screen_state_changed");
        SlotHasItsKind(record, invocation, k - 1);
      }
    } else {
      assert CountOf([], "screen_state_changed") == 0 by { NothingCounted("screen_state_changed"); }
    }
  }

  lemma NothingCounted(kind: string)
    ensures CountOf([], kind) == 0
  {
  }

  // ---------------------------------------------------------------- a snapshot

  // The snapshot's selection record, if it has one that names a chart.
  ghost predicate SelectionIn(record: Value) {
    !Field(record, "music_selection").Null? && Selects(Field(record, "music_selection"))
  }

  predicate InSession(record: Value) {
    TextAt(record, ["status", "watcher"]) == Some("session_active")
  }

  // The chart of a snapshot: none out of a session; in one the chart of its selection, or with none of its own the one
  // shown before, if the stream and its selection record are the same.
  ghost predicate ChartAfter(v: View, w: View, record: Value, invocation: string) {
    if !InSession(record) then w.display.chart.None? && w.display.history == NoHistory
    else if SelectionIn(record) then
      && w.display.chart.Some? && ChartShows(w.display.chart.value, Field(record, "music_selection"))
      && w.display.history == NoHistory
    else if v.invocation == invocation && v.selection == Get(record, "music_selection") then
      w.display.chart == v.display.chart && w.display.history == v.display.history
    else w.display.chart.None? && w.display.history == NoHistory
  }

  ghost predicate ScreenAfter(screen: Screen, record: Value) {
    var slot := Field(record, "screen_state");
    if slot.Null? then screen == Screen(None, None, 0) else ScreenShows(screen, slot) && screen.revision == 1
  }

  function StartOf(record: Value, invocation: string): View {
    WithStatus(BLANK.(invocation := invocation, next := AsU64(Field(record, "next_sequence"))), Field(record, "status"))
  }

  lemma LastAreTheSlots(record: Value, invocation: string)
    requires SnapshotOk(record, invocation)
    ensures
      var slots := RetainedSlots(record, |SLOTS|);
      && LastOf(slots, "result_changed") == Some(Field(record, "result"))
      && LastOf(slots, "screen_state_changed")
         == (if Field(record, "screen_state").Null? then None else Some(Field(record, "screen_state")))
      && LastOf(slots, "music_selection_changed")
         == (if Field(record, "music_selection").Null? then None else Some(Field(record, "music_selection")))
  {
    assert SLOTS[0] == "result" && SLOTS[1] == "screen_state" && SLOTS[2] == "music_selection";
    assert !Field(record, "result").Null?;
    LastIsTheSlot(record, invocation, 0);
    LastIsTheSlot(record, invocation, 1);
    LastIsTheSlot(record, invocation, 2);
    hide SnapshotOk, RetainedSlots, LastOf;
  }

  lemma SlotsShow(record: Value, invocation: string)
    requires SnapshotOk(record, invocation)
    ensures
      var start := StartOf(record, invocation);
      var w := Folded(start, RetainedSlots(record, |SLOTS|));
      && w.Some?
      && SignalShows(w.value.display.signal, Field(record, "result"))
      && ScreenAfter(w.value.display.screen, record)
      && w.value.selection == (if Field(record, "music_selection").Null? then None
                               else Some(Field(record, "music_selection")))
      && (if SelectionIn(record) then
            w.value.display.chart.Some? && ChartShows(w.value.display.chart.value, Field(record, "music_selection"))
          else w.value.display.chart.None?)
      && w.value.display.history == NoHistory && RestStays(start, w.value)
  {
    var start, slots := StartOf(record, invocation), RetainedSlots(record, |SLOTS|);
    assert start.display == BLANK.display.(system := start.display.system) && start.selection.None?;
    hide SnapshotOk, StartOf, RetainedSlots, Folded, SignalShows, ScreenShows, ChartShows, Selects, LastOf, CountOf;
    hide LastSelected, Retained;
    AllRetained(record, invocation);
    RetainedCount(record, invocation, |SLOTS|);
    RetainedFoldShows(start, slots, invocation);
    LastAreTheSlots(record, invocation);
    SelectedIsTheSlot(record, invocation);
  }

  /** Everything an accepted snapshot shows comes from it: the stream position and the lamps from its status and its
      result, the screen from its screen record, and the chart from its selection, save for the one case in which the
      chart shown before is kept. */
  lemma SnapshotShows(v: View, record: Value, invocation: string)
    requires IsSnapshot(record) && Applied(v, record, invocation).Some?
    ensures
      var w, status := Applied(v, record, invocation).value, Field(record, "status");
      && w.invocation == invocation && w.next == AsU64(Field(record, "next_sequence")) && w.next.Some?
      && w.queryRevision == 0 && w.display.connected
      && w.session == TextAt(status, ["capture", "session_id"]) && SystemShows(w.display.system, status)
      && SignalShows(w.display.signal, Field(record, "result"))
      && ScreenAfter(w.display.screen, record)
      && w.selection == (if Field(record, "music_selection").Null? then None
                         else Some(Field(record, "music_selection")))
      && ChartAfter(v, w, record, invocation)
  {
    SlotsShow(record, invocation);
    StatusDecides(BLANK.(invocation := invocation, next := AsU64(Field(record, "next_sequence"))),
                  Field(record, "status"));
    TextOfField(record, "status", "watcher", "");
    hide TextAt, SignalShows, ScreenShows, ScreenAfter, ChartShows, SystemShows, WithStatus, Folded, StatusOk, SlotOk;
  }

  // ---------------------------------------------------------------- the grace period

  /** A shown screen that is not suspended survives a disconnection for exactly the grace period; one that was suspended
      before keeps counting from then; and nothing else of the display changes but the connection. */
  lemma GracePeriod(v: View, lost: int, now: int, grace: nat)
    requires v.display.screen.kind.Some?
    ensures
      var w := Expired(Disconnected(v, lost), now, grace);
      var since := if v.display.screen.suspendedSince.Some? then v.display.screen.suspendedSince.value else lost;
      && w == v.(display := v.display.(connected := false, screen := w.display.screen))
      && (w.display.screen.kind == if now < since + grace then v.display.screen.kind else None)
      && (w.display.screen.suspendedSince == if now < since + grace then Some(since) else None)
      && (w.display.screen.revision == v.display.screen.revision <==>
            (v.display.screen.suspendedSince.Some? && now < since + grace)
            || v.display.screen.revision >= 0xffff_ffff_ffff_ffff)
  {
  }

  /** A disconnection without a shown screen changes the connection only, and no time takes down a screen that is not
      suspended. */
  lemma NothingToTakeDown(v: View, lost: int, now: int, grace: nat)
    ensures v.display.screen.kind.None? ==> Disconnected(v, lost) == v.(display := v.display.(connected := false))
    ensures v.display.screen.suspendedSince.None? ==> Expired(v, now, grace) == v
  {
  }
}
