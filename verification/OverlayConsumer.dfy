// The overlay's fold of public snapshot and live records, and the validation in front of it.
module OverlayConsumer {
  import opened Common
  import opened Structured

  const U64_MAX: int := 0xffff_ffff_ffff_ffff
  const U32_MAX: int := 0xffff_ffff

  // ---------------------------------------------------------------- looking into a record

  function Get(v: Value, key: string): Option<Value> {
    if v.Object? && key in v.fields then Some(v.fields[key]) else None
  }

  // Indexing gives null for what is not there.
  function Field(v: Value, key: string): Value {
    if v.Object? && key in v.fields then v.fields[key] else Null
  }

  function AsText(v: Value): Option<string> {
    if v.Text? then Some(v.text) else None
  }

  function AsU64(v: Value): Option<nat> {
    if v.Num? && v.number.Integer? && 0 <= v.number.value <= U64_MAX then Some(v.number.value) else None
  }

  function AsI64(v: Value): Option<int> {
    if v.Num? && IsI64(v.number) then Some(v.number.value) else None
  }

  predicate HasText(v: Value, key: string) {
    Field(v, key).Text?
  }

  predicate HasNumber(v: Value, key: string) {
    AsU64(Field(v, key)).Some?
  }

  predicate TextIs(v: Value, text: string) {
    v == Text(text)
  }

  predicate TextIn(v: Value, texts: set<string>) {
    v.Text? && v.text in texts
  }

  // ---------------------------------------------------------------- validation

  predicate CaptureOk(capture: Value) {
    capture.Null?
    || (capture.Object? && capture.fields.Keys == {"session_id"} && Field(capture, "session_id").Text?
        && Field(capture, "session_id").text != "")
  }

  const SCREENS := {"music_select", "mode_select", "decide_transition", "play", "result"}

  predicate ScreenOk(record: Value) {
    match Get(record, "state")
    case None => false
    case Some(state) =>
      state.Null?
      || (HasNumber(state, "screen_episode_id") && TextIn(Field(state, "screen"), SCREENS)
          && Field(state, "suspended").Boolean?)
  }

  predicate PlaySideOk(v: Value) {
    TextIn(v, {"one_player", "two_player"})
  }

  predicate ChartOk(v: Value) {
    HasText(v, "scorepeek_song_id") && HasText(v, "play_type") && HasText(v, "difficulty")
  }

  predicate SongOk(song: Value) {
    && !song.Null? && HasText(song, "scorepeek_song_id") && HasText(song, "artist")
    && var titles := Field(song, "display_titles");
       titles.Array? && titles.items != [] && forall t | t in titles.items :: t.Text? && t.text != ""
  }

  predicate SupplementalOk(v: Value, previous: bool, knownText: bool) {
    var status := Field(v, "status");
    || (TextIs(status, "known")
        && if knownText then Field(v, "value").Text? else AsU64(Field(v, "value")).Some?)
    || (TextIs(status, "unknown") && HasText(v, "reason"))
    || TextIs(status, "not_displayed")
    || (previous && TextIs(status, "not_played"))
  }

  predicate HasKeys(v: Value, keys: set<string>) {
    v.Object? && keys <= v.fields.Keys
  }

  predicate PlayOptionsOk(v: Value) {
    var status := Field(v, "status");
    || (TextIs(status, "known") && Field(v, "values").Array? && forall x | x in Field(v, "values").items :: x.Text?)
    || (TextIs(status, "unknown") && HasText(v, "reason"))
  }

  predicate ResultPayloadOk(r: Value) {
    var judgments, timing, best := Field(r, "judgments"), Field(r, "timing"), Field(r, "previous_best");
    && TextIs(Field(r, "contract"), "scorepeek-result-detected-v4")
    && HasNumber(r, "attempt_id") && HasNumber(r, "level") && HasNumber(r, "notes") && HasNumber(r, "current_score")
    && HasText(r, "scorepeek_song_id") && HasText(r, "play_type") && PlaySideOk(Field(r, "play_side"))
    && HasText(r, "play_mode") && HasText(r, "difficulty") && HasText(r, "clear_type")
    && HasKeys(judgments, {"pgreat", "great", "good", "bad", "poor"}) && HasKeys(timing, {"fast", "slow"})
    && HasKeys(best, {"score", "miss_count", "clear_type"})
    && (forall k | k in {"pgreat", "great", "good", "bad", "poor"} :: HasNumber(judgments, k))
    && SupplementalOk(Field(r, "miss_count"), false, false)
    && SupplementalOk(Field(timing, "fast"), false, false) && SupplementalOk(Field(timing, "slow"), false, false)
    && SupplementalOk(Field(r, "combo_break"), false, false)
    && SupplementalOk(Field(best, "score"), true, false) && SupplementalOk(Field(best, "miss_count"), true, false)
    && SupplementalOk(Field(best, "clear_type"), true, true)
    && PlayOptionsOk(Field(r, "play_options"))
  }

  predicate ResultIdentityOk(record: Value, state: Value) {
    && (var session := Field(Field(record, "capture"), "session_id"); session.Text? && session.text != "")
    && Get(state, "song").Some? && SongOk(Field(state, "song")) && ResultPayloadOk(Field(state, "result"))
    && Field(Field(state, "song"), "scorepeek_song_id") == Field(Field(state, "result"), "scorepeek_song_id")
  }

  predicate ResultOk(record: Value) {
    var state := Field(record, "state");
    var status := Field(state, "status");
    && HasNumber(record, "source_sequence")
    && (|| TextIs(status, "inactive")
        || (TextIn(status, {"provisional", "confirmed"}) && ResultIdentityOk(record, state))
        || (TextIs(status, "retracted")
            && TextIn(Field(state, "reason"),
                      {"evidence_unresolved", "panel_side_conflict", "attempt_rejected", "session_ended"})
            && ResultIdentityOk(record, state)))
  }

  predicate SelectionOk(record: Value) {
    var state := Field(record, "state");
    var status := Field(state, "status");
    && HasNumber(record, "screen_episode_id") && HasNumber(record, "source_sequence") && HasNumber(record, "revision")
    && (|| (TextIs(status, "selected") && ChartOk(state) && PlaySideOk(Field(state, "play_side"))
            && Field(state, "presentation").Object?)
        || (TextIs(status, "unresolved") && HasText(state, "reason")))
  }

  predicate SelectBestOk(record: Value) {
    match Get(record, "snapshot")
    case None => false
    case Some(s) =>
      s.Null?
      || (&& TextIs(Field(s, "contract"), "scorepeek-music-select-best-snapshot-v4")
          && HasNumber(s, "revision") && HasText(s, "observation_id")
          && ChartOk(Field(s, "chart")) && PlaySideOk(Field(Field(s, "chart"), "play_side"))
          && forall k | k in {"score", "miss_count", "clear_type"} :: Field(Field(s, "values"), k).Object?)
  }

  const WATCHERS := {
    "starting", "waiting_for_source", "ambiguous_sources", "remote_unavailable", "catalog_unavailable",
    "admission_rejected", "session_active", "session_finished", "stopped"}

  const READINESS := {"not_ready", "ready", "unavailable"}

  predicate StatusOk(status: Value) {
    && HasKeys(status, {"watcher", "capture", "catalog", "model", "scores", "recording", "last_session_outcome"})
    && CaptureOk(Field(status, "capture")) && TextIn(Field(status, "watcher"), WATCHERS)
    && (forall k | k in {"catalog", "model"} :: TextIn(Field(status, k), READINESS))
    && (forall k | k in {"scores", "recording"} :: Field(status, k).Null? || TextIn(Field(status, k), READINESS))
    && (Field(status, "last_session_outcome").Null?
        || TextIn(Field(status, "last_session_outcome"), {"stopped", "source_ended", "error"}))
  }

  predicate EnvelopeOk(record: Value, invocation: string) {
    && TextIs(Field(record, "schema"), "scorepeek-event-v5") && TextIs(Field(record, "invocation_id"), invocation)
    && HasNumber(record, "sequence") && HasText(record, "event_id") && Field(record, "event_id").text != ""
    && HasNumber(record, "emitted_monotonic_ms") && AsI64(Field(record, "emitted_unix_ms")).Some?
    && Get(record, "capture").Some? && CaptureOk(Field(record, "capture")) && HasText(record, "event")
  }

  predicate RecordOk(record: Value, invocation: string) {
    && EnvelopeOk(record, invocation)
    && var event := Field(record, "event").text;
       if event == "screen_state_changed" then ScreenOk(record)
       else if event == "result_changed" then ResultOk(record)
       else if event == "music_selection_changed" then SelectionOk(record)
       else if event == "music_select_best_observed" then SelectBestOk(record)
       else if event == "status_changed" then StatusOk(Field(record, "status"))
       else if event == "score_store_changed" then HasNumber(record, "revision") && ChartOk(Field(record, "chart"))
       else true
  }

  // ---------------------------------------------------------------- the display

  datatype Lamp = Inactive | Lit | Failed

  datatype Chart = Chart(
    song: string,
    play: string,
    difficulty: string,
    title: string,
    artist: string,
    level: Option<nat>,
    notes: Option<nat>)

  // The play history shown for the chart; queried elsewhere.
  datatype History = NoHistory | Queried(id: nat)

  datatype Screen = Screen(kind: Option<string>, suspendedSince: Option<int>, revision: nat)

  datatype Display = Display(
    connected: bool,
    chart: Option<Chart>,
    history: History,
    system: Lamp,
    signal: Lamp,
    screen: Screen)

  datatype View = View(
    display: Display,
    queryRevision: nat,
    invocation: string,
    next: Option<nat>,
    selection: Option<Value>,
    session: Option<string>)

  const BLANK :=
    View(Display(false, None, NoHistory, Inactive, Inactive, Screen(None, None, 0)), 0, "", None, None, None)

  function Saturating(n: nat): nat {
    if n < U64_MAX then n + 1 else n
  }

  function NarrowU32(n: Option<nat>): Option<nat> {
    if n.Some? && n.value <= U32_MAX then n else None
  }

  function TextOr(v: Value, other: string): string {
    if v.Text? then v.text else other
  }

  // The chart of a selection, if it names one.
  function ChartOf(v: Value, presentation: Value): Option<Chart> {
    if !ChartOk(v) then None
    else
      var titles := Field(presentation, "display_titles");
      Some(Chart(
        Field(v, "scorepeek_song_id").text, Field(v, "play_type").text, Field(v, "difficulty").text,
        if titles.Array? && titles.items != [] then TextOr(titles.items[0], "") else "",
        TextOr(Field(presentation, "artist"), ""),
        NarrowU32(AsU64(Field(v, "level"))), NarrowU32(AsU64(Field(v, "notes")))))
  }

  function WithStatus(v: View, status: Value): View {
    var session := AsText(Field(Field(status, "capture"), "session_id"));
    var ready :=
      && TextIs(Field(status, "catalog"), "ready") && TextIs(Field(status, "model"), "ready")
      && (Field(status, "scores").Null? || TextIs(Field(status, "scores"), "ready"))
      && (Field(status, "recording").Null? || TextIs(Field(status, "recording"), "ready"));
    var watcher := Field(status, "watcher");
    var lamp := if TextIs(watcher, "session_active") && ready then Lit
                else if TextIn(watcher, {"starting", "waiting_for_source", "session_finished", "stopped"}) then Inactive
                else Failed;
    v.(session := session, display := v.display.(system := lamp))
  }

  function OnScreen(v: View, record: Value): Option<View> {
    var screen := v.display.screen;
    var state := Field(record, "state");
    if state.Null? then
      Some(v.(display := v.display.(screen := Screen(None, None, Saturating(screen.revision)))))
    else if TextIn(Field(state, "screen"), SCREENS) && Field(state, "suspended").Boolean? then
      var since := if Field(state, "suspended").truth then AsI64(Field(record, "emitted_unix_ms")) else None;
      Some(v.(display := v.display.(
                screen := Screen(Some(Field(state, "screen").text), since, Saturating(screen.revision)))))
    else None
  }

  function OnSelection(v: View, record: Value): Option<View> {
    var state := Field(record, "state");
    var kept := v.(selection := Some(record));
    if TextIs(Field(state, "status"), "selected") then
      match ChartOf(state, Field(state, "presentation"))
      case None => None
      case Some(chart) =>
        var history := if v.display.chart == Some(chart) then v.display.history else NoHistory;
        Some(kept.(display := v.display.(chart := Some(chart), history := history)))
    else if TextIs(Field(state, "status"), "unresolved") then Some(kept)
    else None
  }

  function OnResult(v: View, record: Value): Option<View> {
    var status := Field(Field(record, "state"), "status");
    if TextIs(status, "inactive") then Some(v.(display := v.display.(signal := Inactive)))
    else if TextIn(status, {"provisional", "confirmed"}) then Some(v.(display := v.display.(signal := Lit)))
    else if TextIs(status, "retracted") then Some(v.(display := v.display.(signal := Failed)))
    else None
  }

  function OnScoreStore(v: View, record: Value): Option<View> {
    if !HasNumber(record, "revision") then None
    else
      var chart := Field(record, "chart");
      var shown := v.display.chart;
      if shown.Some? && TextIs(Field(chart, "scorepeek_song_id"), shown.value.song)
         && TextIs(Field(chart, "play_type"), shown.value.play)
         && TextIs(Field(chart, "difficulty"), shown.value.difficulty) then
        Some(v.(queryRevision := Saturating(v.queryRevision)))
      else Some(v)
  }

  function OnStatus(v: View, record: Value): View {
    var status := Field(record, "status");
    var updated := WithStatus(v, status);
    if TextIn(Field(status, "watcher"), {"session_finished", "stopped"}) then
      updated.(display := updated.display.(chart := None, history := NoHistory,
                                           screen := Screen(None, None, Saturating(v.display.screen.revision))))
    else updated
  }

  // `event`: the view after one record, or nothing when a field it needs is missing.
  function Event(v: View, record: Value): Option<View> {
    if !HasText(record, "event") then None
    else
      var event := Field(record, "event").text;
      if event == "screen_state_changed" then OnScreen(v, record)
      else if event == "music_selection_changed" then OnSelection(v, record)
      else if event == "result_changed" then OnResult(v, record)
      else if event == "score_store_changed" then OnScoreStore(v, record)
      else if event == "status_changed" then Some(OnStatus(v, record))
      else Some(v)
  }

  /** Validation covers the fold: a record it accepts is folded into any view. */
  lemma ValidRecordFolds(v: View, record: Value, invocation: string)
    requires RecordOk(record, invocation)
    ensures Event(v, record).Some?
  {
  }

  /** No event touches the sequence, the invocation or the connection. */
  lemma EventKeepsStream(v: View, record: Value)
    requires Event(v, record).Some?
    ensures
      var w := Event(v, record).value;
      w.next == v.next && w.invocation == v.invocation && w.display.connected == v.display.connected
  {
  }

  // ---------------------------------------------------------------- one record

  const SLOTS := ["result", "screen_state", "music_selection", "music_select_best"]

  function SlotEvent(key: string): string {
    if key == "result" then "result_changed"
    else if key == "screen_state" then "screen_state_changed"
    else if key == "music_selection" then "music_selection_changed"
    else "music_select_best_observed"
  }

  predicate SlotOk(record: Value, key: string, next: nat, invocation: string) {
    var slot := Field(record, key);
    slot.Null?
    || (&& TextIs(Field(slot, "event"), SlotEvent(key))
        && AsU64(Field(slot, "sequence")).Some? && AsU64(Field(slot, "sequence")).value < next
        && RecordOk(slot, invocation))
  }

  function SequenceOf(slot: Value): nat {
    match AsU64(Field(slot, "sequence")) case None => 0 case Some(n) => n
  }

  // A stable insertion by sequence.
  function Placed(slot: Value, slots: seq<Value>): seq<Value> {
    if slots == [] then [slot]
    else if SequenceOf(slots[|slots| - 1]) <= SequenceOf(slot) then slots + [slot]
    else Placed(slot, slots[..|slots| - 1]) + [slots[|slots| - 1]]
  }

  // The retained slots of the first `k` kinds, in the order they were emitted.
  function RetainedSlots(record: Value, k: nat): seq<Value>
    requires k <= |SLOTS|
  {
    if k == 0 then []
    else
      var slot := Field(record, SLOTS[k - 1]);
      var earlier := RetainedSlots(record, k - 1);
      if slot.Null? then earlier else Placed(slot, earlier)
  }

  function Folded(v: View, slots: seq<Value>): Option<View> {
    if slots == [] then Some(v)
    else
      match Folded(v, slots[..|slots| - 1])
      case None => None
      case Some(w) => Event(w, slots[|slots| - 1])
  }

  predicate SnapshotOk(record: Value, invocation: string) {
    && StatusOk(Field(record, "status")) && Get(record, "result").Some? && !Field(record, "result").Null?
    && HasNumber(record, "next_sequence")
    && forall k | 0 <= k < |SLOTS| :: SlotOk(record, SLOTS[k], AsU64(Field(record, "next_sequence")).value, invocation)
  }

  function Replaced(v: View, record: Value, invocation: string): Option<View> {
    if !SnapshotOk(record, invocation) then None
    else
      var start := WithStatus(BLANK.(invocation := invocation, next := AsU64(Field(record, "next_sequence"))),
                              Field(record, "status"));
      match Folded(start, RetainedSlots(record, |SLOTS|))
      case None => None
      case Some(w) =>
        var active := TextIs(Field(Field(record, "status"), "watcher"), "session_active");
        var same := v.invocation == invocation && v.selection == Get(record, "music_selection");
        var shown :=
          if !active then w.display.(chart := None, history := NoHistory)
          else if w.display.chart.None? && same then
            w.display.(chart := v.display.chart, history := v.display.history)
          else w.display;
        Some(w.(display := shown.(connected := true)))
  }

  predicate IsLive(record: Value) {
    TextIs(Field(record, "schema"), "scorepeek-event-v5")
  }

  predicate IsSnapshot(record: Value) {
    TextIs(Field(record, "schema"), "scorepeek-event-snapshot-v5")
  }

  // The checks on a live record, before it is folded.
  predicate LiveOk(v: View, record: Value, invocation: string) {
    && RecordOk(record, invocation) && HasNumber(record, "sequence")
    && v.display.connected && v.invocation == invocation && v.next == AsU64(Field(record, "sequence"))
  }

  // `apply`: the view after a record that is accepted.
  function Applied(v: View, record: Value, invocation: string): Option<View> {
    if !TextIs(Field(record, "invocation_id"), invocation) then None
    else if IsSnapshot(record) then Replaced(v, record, invocation)
    else if IsLive(record) && LiveOk(v, record, invocation) then
      match Event(v, record)
      case None => None
      case Some(w) =>
        var n := SequenceOf(record);
        Some(w.(next := if n < U64_MAX then Some(n + 1) else None, display := w.display.(connected := true)))
    else None
  }

  // `disconnect`: a shown screen starts its grace period.
  function Disconnected(v: View, now: int): View {
    var screen := v.display.screen;
    var held :=
      if screen.kind.Some? && screen.suspendedSince.None? then
        Screen(screen.kind, Some(now), Saturating(screen.revision))
      else screen;
    v.(display := v.display.(connected := false, screen := held))
  }

  // `expire_screen`: a screen suspended for the whole grace period is no longer shown.
  function Expired(v: View, now: int, grace: nat): View {
    var screen := v.display.screen;
    if screen.suspendedSince.Some? && now - screen.suspendedSince.value >= grace then
      v.(display := v.display.(screen := Screen(None, None, Saturating(screen.revision))))
    else v
  }

  lemma PlacedMembers(slot: Value, slots: seq<Value>, x: Value)
    ensures x in Placed(slot, slots) <==> x == slot || x in slots
  {
    if slots != [] && SequenceOf(slot) < SequenceOf(slots[|slots| - 1]) {
      PlacedMembers(slot, slots[..|slots| - 1], x);
      assert slots == slots[..|slots| - 1] + [slots[|slots| - 1]];
    }
  }

  lemma {:induction false} SlotsAreValid(record: Value, invocation: string, k: nat)
    requires k <= |SLOTS| && SnapshotOk(record, invocation)
    ensures forall slot | slot in RetainedSlots(record, k) :: RecordOk(slot, invocation)
  {
    hide RecordOk, StatusOk;
    if k > 0 {
      SlotsAreValid(record, invocation, k - 1);
      var slot := Field(record, SLOTS[k - 1]);
      assert SlotOk(record, SLOTS[k - 1], AsU64(Field(record, "next_sequence")).value, invocation);
      if !slot.Null? {
        forall x | x in Placed(slot, RetainedSlots(record, k - 1)) ensures RecordOk(x, invocation) {
          PlacedMembers(slot, RetainedSlots(record, k - 1), x);
        }
      }
    }
  }

  lemma {:induction false} ValidSlotsFold(v: View, slots: seq<Value>, invocation: string)
    requires forall slot | slot in slots :: RecordOk(slot, invocation)
    ensures Folded(v, slots).Some?
  {
    hide RecordOk, Event;
    if slots != [] {
      var front := slots[..|slots| - 1];
      assert forall slot | slot in front :: slot in slots;
      ValidSlotsFold(v, front, invocation);
      ValidRecordFolds(Folded(v, front).value, slots[|slots| - 1], invocation);
    }
  }

  /** A record is refused only by validation or by the stream it belongs to, never half way through the fold. */
  lemma AcceptedExactly(v: View, record: Value, invocation: string)
    requires TextIs(Field(record, "invocation_id"), invocation)
    ensures IsSnapshot(record) ==> (Applied(v, record, invocation).Some? <==> SnapshotOk(record, invocation))
    ensures IsLive(record) ==> (Applied(v, record, invocation).Some? <==> LiveOk(v, record, invocation))
  {
    if IsSnapshot(record) && SnapshotOk(record, invocation) {
      SlotsAreValid(record, invocation, |SLOTS|);
      hide RecordOk, SnapshotOk, Event;
      var start := WithStatus(BLANK.(invocation := invocation, next := AsU64(Field(record, "next_sequence"))),
                              Field(record, "status"));
      ValidSlotsFold(start, RetainedSlots(record, |SLOTS|), invocation);
    }
    if IsLive(record) && LiveOk(v, record, invocation) {
      ValidRecordFolds(v, record, invocation);
    }
  }
}
