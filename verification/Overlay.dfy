// The consumer object: fields updated in place, held to the fold and to all-or-nothing application.
module Overlay {
  import opened Common
  import opened Structured
  import opened OverlayConsumer

  class Consumer {
    var display: Display
    var queryRevision: nat
    var invocation: string
    var next: Option<nat>
    var selection: Option<Value>
    var session: Option<string>

    function Now(): View
      reads this
    {
      View(display, queryRevision, invocation, next, selection, session)
    }

    constructor ()
      ensures Now() == BLANK
    {
      display := BLANK.display;
      queryRevision := 0;
      invocation := "";
      next := None;
      selection := None;
      session := None;
    }

    method ApplyStatus(status: Value)
      modifies `session, `display
      ensures Now() == WithStatus(old(Now()), status)
    {
      session := AsText(Field(Field(status, "capture"), "session_id"));
      var ready := TextIs(Field(status, "catalog"), "ready") && TextIs(Field(status, "model"), "ready");
      if !Field(status, "scores").Null? && !TextIs(Field(status, "scores"), "ready") {
        ready := false;
      }
      if !Field(status, "recording").Null? && !TextIs(Field(status, "recording"), "ready") {
        ready := false;
      }
      var watcher := Field(status, "watcher");
      if TextIs(watcher, "session_active") && ready {
        display := display.(system := Lit);
      } else if TextIn(watcher, {"starting", "waiting_for_source", "session_finished", "stopped"}) {
        display := display.(system := Inactive);
      } else {
        display := display.(system := Failed);
      }
    }

    method HideScreen()
      modifies `display
      ensures Now() == old(Now()).(
                         display := old(display).(
                           screen := Screen(None, None, Saturating(old(display).screen.revision))))
    {
      display := display.(screen := display.screen.(revision := Saturating(display.screen.revision)));
      display := display.(screen := display.screen.(kind := None));
      display := display.(screen := display.screen.(suspendedSince := None));
    }

    // On a malformed record the screen may already have moved: the revision is bumped first.
    method ScreenChanged(record: Value) returns (ok: bool)
      modifies `display
      ensures ok <==> OnScreen(old(Now()), record).Some?
      ensures ok ==> Now() == OnScreen(old(Now()), record).value
    {
      var state := Field(record, "state");
      if state.Null? {
        HideScreen();
        return true;
      }
      display := display.(screen := display.screen.(revision := Saturating(display.screen.revision)));
      if !TextIn(Field(state, "screen"), SCREENS) {
        return false;
      }
      display := display.(screen := display.screen.(kind := Some(Field(state, "screen").text)));
      var suspended := Field(state, "suspended");
      if !suspended.Boolean? {
        return false;
      }
      var since := if suspended.truth then AsI64(Field(record, "emitted_unix_ms")) else None;
      display := display.(screen := display.screen.(suspendedSince := since));
      return true;
    }

    method SelectionChanged(record: Value) returns (ok: bool)
      modifies `display, `selection
      ensures ok <==> OnSelection(old(Now()), record).Some?
      ensures ok ==> Now() == OnSelection(old(Now()), record).value
    {
      selection := Some(record);
      var state := Field(record, "state");
      if TextIs(Field(state, "status"), "selected") {
        var shown := ChartOf(state, Field(state, "presentation"));
        if shown.None? {
          return false;
        }
        if display.chart != shown {
          display := display.(history := NoHistory);
        }
        display := display.(chart := shown);
        return true;
      }
      return TextIs(Field(state, "status"), "unresolved");
    }

    method StatusChanged(record: Value)
      modifies `display, `session
      ensures Now() == OnStatus(old(Now()), record)
    {
      var status := Field(record, "status");
      ApplyStatus(status);
      if TextIn(Field(status, "watcher"), {"session_finished", "stopped"}) {
        display := display.(chart := None);
        display := display.(history := NoHistory);
        HideScreen();
      }
    }

    // `event`: on failure the fields may be half updated.
    method FoldEvent(record: Value) returns (ok: bool)
      modifies `display, `queryRevision, `selection, `session
      ensures ok <==> Event(old(Now()), record).Some?
      ensures ok ==> Now() == Event(old(Now()), record).value
    {
      if !HasText(record, "event") {
        return false;
      }
      var event := Field(record, "event").text;
      if event == "screen_state_changed" {
        ok := ScreenChanged(record);
      } else if event == "music_selection_changed" {
        ok := SelectionChanged(record);
      } else if event == "result_changed" {
        ok := ResultChanged(record);
      } else if event == "score_store_changed" {
        ok := ScoreStoreChanged(record);
      } else {
        ok := true;
        if event == "status_changed" {
          StatusChanged(record);
        }
      }
    }

    method ResultChanged(record: Value) returns (ok: bool)
      modifies `display
      ensures ok <==> OnResult(old(Now()), record).Some?
      ensures ok ==> Now() == OnResult(old(Now()), record).value
    {
      var status := Field(Field(record, "state"), "status");
      ok := TextIn(status, {"inactive", "provisional", "confirmed", "retracted"});
      if TextIs(status, "inactive") {
        display := display.(signal := Inactive);
      } else if TextIn(status, {"provisional", "confirmed"}) {
        display := display.(signal := Lit);
      } else if TextIs(status, "retracted") {
        display := display.(signal := Failed);
      }
    }

    method ScoreStoreChanged(record: Value) returns (ok: bool)
      modifies `queryRevision
      ensures ok <==> OnScoreStore(old(Now()), record).Some?
      ensures ok ==> Now() == OnScoreStore(old(Now()), record).value
    {
      if !HasNumber(record, "revision") {
        return false;
      }
      var chart, shown := Field(record, "chart"), display.chart;
      if shown.Some? && TextIs(Field(chart, "scorepeek_song_id"), shown.value.song)
         && TextIs(Field(chart, "play_type"), shown.value.play)
         && TextIs(Field(chart, "difficulty"), shown.value.difficulty) {
        queryRevision := Saturating(queryRevision);
      }
      return true;
    }

    // `apply`: a record that is refused leaves every field as it was.
    method Apply(record: Value, expected: string) returns (ok: bool)
      modifies this
      ensures ok <==> Applied(old(Now()), record, expected).Some?
      ensures ok ==> Now() == Applied(old(Now()), record, expected).value
      ensures !ok ==> Now() == old(Now())
    {
      hide RecordOk, StatusOk, Event, SlotOk;
      if !TextIs(Field(record, "invocation_id"), expected) {
        return false;
      }
      if IsSnapshot(record) {
        ok := ReplaceWith(record, expected);
      } else if IsLive(record) {
        ok := AppendLive(record, expected);
      } else {
        ok := false;
      }
    }

    method AppendLive(record: Value, expected: string) returns (ok: bool)
      requires TextIs(Field(record, "invocation_id"), expected) && IsLive(record) && !IsSnapshot(record)
      modifies this
      ensures ok <==> Applied(old(Now()), record, expected).Some?
      ensures ok ==> Now() == Applied(old(Now()), record, expected).value
      ensures !ok ==> Now() == old(Now())
    {
      AcceptedExactly(Now(), record, expected);
      hide RecordOk, Event;
      if !RecordOk(record, expected) || !HasNumber(record, "sequence") {
        return false;
      }
      var sequence := SequenceOf(record);
      if !display.connected || invocation != expected || next != Some(sequence) {
        return false;
      }
      ok := FoldEvent(record);
      assert ok;
      next := if sequence < U64_MAX then Some(sequence + 1) else None;
      display := display.(connected := true);
    }

    method ReplaceWith(record: Value, expected: string) returns (ok: bool)
      requires TextIs(Field(record, "invocation_id"), expected) && IsSnapshot(record)
      modifies this
      ensures ok <==> Replaced(old(Now()), record, expected).Some?
      ensures ok ==> Now() == Replaced(old(Now()), record, expected).value
      ensures !ok ==> Now() == old(Now())
    {
      hide RecordOk, StatusOk, Event, WithStatus, SlotOk, Placed;
      if !StatusOk(Field(record, "status")) || Field(record, "result").Null? || !HasNumber(record, "next_sequence") {
        return false;
      }
      var nextSequence := AsU64(Field(record, "next_sequence"));
      var replacement := new Consumer();
      replacement.invocation := expected;
      replacement.next := nextSequence;
      replacement.ApplyStatus(Field(record, "status"));
      ghost var start := replacement.Now();

      var slots: seq<Value> := [];
      for k := 0 to |SLOTS|
        invariant slots == RetainedSlots(record, k)
      {
        var slot := Field(record, SLOTS[k]);
        if !slot.Null? {
          slots := Placed(slot, slots);
        }
      }
      for k := 0 to |SLOTS|
        invariant forall j | 0 <= j < k :: SlotOk(record, SLOTS[j], nextSequence.value, expected)
      {
        if !SlotOk(record, SLOTS[k], nextSequence.value, expected) {
          assert !SnapshotOk(record, expected);
          return false;
        }
      }
      SlotsAreValid(record, expected, |SLOTS|);
      for i := 0 to |slots|
        invariant Now() == old(Now())
        invariant Folded(start, slots[..i]) == Some(replacement.Now())
      {
        assert slots[..i + 1][..i] == slots[..i];
        ValidRecordFolds(replacement.Now(), slots[i], expected);
        var folded := replacement.FoldEvent(slots[i]);
        assert folded;
      }
      assert slots[..|slots|] == slots;

      var active := TextIs(Field(Field(record, "status"), "watcher"), "session_active");
      if active && replacement.display.chart.None? && invocation == expected
         && selection == Get(record, "music_selection") {
        replacement.display := replacement.display.(chart := display.chart, history := display.history);
      }
      if !active {
        replacement.display := replacement.display.(chart := None, history := NoHistory);
      }
      replacement.display := replacement.display.(connected := true);
      display, queryRevision, invocation := replacement.display, replacement.queryRevision, replacement.invocation;
      next, selection, session := replacement.next, replacement.selection, replacement.session;
      return true;
    }

    /** The screen stays up but is suspended from now on, unless it is already; only then does it change. */
    method Disconnect(now: int)
      modifies `display
      ensures Now() == Disconnected(old(Now()), now)
      ensures display == old(display).(connected := false, screen := display.screen)
      ensures display.screen.kind == old(display).screen.kind
      ensures display.screen.kind.Some? ==> display.screen.suspendedSince.Some?
      ensures old(display).screen.suspendedSince.Some? || old(display).screen.kind.None? ==>
                display.screen == old(display).screen
      ensures old(display).screen.suspendedSince.None? && old(display).screen.kind.Some? ==>
                && display.screen.suspendedSince == Some(now)
                && display.screen.revision == Saturating(old(display).screen.revision)
    {
      display := display.(connected := false);
      var screen := display.screen;
      if screen.kind.Some? && screen.suspendedSince.None? {
        display := display.(screen := Screen(screen.kind, Some(now), Saturating(screen.revision)));
      }
    }

    /** Nothing but the screen changes, and that only once it has been suspended for the whole grace period. */
    method ExpireScreen(now: int, grace: nat)
      modifies `display
      ensures Now() == Expired(old(Now()), now, grace)
      ensures display == old(display).(screen := display.screen)
      ensures display.screen == old(display).screen
              || (display.screen.kind.None? && display.screen.suspendedSince.None?)
      ensures display.screen.suspendedSince.Some? ==> now - display.screen.suspendedSince.value < grace
    {
      var since := display.screen.suspendedSince;
      if since.Some? && now - since.value >= grace {
        HideScreen();
      }
    }
  }
}
