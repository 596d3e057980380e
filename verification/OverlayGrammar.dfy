// The grammar of the public records, by the members each must have, and acceptance stated by it: which live record and
// which snapshot a view takes, and that it takes no other.
module OverlayGrammar {
  import opened Common
  import opened Structured
  import opened OverlayConsumer

  // ---------------------------------------------------------------- members

  // The member's text, or nothing when it is not there or no text.
  function TextOf(v: Value, key: string): Option<string> {
    match v
    case Object(fields) =>
      if key in fields then (match fields[key] case Text(s) => Some(s) case _ => None) else None
    case _ => None
  }

  function NumberOf(v: Value, key: string): Option<nat> {
    match v
    case Object(fields) =>
      if key in fields then
        (match fields[key]
         case Num(Integer(n)) => if 0 <= n <= 0xffff_ffff_ffff_ffff then Some(n) else None
         case _ => None)
      else None
    case _ => None
  }

  ghost predicate Texts(v: Value, keys: set<string>) {
    forall k | k in keys :: TextOf(v, k).Some?
  }

  ghost predicate Numbers(v: Value, keys: set<string>) {
    forall k | k in keys :: NumberOf(v, k).Some?
  }

  // The member is there, and null or as told.
  predicate Nullable(v: Value, key: string, told: bool) {
    v.Object? && key in v.fields && (v.fields[key].Null? || told)
  }

  // ---------------------------------------------------------------- parts of records

  // The session of the capture, when there is one.
  predicate InCapture(capture: Value) {
    capture.Null? || exists session | session in {TextOf(capture, "session_id")} ::
      session.Some? && session.value != "" && capture == Object(map["session_id" := Text(session.value)])
  }

  predicate Sided(v: Value) {
    TextOf(v, "play_side") in {Some("one_player"), Some("two_player")}
  }

  ghost predicate Measured(v: Value, statuses: set<string>, text: bool) {
    match TextOf(v, "status")
    case None => false
    case Some(status) =>
      || (status == "known" && if text then TextOf(v, "value").Some? else NumberOf(v, "value").Some?)
      || (status == "unknown" && TextOf(v, "reason").Some?)
      || status in statuses
  }

  ghost predicate Options(v: Value) {
    || (TextOf(v, "status") == Some("known") && Field(v, "values").Array?
        && forall x | x in Field(v, "values").items :: x.Text?)
    || (TextOf(v, "status") == Some("unknown") && TextOf(v, "reason").Some?)
  }

  ghost predicate Played(r: Value) {
    var judgments, timing, best := Field(r, "judgments"), Field(r, "timing"), Field(r, "previous_best");
    && TextOf(r, "contract") == Some("scorepeek-result-detected-v4")
    && Numbers(r, {"attempt_id", "level", "notes", "current_score"})
    && Texts(r, {"scorepeek_song_id", "play_type", "play_mode", "difficulty", "clear_type"})
    && Sided(r)
    && Numbers(judgments, {"pgreat", "great", "good", "bad", "poor"})
    && Measured(Field(timing, "fast"), {"not_displayed"}, false)
    && Measured(Field(timing, "slow"), {"not_displayed"}, false)
    && Measured(Field(r, "miss_count"), {"not_displayed"}, false)
    && Measured(Field(r, "combo_break"), {"not_displayed"}, false)
    && Measured(Field(best, "score"), {"not_displayed", "not_played"}, false)
    && Measured(Field(best, "miss_count"), {"not_displayed", "not_played"}, false)
    && Measured(Field(best, "clear_type"), {"not_displayed", "not_played"}, true)
    && Options(Field(r, "play_options"))
  }

  ghost predicate Titled(song: Value) {
    && Texts(song, {"scorepeek_song_id", "artist"})
    && var titles := Field(song, "display_titles");
       titles.Array? && |titles.items| > 0 && forall t | t in titles.items :: t.Text? && t.text != ""
  }

  // A play with its song, in a session.
  ghost predicate PlayIn(record: Value) {
    var state := Field(record, "state");
    && TextOf(Field(record, "capture"), "session_id").Some?
    && TextOf(Field(record, "capture"), "session_id") != Some("")
    && Titled(Field(state, "song")) && Played(Field(state, "result"))
    && TextOf(Field(state, "song"), "scorepeek_song_id") == TextOf(Field(state, "result"), "scorepeek_song_id")
  }

  ghost predicate ResultRecord(record: Value) {
    var state := Field(record, "state");
    && NumberOf(record, "source_sequence").Some?
    && match TextOf(state, "status")
       case None => false
       case Some(status) =>
         || status == "inactive"
         || (status in {"provisional", "confirmed"} && PlayIn(record))
         || (status == "retracted" && PlayIn(record)
             && TextOf(state, "reason") in {Some("evidence_unresolved"), Some("panel_side_conflict"),
                                            Some("attempt_rejected"), Some("session_ended")})
  }

  ghost predicate ScreenRecord(record: Value) {
    var state := Field(record, "state");
    Nullable(record, "state",
             && NumberOf(state, "screen_episode_id").Some? && Field(state, "suspended").Boolean?
             && TextOf(state, "screen") in {Some("music_select"), Some("mode_select"), Some("decide_transition"),
                                            Some("play"), Some("result")})
  }

  ghost predicate ChartNamed(v: Value) {
    Texts(v, {"scorepeek_song_id", "play_type", "difficulty"})
  }

  ghost predicate SelectionRecord(record: Value) {
    var state := Field(record, "state");
    && Numbers(record, {"screen_episode_id", "source_sequence", "revision"})
    && (|| (TextOf(state, "status") == Some("selected") && ChartNamed(state) && Field(state, "presentation").Object?
            && Sided(state))
        || (TextOf(state, "status") == Some("unresolved") && TextOf(state, "reason").Some?))
  }

  ghost predicate BestRecord(record: Value) {
    var s := Field(record, "snapshot");
    Nullable(record, "snapshot",
             && TextOf(s, "contract") == Some("scorepeek-music-select-best-snapshot-v4")
             && NumberOf(s, "revision").Some? && TextOf(s, "observation_id").Some?
             && ChartNamed(Field(s, "chart")) && Sided(Field(s, "chart"))
             && Field(Field(s, "values"), "score").Object? && Field(Field(s, "values"), "miss_count").Object?
             && Field(Field(s, "values"), "clear_type").Object?)
  }

  predicate Readiness(v: Value, key: string) {
    TextOf(v, key) in {Some("not_ready"), Some("ready"), Some("unavailable")}
  }

  predicate Watching(status: Value) {
    TextOf(status, "watcher") in {
      Some("starting"), Some("waiting_for_source"), Some("ambiguous_sources"), Some("remote_unavailable"),
      Some("catalog_unavailable"), Some("admission_rejected"), Some("session_active"), Some("session_finished"),
      Some("stopped")}
  }

  predicate Ended(status: Value) {
    TextOf(status, "last_session_outcome") in {Some("stopped"), Some("source_ended"), Some("error")}
  }

  ghost predicate StatusDocument(status: Value) {
    && Watching(status)
    && Readiness(status, "catalog") && Readiness(status, "model")
    && Nullable(status, "scores", Readiness(status, "scores"))
    && Nullable(status, "recording", Readiness(status, "recording"))
    && Nullable(status, "capture", InCapture(Field(status, "capture")))
    && Nullable(status, "last_session_outcome", Ended(status))
  }

  // The members every record has.
  ghost predicate Enveloped(record: Value, invocation: string) {
    && TextOf(record, "schema") == Some("scorepeek-event-v5") && TextOf(record, "invocation_id") == Some(invocation)
    && Numbers(record, {"sequence", "emitted_monotonic_ms"})
    && TextOf(record, "event_id").Some? && TextOf(record, "event_id") != Some("")
    && (var at := Field(record, "emitted_unix_ms");
        at.Num? && at.number.Integer? && -0x8000_0000_0000_0000 <= at.number.value <= 0x7fff_ffff_ffff_ffff)
    && Nullable(record, "capture", InCapture(Field(record, "capture")))
    && TextOf(record, "event").Some?
  }

  // A record of the stream; events of other kinds need nothing more.
  ghost predicate StreamRecord(record: Value, invocation: string) {
    && Enveloped(record, invocation)
    && EventMembers(record, TextOf(record, "event").value)
  }

  ghost predicate EventMembers(record: Value, event: string) {
    if event == "screen_state_changed" then ScreenRecord(record)
    else if event == "result_changed" then ResultRecord(record)
    else if event == "music_selection_changed" then SelectionRecord(record)
    else if event == "music_select_best_observed" then BestRecord(record)
    else if event == "status_changed" then StatusDocument(Field(record, "status"))
    else if event == "score_store_changed" then
      NumberOf(record, "revision").Some? && ChartNamed(Field(record, "chart"))
    else true
  }

  // ---------------------------------------------------------------- validation is the grammar

  lemma MemberIsRead(v: Value, key: string)
    ensures TextOf(v, key) == AsText(Field(v, key)) && NumberOf(v, key) == AsU64(Field(v, key))
    ensures forall text :: TextIs(Field(v, key), text) <==> TextOf(v, key) == Some(text)
    ensures HasText(v, key) <==> TextOf(v, key).Some?
    ensures HasNumber(v, key) <==> NumberOf(v, key).Some?
    ensures forall texts :: TextIn(Field(v, key), texts) <==> TextOf(v, key).Some? && TextOf(v, key).value in texts
    ensures Get(v, key).Some? <==> v.Object? && key in v.fields
    ensures v.Object? && key in v.fields ==> Field(v, key) == v.fields[key] && Get(v, key) == Some(Field(v, key))
    ensures TextOf(v, key).Some? ==> TextOf(v, key).value == Field(v, key).text
  {
  }

  lemma SameTexts(v: Value, keys: set<string>)
    ensures Texts(v, keys) <==> forall k | k in keys :: HasText(v, k)
  {
    forall k | k in keys ensures HasText(v, k) <==> TextOf(v, k).Some? {
      MemberIsRead(v, k);
    }
  }

  lemma SameNumbers(v: Value, keys: set<string>)
    ensures Numbers(v, keys) <==> forall k | k in keys :: HasNumber(v, k)
  {
    forall k | k in keys ensures HasNumber(v, k) <==> NumberOf(v, k).Some? {
      MemberIsRead(v, k);
    }
  }

  lemma MembersAreRead(v: Value)
    ensures forall key :: TextOf(v, key) == AsText(Field(v, key)) && NumberOf(v, key) == AsU64(Field(v, key))
  {
    forall key {
      MemberIsRead(v, key);
    }
  }

  lemma CaptureIsRead(capture: Value)
    ensures CaptureOk(capture) <==> InCapture(capture)
    ensures capture.Null? ==> CaptureOk(capture)
  {
    if CaptureOk(capture) && !capture.Null? {
      var session := TextOf(capture, "session_id");
      assert session in {session};
      assert capture.fields == map["session_id" := Text(session.value)];
    }
  }

  lemma ScreenIsRead(record: Value)
    ensures ScreenOk(record) <==> ScreenRecord(record)
  {
    MembersAreRead(Field(record, "state"));
  }

  lemma MeasuredIsRead(v: Value, previous: bool, text: bool)
    ensures SupplementalOk(v, previous, text)
            <==> Measured(v, if previous then {"not_displayed", "not_played"} else {"not_displayed"}, text)
  {
    MembersAreRead(v);
  }

  lemma OptionsAreRead(v: Value)
    ensures PlayOptionsOk(v) <==> Options(v)
  {
    MembersAreRead(v);
  }

  ghost predicate Described(r: Value) {
    && TextOf(r, "contract") == Some("scorepeek-result-detected-v4")
    && Numbers(r, {"attempt_id", "level", "notes", "current_score"})
    && Texts(r, {"scorepeek_song_id", "play_type", "play_mode", "difficulty", "clear_type"})
    && Sided(r)
  }

  lemma SideIsRead(v: Value)
    ensures PlaySideOk(Field(v, "play_side")) <==> Sided(v)
  {
    MemberIsRead(v, "play_side");
    hide TextOf, Field, NumberOf;
  }

  lemma DescriptionIsRead(r: Value)
    ensures Described(r) <==>
              && TextIs(Field(r, "contract"), "scorepeek-result-detected-v4")
              && HasNumber(r, "attempt_id") && HasNumber(r, "level") && HasNumber(r, "notes")
              && HasNumber(r, "current_score")
              && HasText(r, "scorepeek_song_id") && HasText(r, "play_type") && PlaySideOk(Field(r, "play_side"))
              && HasText(r, "play_mode") && HasText(r, "difficulty") && HasText(r, "clear_type")
  {
    MemberIsRead(r, "contract");
    SideIsRead(r);
    SameNumbers(r, {"attempt_id", "level", "notes", "current_score"});
    SameTexts(r, {"scorepeek_song_id", "play_type", "play_mode", "difficulty", "clear_type"});
    hide Numbers, Texts, HasNumber, HasText, TextOf, NumberOf, TextIn, TextIs, PlaySideOk, Sided;
  }

  lemma PlayIsRead(r: Value)
    ensures ResultPayloadOk(r) <==> Played(r)
  {
    var judgments, timing, best := Field(r, "judgments"), Field(r, "timing"), Field(r, "previous_best");
    DescriptionIsRead(r);
    SameNumbers(judgments, {"pgreat", "great", "good", "bad", "poor"});
    MeasuredIsRead(Field(timing, "fast"), false, false);
    MeasuredIsRead(Field(timing, "slow"), false, false);
    MeasuredIsRead(Field(r, "miss_count"), false, false);
    MeasuredIsRead(Field(r, "combo_break"), false, false);
    MeasuredIsRead(Field(best, "score"), true, false);
    MeasuredIsRead(Field(best, "miss_count"), true, false);
    MeasuredIsRead(Field(best, "clear_type"), true, true);
    OptionsAreRead(Field(r, "play_options"));
    KeysAreThere(judgments, timing, best);
    assert Played(r) ==> Described(r);
    hide SupplementalOk, Measured, PlayOptionsOk, Options, TextOf, NumberOf, HasKeys, Numbers, Texts, HasNumber;
    hide HasText, PlaySideOk, TextIs, Field;
  }

  // What is measured is there.
  lemma KeysAreThere(judgments: Value, timing: Value, best: Value)
    ensures Numbers(judgments, {"pgreat", "great", "good", "bad", "poor"}) ==>
              HasKeys(judgments, {"pgreat", "great", "good", "bad", "poor"})
    ensures SupplementalOk(Field(timing, "fast"), false, false)
            && SupplementalOk(Field(timing, "slow"), false, false) ==>
              HasKeys(timing, {"fast", "slow"})
    ensures SupplementalOk(Field(best, "score"), true, false) && SupplementalOk(Field(best, "miss_count"), true, false)
            && SupplementalOk(Field(best, "clear_type"), true, true) ==>
              HasKeys(best, {"score", "miss_count", "clear_type"})
  {
    if Numbers(judgments, {"pgreat", "great", "good", "bad", "poor"}) {
      assert NumberOf(judgments, "pgreat").Some?;
    }
  }

  lemma SongIsRead(song: Value)
    ensures SongOk(song) <==> Titled(song)
  {
    MembersAreRead(song);
    assert Titled(song) ==> TextOf(song, "artist").Some?;
  }

  lemma PlayInIsRead(record: Value)
    ensures ResultIdentityOk(record, Field(record, "state")) <==> PlayIn(record)
  {
    var state := Field(record, "state");
    SongIsRead(Field(state, "song"));
    PlayIsRead(Field(state, "result"));
    MemberIsRead(Field(record, "capture"), "session_id");
    MemberIsRead(Field(state, "song"), "scorepeek_song_id");
    MemberIsRead(Field(state, "result"), "scorepeek_song_id");
    assert Titled(Field(state, "song")) ==> TextOf(Field(state, "song"), "scorepeek_song_id").Some?;
    assert Played(Field(state, "result")) ==> TextOf(Field(state, "result"), "scorepeek_song_id").Some?;
    hide SongOk, Titled, ResultPayloadOk, Played, TextOf, NumberOf;
  }

  lemma ResultIsRead(record: Value)
    ensures ResultOk(record) <==> ResultRecord(record)
  {
    MembersAreRead(record);
    MembersAreRead(Field(record, "state"));
    PlayInIsRead(record);
    hide ResultIdentityOk, PlayIn, TextOf, NumberOf;
  }

  lemma ChartIsRead(v: Value)
    ensures ChartOk(v) <==> ChartNamed(v)
  {
    MembersAreRead(v);
    hide TextOf;
  }

  lemma SelectionIsRead(record: Value)
    ensures SelectionOk(record) <==> SelectionRecord(record)
  {
    var state := Field(record, "state");
    MemberIsRead(state, "status");
    MemberIsRead(state, "reason");
    SideIsRead(state);
    ChartIsRead(state);
    SameNumbers(record, {"screen_episode_id", "source_sequence", "revision"});
    hide ChartOk, ChartNamed, TextOf, NumberOf, Numbers, HasNumber, HasText, PlaySideOk, Sided, Field, TextIs;
  }

  lemma BestIsRead(record: Value)
    ensures SelectBestOk(record) <==> BestRecord(record)
  {
    var s := Field(record, "snapshot");
    MemberIsRead(record, "snapshot");
    BestMembers(s);
    ChartIsRead(Field(s, "chart"));
    SideIsRead(Field(s, "chart"));
    ValuesAreRead(Field(s, "values"));
    hide ChartOk, ChartNamed, PlaySideOk, Sided, TextOf, NumberOf, Field, HasText, HasNumber, TextIs, TextIn, Get;
  }

  lemma BestMembers(s: Value)
    ensures TextIs(Field(s, "contract"), "scorepeek-music-select-best-snapshot-v4") <==>
              TextOf(s, "contract") == Some("scorepeek-music-select-best-snapshot-v4")
    ensures HasNumber(s, "revision") <==> NumberOf(s, "revision").Some?
    ensures HasText(s, "observation_id") <==> TextOf(s, "observation_id").Some?
  {
    MemberIsRead(s, "contract");
    MemberIsRead(s, "revision");
    MemberIsRead(s, "observation_id");
    hide TextOf, NumberOf, Field, HasText, HasNumber, TextIs;
  }

  lemma ValuesAreRead(values: Value)
    ensures (forall k | k in {"score", "miss_count", "clear_type"} :: Field(values, k).Object?) <==>
              && Field(values, "score").Object? && Field(values, "miss_count").Object?
              && Field(values, "clear_type").Object?
  {
    hide Field;
  }

  lemma ReadinessIsRead(v: Value, key: string)
    ensures TextIn(Field(v, key), READINESS) <==> Readiness(v, key)
  {
    MemberIsRead(v, key);
    hide TextOf, Field;
  }

  lemma WatcherIsRead(status: Value)
    ensures TextIn(Field(status, "watcher"), WATCHERS) <==> Watching(status)
  {
    MemberIsRead(status, "watcher");
    hide TextOf, Field;
  }

  lemma EndIsRead(status: Value)
    ensures TextIn(Field(status, "last_session_outcome"), {"stopped", "source_ended", "error"}) <==> Ended(status)
  {
    MemberIsRead(status, "last_session_outcome");
    hide TextOf, Field;
  }

  lemma DependenciesAreRead(status: Value)
    ensures (forall k | k in {"catalog", "model"} :: TextIn(Field(status, k), READINESS)) <==>
              TextIn(Field(status, "catalog"), READINESS) && TextIn(Field(status, "model"), READINESS)
    ensures
      (forall k | k in {"scores", "recording"} :: Field(status, k).Null? || TextIn(Field(status, k), READINESS)) <==>
        && (Field(status, "scores").Null? || TextIn(Field(status, "scores"), READINESS))
        && (Field(status, "recording").Null? || TextIn(Field(status, "recording"), READINESS))
  {
    hide Field, TextIn;
  }

  lemma NullableIsRead(v: Value, key: string, told: bool)
    ensures Nullable(v, key, told) <==> v.Object? && key in v.fields && (Field(v, key).Null? || told)
  {
  }

  lemma StatusIsRead(status: Value)
    ensures StatusOk(status) <==> StatusDocument(status)
  {
    CaptureIsRead(Field(status, "capture"));
    StatusKeys(status);
    WatcherIsRead(status);
    EndIsRead(status);
    ReadinessIsRead(status, "catalog");
    ReadinessIsRead(status, "model");
    ReadinessIsRead(status, "scores");
    ReadinessIsRead(status, "recording");
    NullableIsRead(status, "scores", Readiness(status, "scores"));
    NullableIsRead(status, "recording", Readiness(status, "recording"));
    NullableIsRead(status, "capture", InCapture(Field(status, "capture")));
    NullableIsRead(status, "last_session_outcome", Ended(status));
    DependenciesAreRead(status);
    hide CaptureOk, InCapture, TextOf, Field, TextIn, Get, Readiness, Watching, Ended, Nullable, HasKeys;
  }

  lemma StatusKeys(status: Value)
    ensures StatusDocument(status) || StatusOk(status) ==>
              HasKeys(status, {"watcher", "capture", "catalog", "model", "scores", "recording", "last_session_outcome"})
    ensures
      HasKeys(status, {"watcher", "capture", "catalog", "model", "scores", "recording", "last_session_outcome"}) ==>
        && status.Object? && "capture" in status.fields && "scores" in status.fields && "recording" in status.fields
        && "last_session_outcome" in status.fields
  {
    hide CaptureOk, InCapture;
  }

  lemma EnvelopeIsRead(record: Value, invocation: string)
    ensures EnvelopeOk(record, invocation) <==> Enveloped(record, invocation)
  {
    MemberIsRead(record, "schema");
    MemberIsRead(record, "invocation_id");
    MemberIsRead(record, "event_id");
    MemberIsRead(record, "event");
    MemberIsRead(record, "capture");
    MemberIsRead(record, "sequence");
    MemberIsRead(record, "emitted_monotonic_ms");
    CaptureIsRead(Field(record, "capture"));
    NullableIsRead(record, "capture", InCapture(Field(record, "capture")));
    EnvelopeNumbers(record);
    hide CaptureOk, InCapture, TextOf, NumberOf, Field, TextIn, TextIs, Get, HasText, HasNumber, Numbers, Nullable;
  }

  lemma EnvelopeNumbers(record: Value)
    ensures Numbers(record, {"sequence", "emitted_monotonic_ms"}) <==>
              NumberOf(record, "sequence").Some? && NumberOf(record, "emitted_monotonic_ms").Some?
    ensures
      var at := Field(record, "emitted_unix_ms");
      AsI64(at).Some? <==>
        at.Num? && at.number.Integer? && -0x8000_0000_0000_0000 <= at.number.value <= 0x7fff_ffff_ffff_ffff
  {
    hide NumberOf, Field;
  }

  lemma MembersOfEvent(record: Value)
    ensures
      var event := Field(record, "event");
      event.Text? ==>
        (EventMembers(record, event.text) <==>
         if event.text == "screen_state_changed" then ScreenOk(record)
         else if event.text == "result_changed" then ResultOk(record)
         else if event.text == "music_selection_changed" then SelectionOk(record)
         else if event.text == "music_select_best_observed" then SelectBestOk(record)
         else if event.text == "status_changed" then StatusOk(Field(record, "status"))
         else if event.text == "score_store_changed" then
           HasNumber(record, "revision") && ChartOk(Field(record, "chart"))
         else true)
  {
    ScreenIsRead(record);
    ResultIsRead(record);
    SelectionIsRead(record);
    BestIsRead(record);
    StatusIsRead(Field(record, "status"));
    ChartIsRead(Field(record, "chart"));
    MemberIsRead(record, "revision");
    hide ScreenOk, ScreenRecord, ResultOk, ResultRecord, SelectionOk, SelectionRecord, SelectBestOk, BestRecord;
    hide StatusOk, StatusDocument, ChartOk, ChartNamed, HasNumber, Field, NumberOf, TextOf;
  }

  /** Validation accepts a record of the stream exactly when it follows the grammar. */
  lemma ValidationIsTheGrammar(record: Value, invocation: string)
    ensures RecordOk(record, invocation) <==> StreamRecord(record, invocation)
  {
    EnvelopeIsRead(record, invocation);
    MemberIsRead(record, "event");
    assert Enveloped(record, invocation) ==> TextOf(record, "event").Some?;
    assert EnvelopeOk(record, invocation) ==> Field(record, "event").Text?;
    MembersOfEvent(record);
    hide EnvelopeOk, Enveloped, EventMembers, ScreenOk, ResultOk, SelectionOk, SelectBestOk, StatusOk, ChartOk, TextOf;
    hide HasText, Field;
  }

  // ---------------------------------------------------------------- acceptance

  /** A live record is taken exactly when it follows the grammar and is the next of the connected view's stream. */
  lemma LiveIsTakenExactly(v: View, record: Value, invocation: string)
    requires TextOf(record, "schema") == Some("scorepeek-event-v5")
    ensures Applied(v, record, invocation).Some? <==>
              && StreamRecord(record, invocation) && v.display.connected && v.invocation == invocation
              && NumberOf(record, "sequence") == v.next
  {
    MemberIsRead(record, "schema");
    MemberIsRead(record, "invocation_id");
    MemberIsRead(record, "sequence");
    ValidationIsTheGrammar(record, invocation);
    assert StreamRecord(record, invocation) ==>
      TextOf(record, "invocation_id") == Some(invocation) && NumberOf(record, "sequence").Some?;
    if TextOf(record, "invocation_id") == Some(invocation) {
      AcceptedExactly(v, record, invocation);
    }
    hide RecordOk, StreamRecord, Event, Replaced, TextOf, NumberOf, Field;
  }

  // The retained record of one kind: none, or one of that event with an earlier sequence that follows the grammar.
  ghost predicate Retains(record: Value, key: string, event: string, next: nat, invocation: string) {
    var slot := Field(record, key);
    slot.Null?
    || (&& TextOf(slot, "event") == Some(event) && StreamRecord(slot, invocation)
        && NumberOf(slot, "sequence").Some? && NumberOf(slot, "sequence").value < next)
  }

  ghost predicate SnapshotDocument(record: Value, invocation: string) {
    && StatusDocument(Field(record, "status")) && !Field(record, "result").Null?
    && NumberOf(record, "next_sequence").Some?
    && var next := NumberOf(record, "next_sequence").value;
       && Retains(record, "result", "result_changed", next, invocation)
       && Retains(record, "screen_state", "screen_state_changed", next, invocation)
       && Retains(record, "music_selection", "music_selection_changed", next, invocation)
       && Retains(record, "music_select_best", "music_select_best_observed", next, invocation)
  }

  lemma SlotIsRead(record: Value, k: nat, next: nat, invocation: string)
    requires k < |SLOTS|
    ensures SlotOk(record, SLOTS[k], next, invocation)
            <==> Retains(record, SLOTS[k], SlotEvent(SLOTS[k]), next, invocation)
  {
    var slot := Field(record, SLOTS[k]);
    MemberIsRead(slot, "event");
    MemberIsRead(slot, "sequence");
    ValidationIsTheGrammar(slot, invocation);
    hide RecordOk, StreamRecord, TextOf, NumberOf, SlotEvent;
  }

  lemma SlotNames()
    ensures |SLOTS| == 4
    ensures SLOTS[0] == "result" && SlotEvent(SLOTS[0]) == "result_changed"
    ensures SLOTS[1] == "screen_state" && SlotEvent(SLOTS[1]) == "screen_state_changed"
    ensures SLOTS[2] == "music_selection" && SlotEvent(SLOTS[2]) == "music_selection_changed"
    ensures SLOTS[3] == "music_select_best" && SlotEvent(SLOTS[3]) == "music_select_best_observed"
  {
  }

  lemma SlotsAreRead(record: Value, next: nat, invocation: string)
    ensures (forall k | 0 <= k < |SLOTS| :: SlotOk(record, SLOTS[k], next, invocation)) <==>
              && Retains(record, "result", "result_changed", next, invocation)
              && Retains(record, "screen_state", "screen_state_changed", next, invocation)
              && Retains(record, "music_selection", "music_selection_changed", next, invocation)
              && Retains(record, "music_select_best", "music_select_best_observed", next, invocation)
  {
    SlotNames();
    SlotIsRead(record, 0, next, invocation);
    SlotIsRead(record, 1, next, invocation);
    SlotIsRead(record, 2, next, invocation);
    SlotIsRead(record, 3, next, invocation);
    hide SlotOk, Retains, SlotEvent;
  }

  /** A snapshot is taken by any view exactly when it is of the invocation and its status and retained records follow
      the grammar, each retained record before the next sequence. */
  lemma SnapshotIsTakenExactly(v: View, record: Value, invocation: string)
    requires TextOf(record, "schema") == Some("scorepeek-event-snapshot-v5")
    ensures Applied(v, record, invocation).Some? <==>
              TextOf(record, "invocation_id") == Some(invocation) && SnapshotDocument(record, invocation)
  {
    MemberIsRead(record, "schema");
    MemberIsRead(record, "invocation_id");
    MemberIsRead(record, "next_sequence");
    MemberIsRead(record, "result");
    StatusIsRead(Field(record, "status"));
    if NumberOf(record, "next_sequence").Some? {
      SlotsAreRead(record, NumberOf(record, "next_sequence").value, invocation);
    }
    ResultIsThere(record);
    if TextOf(record, "invocation_id") == Some(invocation) {
      AcceptedExactly(v, record, invocation);
    }
    hide StatusOk, StatusDocument, Replaced, TextOf, NumberOf, Field, SlotOk, Retains, Event, Get;
  }

  lemma ResultIsThere(record: Value)
    ensures !Field(record, "result").Null? ==> Get(record, "result").Some?
  {
  }

  /** No view takes a record of another schema. */
  lemma OtherSchemasAreRefused(v: View, record: Value, invocation: string)
    requires TextOf(record, "schema") !in {Some("scorepeek-event-v5"), Some("scorepeek-event-snapshot-v5")}
    ensures Applied(v, record, invocation).None?
  {
    MemberIsRead(record, "schema");
    hide TextOf, NumberOf, Replaced, LiveOk, Event;
  }
}
