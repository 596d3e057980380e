// What a delivered event says, and that the store keeps just that: in the rows of the plays, in the previous bests
// beside them, in the selected bests, and over whole runs in the bests of the charts.
module ScoreReports {
  import opened Common
  import opened ScoreFacts
  import opened ScoreStore
  import opened ScoreRuns
  import AttributeTable
  import Structured
  import StructuredRoundTrip

  // ---------------------------------------------------------------- what a field says

  // A count has a value exactly when the field is known, and then that one.
  predicate CountIs(value: Option<int>, field: Field<nat>) {
    (value.Some? <==> field.Known?) && (field.Known? ==> value == Some(field.known))
  }

  // The rank of a clear lamp as the result screen writes it.
  predicate ClearIs(rank: Option<int>, text: string) {
    || (text == "NO PLAY" && rank == Some(0))
    || (text == "FAILED" && rank == Some(1))
    || (text == "ASSIST CLEAR" && rank == Some(2))
    || (text == "EASY CLEAR" && rank == Some(3))
    || (text == "CLEAR" && rank == Some(4))
    || (text == "HARD CLEAR" && rank == Some(5))
    || (text == "EXH-CLEAR" && rank == Some(6))
    || (text == "F-COMBO" && rank == Some(7))
  }

  predicate IsClear(text: string) {
    exists rank | 0 <= rank < 8 :: ClearIs(Some(rank), text)
  }

  predicate PreviousClearIs(rank: Option<int>, field: Field<string>) {
    (rank.Some? <==> field.Known?) && (field.Known? ==> ClearIs(rank, field.known))
  }

  // The same ranks as the selection screen names them.
  predicate LampIs(rank: int, clear: SelectClear) {
    || (clear.NoPlay? && rank == 0) || (clear.Failed? && rank == 1) || (clear.AssistClear? && rank == 2)
    || (clear.EasyClear? && rank == 3) || (clear.Clear? && rank == 4) || (clear.HardClear? && rank == 5)
    || (clear.ExHardClear? && rank == 6) || (clear.FullCombo? && rank == 7)
  }

  predicate CurrentIs(fields: Fields, r: ResultData) {
    && Value(fields[0]) == Some(r.score) && CountIs(Value(fields[1]), r.missCount)
    && ClearIs(Value(fields[2]), r.clearType)
  }

  predicate PreviousIs(fields: Fields, r: ResultData) {
    && CountIs(Value(fields[0]), r.previousScore) && CountIs(Value(fields[1]), r.previousMiss)
    && PreviousClearIs(Value(fields[2]), r.previousClear)
  }

  // ---------------------------------------------------------------- a result event

  predicate IsResult(e: Envelope) {
    e.event.ResultChanged? && !e.event.change.Inactive?
  }

  function ResultOf(e: Envelope): ResultData
    requires IsResult(e)
  {
    e.event.change.result
  }

  function SongOf(e: Envelope): Song
    requires IsResult(e)
  {
    e.event.change.song
  }

  predicate Detects(e: Envelope) {
    IsResult(e) && !e.event.change.RetractedResult?
  }

  predicate Confirms(e: Envelope) {
    IsResult(e) && e.event.change.ConfirmedResult?
  }

  // The contract, the song and the clear lamps are ones the store knows.
  ghost predicate Understood(r: ResultData, song: Song) {
    && r.contract == "scorepeek-result-detected-v4"
    && song.songId == r.chart.songId && song.titles != [] && (forall title | title in song.titles :: title != "")
    && IsClear(r.clearType) && (r.previousClear.Known? ==> IsClear(r.previousClear.known))
  }

  function TheAttempt(e: Envelope): Attempt
    requires IsResult(e) && e.session.Some?
  {
    Attempt(e.session.value, ResultOf(e).attemptId)
  }

  lemma SongIsMatched(song: Song, chart: Chart)
    ensures SongMatches(song, chart) <==>
              song.songId == chart.songId && song.titles != [] && forall title | title in song.titles :: title != ""
  {
    if forall i :: 0 <= i < |song.titles| ==> song.titles[i] != "" {
      assert forall title | title in song.titles :: title != "";
    }
    if forall title | title in song.titles :: title != "" {
      forall i | 0 <= i < |song.titles| ensures song.titles[i] != "" {
        assert song.titles[i] in song.titles;
      }
    }
  }

  lemma ClearIsRead(text: string)
    ensures ResultClear(text).Some? <==> IsClear(text)
    ensures ResultClear(text).Some? ==> ClearIs(ResultClear(text), text)
  {
    if ResultClear(text).Some? {
      var rank := ResultClear(text).value;
      assert 0 <= rank < 8 && ClearIs(Some(rank), text);
    }
  }

  // What is read off a result event.
  lemma ResultIsRead(e: Envelope, receivedMs: nat)
    requires IsResult(e)
    ensures !Understood(ResultOf(e), SongOf(e)) ==> Prepare(e, receivedMs) == Err(UnsupportedContract)
    ensures Understood(ResultOf(e), SongOf(e)) ==>
              && Prepare(e, receivedMs).Ok? && Prepare(e, receivedMs).value.Some?
              && var p, r := Prepare(e, receivedMs).value.value, ResultOf(e);
                 && p.chart == r.chart && p.presentation == Some(OfSong(SongOf(e))) && p.attemptId == r.attemptId
                 && p.playSide == r.playSide && p.document == r.document
                 && p.mutation == Some(if e.event.change.RetractedResult? then Retract
                                       else Upsert(if Confirms(e) then Confirmed else Provisional))
                 && CurrentIs(p.current, r) && PreviousIs(p.previous, r)
  {
    var r := ResultOf(e);
    SongIsMatched(SongOf(e), r.chart);
    ClearIsRead(r.clearType);
    if r.previousClear.Known? {
      ClearIsRead(r.previousClear.known);
    }
    hide SongMatches, ResultClear, ClearIs, IsClear;
  }

  // The attributes stored for the play are the nodes of the result's document.
  ghost predicate DocumentIs(db: Db, eventId: string, document: Structured.Value) {
    && Structured.Storable(document)
    && AttributeTable.EventRows(db.attributes, eventId) == StructuredRoundTrip.Rows(document)
  }

  // The row of the attempt and the facts stored beside it say what the result says.
  ghost predicate RowSays(db: Db, a: Attempt, r: ResultData) {
    && a in db.results
    && var row := db.results[a];
       && row.chart == r.chart && row.playSide == r.playSide
       && row.score == Some(r.score) && CountIs(row.miss, r.missCount) && ClearIs(row.clear, r.clearType)
       && CurrentIs(ReadFacts(db.facts, row.eventId, 0), r) && PreviousIs(ReadFacts(db.facts, row.eventId, 1), r)
  }

  ghost predicate RowReports(db: Db, a: Attempt, r: ResultData) {
    RowSays(db, a, r) && DocumentIs(db, db.results[a].eventId, r.document)
  }

  // A detection changes the row of its attempt unless that is confirmed already and the detection is not.
  predicate TakesEffect(db: Db, e: Envelope) {
    Detects(e) && e.session.Some?
    && (TheAttempt(e) in db.results && db.results[TheAttempt(e)].state.Confirmed? ==> Confirms(e))
  }

  lemma UpsertIsWritten(db: Db, e: Envelope, p: Prepared, receivedMs: nat)
    requires Inv(db) && TakesEffect(db, e)
    requires p.mutation == Some(Upsert(if Confirms(e) then Confirmed else Provisional))
    requires Mutated(db, e, p, receivedMs).Ok?
    requires p.chart == ResultOf(e).chart && p.playSide == ResultOf(e).playSide
    requires p.attemptId == ResultOf(e).attemptId
    requires CurrentIs(p.current, ResultOf(e)) && PreviousIs(p.previous, ResultOf(e))
    ensures
      var after, a := Mutated(db, e, p, receivedMs).value, TheAttempt(e);
      && RowSays(after, a, ResultOf(e))
      && after.results[a].eventId == FirstOf(db, a, e, receivedMs).eventId
      && after.results[a].state == (if Confirms(e) then Confirmed else Provisional)
      && after.results[a].latestEventId == e.eventId && !after.results[a].recoveryConfirmed
  {
    hide ReadFacts, SavedFacts, CountIs, ClearIs, PreviousClearIs, Derived, EventIdTaken;
    var a := TheAttempt(e);
    SavedFactsReadBack(db.facts, FirstOf(db, a, e, receivedMs).eventId, p.current, p.previous);
    if a in db.results {
      assert RowIsFirstSeen(db, a);
    }
  }

  lemma DocumentIsWritten(db: Db, e: Envelope, p: Prepared, receivedMs: nat)
    requires TakesEffect(db, e) && p.attemptId == ResultOf(e).attemptId
    requires p.mutation == Some(Upsert(if Confirms(e) then Confirmed else Provisional))
    requires Mutated(db, e, p, receivedMs).Ok?
    ensures
      DocumentIs(Mutated(db, e, p, receivedMs).value, FirstOf(db, TheAttempt(e), e, receivedMs).eventId, p.document)
  {
    hide SavedFacts, UpsertedRow, EventIdTaken;
    var id := FirstOf(db, TheAttempt(e), e, receivedMs).eventId;
    var after := Mutated(db, e, p, receivedMs).value;
    AttributeTable.SavedRows(after.attributes, AttributeTable.Without(db.attributes, id), id, p.document);
  }

  // A consumed result event is read, and its mutation is made and followed by the update of one row of the bests.
  lemma ResultIsMutated(db: Db, cursor: Option<(string, nat)>, e: Envelope, receivedMs: nat) returns (p: Prepared)
    requires IsResult(e) && Consumed(db, cursor, e, receivedMs).result == Ok(true)
    ensures e.session.Some? && Understood(ResultOf(e), SongOf(e)) && Prepare(e, receivedMs) == Ok(Some(p))
    ensures p.mutation.Some? && Mutated(db, e, p, receivedMs).Ok?
    ensures
      var changed := Mutated(db, e, p, receivedMs).value;
      Consumed(db, cursor, e, receivedMs).db
      == changed.(bests := db.bests[ResultOf(e).chart := UpdatedBest(changed, p)]) && changed.bests == db.bests
  {
    ResultIsRead(e, receivedMs);
    p := Prepare(e, receivedMs).value.value;
    assert Accepts(db, cursor, e, receivedMs, p);
    ConsumedParts(db, cursor, e, receivedMs, p);
    hide Consumed, Prepare, UpdatedBest, Understood, CurrentIs, PreviousIs;
    MutatedTouchesOnly(db, e, p, receivedMs);
    hide Mutated;
  }

  lemma IdleDetection(db: Db, e: Envelope, p: Prepared, receivedMs: nat)
    requires Detects(e) && e.session.Some? && !TakesEffect(db, e)
    requires p.mutation == Some(Upsert(if Confirms(e) then Confirmed else Provisional))
    requires p.attemptId == ResultOf(e).attemptId && Mutated(db, e, p, receivedMs).Ok?
    ensures
      var after := Mutated(db, e, p, receivedMs).value;
      after.results == db.results && after.facts == db.facts && after.attributes == db.attributes
  {
    hide SavedFacts, UpsertedRow;
  }

  // A report depends on the plays, their facts and their attributes only.
  lemma SameRowReports(db: Db, after: Db, a: Attempt, r: ResultData)
    requires RowReports(db, a, r)
    requires after.results == db.results && after.facts == db.facts && after.attributes == db.attributes
    ensures RowReports(after, a, r)
  {
    hide CountIs, ClearIs, CurrentIs, PreviousIs, ReadFacts;
  }

  /** A consumed detection that takes effect leaves the row of its attempt and the facts beside it saying what the
      result says, in the state the event gives it; one that does not leaves rows and facts as they were. */
  lemma DetectionIsStored(db: Db, cursor: Option<(string, nat)>, e: Envelope, receivedMs: nat)
    requires Inv(db) && Detects(e) && Consumed(db, cursor, e, receivedMs).result == Ok(true)
    ensures e.session.Some?
    ensures
      var after, a := Consumed(db, cursor, e, receivedMs).db, TheAttempt(e);
      if TakesEffect(db, e) then
        && RowReports(after, a, ResultOf(e))
        && after.results[a].state == (if Confirms(e) then Confirmed else Provisional)
        && after.results[a].latestEventId == e.eventId && !after.results[a].recoveryConfirmed
        && after.results - {a} == db.results - {a}
      else after.results == db.results && after.facts == db.facts && after.attributes == db.attributes
  {
    var p := ResultIsMutated(db, cursor, e, receivedMs);
    ResultIsRead(e, receivedMs);
    MutatedTouchesOnly(db, e, p, receivedMs);
    hide Consumed, Prepare, UpdatedBest, Understood, CurrentIs, PreviousIs, Inv, Mutated;
    if TakesEffect(db, e) {
      UpsertIsWritten(db, e, p, receivedMs);
      DocumentIsWritten(db, e, p, receivedMs);
      SameRowReports(Mutated(db, e, p, receivedMs).value, Consumed(db, cursor, e, receivedMs).db, TheAttempt(e),
                     ResultOf(e));
      hide RowReports, RowSays, DocumentIs;
    } else {
      IdleDetection(db, e, p, receivedMs);
    }
  }

  /** A consumed retraction takes the play of its attempt away unless it is confirmed, and no other. */
  lemma RetractionIsStored(db: Db, cursor: Option<(string, nat)>, e: Envelope, receivedMs: nat)
    requires IsResult(e) && !Detects(e) && Consumed(db, cursor, e, receivedMs).result == Ok(true)
    ensures e.session.Some?
    ensures
      var after, a := Consumed(db, cursor, e, receivedMs).db, TheAttempt(e);
      if a in db.results && db.results[a].state.Provisional? then after.results == db.results - {a}
      else after.results == db.results && after.facts == db.facts && after.attributes == db.attributes
  {
    var p := ResultIsMutated(db, cursor, e, receivedMs);
    ResultIsRead(e, receivedMs);
    hide Consumed, Prepare, UpdatedBest, Understood, CurrentIs, PreviousIs;
  }

  // ---------------------------------------------------------------- refusals

  // Another attempt's play was first seen under the event id this attempt's play would be stored under.
  predicate IdIsTaken(db: Db, e: Envelope)
    requires IsResult(e) && e.session.Some?
  {
    var a := TheAttempt(e);
    var id := if a in db.origins then db.origins[a].eventId else e.eventId;
    a !in db.results && exists b | b in db.results :: db.results[b].eventId == id
  }

  predicate Addressed(e: Envelope) {
    e.eventId != "" && e.session.Some? && e.session.value != ""
  }

  // The stream is past the event already.
  predicate Behind(cursor: Option<(string, nat)>, e: Envelope) {
    cursor.Some? && cursor.value.0 == e.invocationId && e.sequence <= cursor.value.1
  }

  lemma ResultEnvelope(e: Envelope)
    requires IsResult(e)
    ensures EnvelopeIsValid(e) ==> Addressed(e)
    ensures Addressed(e) && Understood(ResultOf(e), SongOf(e)) ==> EnvelopeIsValid(e)
  {
    SongIsMatched(SongOf(e), ResultOf(e).chart);
    hide SongMatches, IsClear;
  }

  // Why an addressed, understood and new result event is refused, if it is.
  lemma MutationIsRefusedExactly(db: Db, e: Envelope, p: Prepared, receivedMs: nat)
    requires IsResult(e) && Addressed(e)
    requires p.attemptId == ResultOf(e).attemptId && p.document == ResultOf(e).document
    requires p.mutation == Some(if e.event.change.RetractedResult? then Retract
                                else Upsert(if Confirms(e) then Confirmed else Provisional))
    ensures
      var r, max := ResultOf(e), 0x7fff_ffff_ffff_ffff;
      match Mutated(db, e, p, receivedMs)
      case Ok(_) => true
      case Err(UnsupportedContract) =>
        || r.attemptId > max || (Detects(e) && receivedMs > max)
        || (TakesEffect(db, e) && !IdIsTaken(db, e) && !Structured.Storable(r.document))
      case Err(ConstraintViolation) => r.attemptId <= max && Detects(e) && receivedMs <= max && IdIsTaken(db, e)
    ensures
      var r, max := ResultOf(e), 0x7fff_ffff_ffff_ffff;
      Mutated(db, e, p, receivedMs).Ok? ==>
        && r.attemptId <= max && (Detects(e) ==> receivedMs <= max && !IdIsTaken(db, e))
        && (TakesEffect(db, e) ==> Structured.Storable(r.document))
  {
    hide SavedFacts, UpsertedRow;
  }

  /** A result event is consumed exactly when it is addressed to a session, not behind the stream, understood, within
      the table's integers, storable if it takes effect, and its event id is not taken. */
  lemma ResultIsConsumedExactly(db: Db, cursor: Option<(string, nat)>, e: Envelope, receivedMs: nat)
    requires IsResult(e)
    ensures
      var result, r, max := Consumed(db, cursor, e, receivedMs).result, ResultOf(e), 0x7fff_ffff_ffff_ffff;
      && (result == Ok(true) <==>
            && Addressed(e) && !Behind(cursor, e) && Understood(r, SongOf(e)) && r.attemptId <= max
            && (Detects(e) ==> receivedMs <= max && !IdIsTaken(db, e))
            && (TakesEffect(db, e) ==> Structured.Storable(r.document)))
      && (result == Err(ConstraintViolation) ==> Addressed(e) && Detects(e) && IdIsTaken(db, e))
      && (result == Ok(false) ==> Behind(cursor, e))
  {
    ResultEnvelope(e);
    ResultIsRead(e, receivedMs);
    hide Prepare, UpdatedBest, Understood, CurrentIs, PreviousIs, EnvelopeIsValid, Addressed;
    if EnvelopeIsValid(e) && !AlreadySeen(cursor, e) && Understood(ResultOf(e), SongOf(e)) {
      MutationIsRefusedExactly(db, e, Prepare(e, receivedMs).value.value, receivedMs);
    }
    hide Mutated;
  }

  // ---------------------------------------------------------------- a selection

  // An observed value replaces the slot, a shown absence of a record empties it, and anything else leaves it.
  predicate CountSelected(after: Slot, before: Slot, field: Field<nat>) {
    match field
    case Known(v) => Value(after) == Some(v)
    case NoRecord => after.Some? && Value(after).None?
    case _ => after == before
  }

  predicate LampSelected(after: Slot, before: Slot, field: Field<SelectClear>) {
    match field
    case Known(clear) => Value(after).Some? && LampIs(Value(after).value, clear)
    case NoRecord => after.Some? && Value(after).None?
    case _ => after == before
  }

  predicate Selects(e: Envelope) {
    e.event.BestObserved? && e.event.snapshot.Some?
  }

  lemma SelectionIsRead(e: Envelope, receivedMs: nat, saved: Facts)
    requires Selects(e)
    ensures
      var s := e.event.snapshot.value;
      if s.contract == "scorepeek-music-select-best-snapshot-v4" then
        && Prepare(e, receivedMs).Ok? && Prepare(e, receivedMs).value.Some?
        && var p := Prepare(e, receivedMs).value.value;
           && p.chart == s.chart && p.mutation.None? && p.presentation == Some(OfSelect(s.presentation))
           && CountSelected(Overlay(saved[6..9], p.current)[0], saved[6], s.score)
           && CountSelected(Overlay(saved[6..9], p.current)[1], saved[7], s.missCount)
           && LampSelected(Overlay(saved[6..9], p.current)[2], saved[8], s.clearType)
      else Prepare(e, receivedMs) == Err(UnsupportedContract)
  {
    assert saved[6..9][0] == saved[6] && saved[6..9][1] == saved[7] && saved[6..9][2] == saved[8];
  }

  lemma SelectedSlots(db: Db, p: Prepared)
    requires p.mutation.None?
    ensures
      var facts, saved := UpdatedBest(db, p).facts, SavedBest(db, p.chart);
      facts[..6] == saved[..6] && forall i | 0 <= i < 3 :: facts[6 + i] == Overlay(saved[6..9], p.current)[i]
  {
    hide Integrated;
    var saved := SavedBest(db, p.chart);
    var sources: Facts := saved[..6] + Overlay(saved[6..9], p.current) + saved[9..];
    IntegratedIsBest(sources, 0);
    var facts := UpdatedBest(db, p).facts;
    assert facts[..9] == sources[..9];
    forall i | 0 <= i < 3 ensures facts[6 + i] == Overlay(saved[6..9], p.current)[i] {
      assert facts[..9][6 + i] == sources[..9][6 + i];
    }
    assert facts[..6] == facts[..9][..6] && sources[..9][..6] == saved[..6];
  }

  /** A consumed selection sets the three selected slots of its chart by what was observed, keeps the slots of the
      plays, and touches no play, no other chart and no table beside the bests. */
  lemma SelectionIsStored(db: Db, cursor: Option<(string, nat)>, e: Envelope, receivedMs: nat)
    requires Selects(e) && Consumed(db, cursor, e, receivedMs).result == Ok(true)
    ensures
      var after, s := Consumed(db, cursor, e, receivedMs).db, e.event.snapshot.value;
      && after == db.(bests := after.bests)
      && s.chart in after.bests && after.bests - {s.chart} == db.bests - {s.chart}
      && var facts, saved := after.bests[s.chart].facts, SavedBest(db, s.chart);
         && CountSelected(facts[6], saved[6], s.score) && CountSelected(facts[7], saved[7], s.missCount)
         && LampSelected(facts[8], saved[8], s.clearType)
         && facts[..6] == saved[..6]
         && after.bests[s.chart].presentation == Some(OfSelect(s.presentation))
  {
    SelectionIsRead(e, receivedMs, SavedBest(db, e.event.snapshot.value.chart));
    var p := Prepare(e, receivedMs).value.value;
    assert Accepts(db, cursor, e, receivedMs, p);
    ConsumedParts(db, cursor, e, receivedMs, p);
    SelectedSlots(db, p);
    assert UpdatedBest(db, p).presentation == p.presentation;
    hide Consumed, Prepare, EnvelopeIsValid, CountSelected, LampSelected, UpdatedBest, Overlay, SavedBest;
  }

  // ---------------------------------------------------------------- runs

  // What the last detection of an attempt that took effect reported.
  datatype Report = Report(result: ResultData, confirmed: bool)

  // Kept from the deliveries alone: a detection replaces the report unless that is confirmed and it is not, and a
  // retraction takes a report away unless it is confirmed; reopening confirms them all.
  function NextReports(w: map<Attempt, Report>, s: Session, input: Input): map<Attempt, Report> {
    match input
    case Reopen => map a | a in w :: w[a].(confirmed := true)
    case Deliver(e, receivedMs) =>
      if Consumed(s.db, s.cursor, e, receivedMs).result != Ok(true) || !IsResult(e) || e.session.None? then w
      else
        var a := TheAttempt(e);
        if a in w && w[a].confirmed && !Confirms(e) then w
        else if Detects(e) then w[a := Report(ResultOf(e), Confirms(e))]
        else w - {a}
  }

  function Reports(inputs: seq<Input>): map<Attempt, Report> {
    if inputs == [] then map[]
    else
      var before := inputs[..|inputs| - 1];
      NextReports(Reports(before), Run(before), inputs[|inputs| - 1])
  }

  // The live plays are those reported, with the values and in the state reported.
  ghost predicate Reported(db: Db, w: map<Attempt, Report>) {
    && db.results.Keys == w.Keys
    && forall a | a in w ::
         RowReports(db, a, w[a].result) && (db.results[a].state.Confirmed? <==> w[a].confirmed)
  }

  lemma OtherFactsAndRows(db: Db, e: Envelope, p: Prepared, receivedMs: nat, b: Attempt)
    requires Inv(db) && p.mutation.Some? && Mutated(db, e, p, receivedMs).Ok?
    requires b in db.results && b != AttemptOf(e, p)
    ensures
      var after, id := Mutated(db, e, p, receivedMs).value, db.results[b].eventId;
      && b in after.results && after.results[b] == db.results[b]
      && ReadFacts(after.facts, id, 0) == ReadFacts(db.facts, id, 0)
      && ReadFacts(after.facts, id, 1) == ReadFacts(db.facts, id, 1)
      && AttributeTable.EventRows(after.attributes, id) == AttributeTable.EventRows(db.attributes, id)
  {
    hide ReadFacts, SavedFacts, WithoutFacts, RowHasFacts, UpsertedRow, Derived;
    var a := AttemptOf(e, p);
    assert RowIsFirstSeen(db, b);
    if a in db.results { assert RowIsFirstSeen(db, a); }
    match p.mutation.value
    case Upsert(_) =>
      SavedFactsReadBack(db.facts, FirstOf(db, a, e, receivedMs).eventId, p.current, p.previous);
      OtherEventRows(db.attributes, FirstOf(db, a, e, receivedMs).eventId, p.document, db.results[b].eventId);
    case Retract =>
      if a in db.results {
        OtherFactsStay(db.facts, db.results[a].eventId);
        OtherEventRows(db.attributes, db.results[a].eventId, p.document, db.results[b].eventId);
      }
  }

  lemma OtherEventRows(table: AttributeTable.Table, id: string, document: Structured.Value, other: string)
    ensures
      var kept := AttributeTable.Without(table, id);
      other != id ==>
        && AttributeTable.EventRows(kept, other) == AttributeTable.EventRows(table, other)
        && AttributeTable.EventRows(kept + AttributeTable.RowsUnder(id, "", document), other)
           == AttributeTable.EventRows(table, other)
  {
    forall k | k in AttributeTable.RowsUnder(id, "", document) ensures k.event == id {}
    hide AttributeTable.RowsUnder;
  }

  lemma OtherReportStays(db: Db, cursor: Option<(string, nat)>, e: Envelope, receivedMs: nat, b: Attempt, r: ResultData)
    requires Inv(db) && IsResult(e) && Consumed(db, cursor, e, receivedMs).result == Ok(true)
    requires e.session.Some? && b != TheAttempt(e) && RowReports(db, b, r)
    ensures
      var after := Consumed(db, cursor, e, receivedMs).db;
      b in after.results && RowReports(after, b, r) && after.results[b] == db.results[b]
  {
    var p := ResultIsMutated(db, cursor, e, receivedMs);
    ResultIsRead(e, receivedMs);
    hide Consumed, Prepare, UpdatedBest, Understood, Inv, Mutated, CountIs, ClearIs, CurrentIs, PreviousIs, ReadFacts;
    OtherFactsAndRows(db, e, p, receivedMs, b);
  }

  lemma OtherReportsStay(s: Session, w: map<Attempt, Report>, e: Envelope, receivedMs: nat)
    requires Inv(s.db) && Reported(s.db, w)
    requires IsResult(e) && Consumed(s.db, s.cursor, e, receivedMs).result == Ok(true) && e.session.Some?
    ensures
      var after := Consumed(s.db, s.cursor, e, receivedMs).db;
      OthersStand(after, w, TheAttempt(e))
  {
    hide Consumed, RowReports, Inv;
    forall b | b in w && b != TheAttempt(e)
      ensures
        var after := Consumed(s.db, s.cursor, e, receivedMs).db;
        && b in after.results && RowReports(after, b, w[b].result)
        && (after.results[b].state.Confirmed? <==> w[b].confirmed)
    {
      OtherReportStays(s.db, s.cursor, e, receivedMs, b, w[b].result);
    }
  }

  // The reports but for one attempt's still stand.
  ghost predicate OthersStand(after: Db, w: map<Attempt, Report>, a: Attempt) {
    forall b | b in w && b != a ::
      && b in after.results && RowReports(after, b, w[b].result)
      && (after.results[b].state.Confirmed? <==> w[b].confirmed)
  }

  lemma ReportReplaced(db: Db, after: Db, w: map<Attempt, Report>, a: Attempt, report: Report)
    requires db.results.Keys == w.Keys && OthersStand(after, w, a) && after.results - {a} == db.results - {a}
    requires RowReports(after, a, report.result) && (after.results[a].state.Confirmed? <==> report.confirmed)
    ensures Reported(after, w[a := report])
  {
    assert a in after.results;
    assert after.results.Keys == w[a := report].Keys by {
      hide *;
      SameKeysButOne(db.results, after.results, a);
      KeysPutBack(w, after.results, a, report);
    }
    hide RowReports;
    var now := w[a := report];
    forall b | b in now
      ensures RowReports(after, b, now[b].result) && (after.results[b].state.Confirmed? <==> now[b].confirmed)
    {
      if b != a {
        assert b in w && now[b] == w[b];
      }
    }
  }

  lemma KeysPutBack(w: map<Attempt, Report>, rows: map<Attempt, PlayRow>, a: Attempt, report: Report)
    requires a in rows && rows.Keys - {a} == w.Keys - {a}
    ensures rows.Keys == w[a := report].Keys
  {
    assert rows.Keys == (rows.Keys - {a}) + {a};
    assert w[a := report].Keys == (w.Keys - {a}) + {a};
  }

  lemma ReportRemoved(db: Db, after: Db, w: map<Attempt, Report>, a: Attempt)
    requires db.results.Keys == w.Keys && OthersStand(after, w, a) && after.results == db.results - {a}
    ensures Reported(after, w - {a})
  {
    hide RowReports;
  }

  lemma ReportsStand(db: Db, after: Db, w: map<Attempt, Report>)
    requires Reported(db, w)
    requires after.results == db.results && after.facts == db.facts && after.attributes == db.attributes
    ensures Reported(after, w)
  {
    hide RowReports;
    forall a | a in w ensures RowReports(after, a, w[a].result) {
      SameRowReports(db, after, a, w[a].result);
    }
  }

  lemma SameKeysButOne(before: map<Attempt, PlayRow>, after: map<Attempt, PlayRow>, a: Attempt)
    requires after - {a} == before - {a}
    ensures after.Keys - {a} == before.Keys - {a}
  {
    assert (after - {a}).Keys == after.Keys - {a} && (before - {a}).Keys == before.Keys - {a};
  }

  // The attempt's own report after the event.
  lemma DetectionIsReported(s: Session, w: map<Attempt, Report>, e: Envelope, receivedMs: nat)
    requires Inv(s.db) && Reported(s.db, w)
    requires Detects(e) && Consumed(s.db, s.cursor, e, receivedMs).result == Ok(true)
    ensures Reported(Step(s, Deliver(e, receivedMs)).db, NextReports(w, s, Deliver(e, receivedMs)))
  {
    var after := Consumed(s.db, s.cursor, e, receivedMs).db;
    hide Consumed, Inv, RowReports;
    DetectionIsStored(s.db, s.cursor, e, receivedMs);
    OtherReportsStay(s, w, e, receivedMs);
    var a := TheAttempt(e);
    assert a in w ==> (s.db.results[a].state.Confirmed? <==> w[a].confirmed);
    assert a in w <==> a in s.db.results;
    if TakesEffect(s.db, e) {
      ReportReplaced(s.db, after, w, a, Report(ResultOf(e), Confirms(e)));
    } else {
      ReportsStand(s.db, after, w);
    }
    hide Reported;
  }

  lemma RetractionIsReported(s: Session, w: map<Attempt, Report>, e: Envelope, receivedMs: nat)
    requires Inv(s.db) && Reported(s.db, w)
    requires IsResult(e) && !Detects(e) && Consumed(s.db, s.cursor, e, receivedMs).result == Ok(true)
    ensures Reported(Step(s, Deliver(e, receivedMs)).db, NextReports(w, s, Deliver(e, receivedMs)))
  {
    var after := Consumed(s.db, s.cursor, e, receivedMs).db;
    hide Consumed, Inv, RowReports;
    RetractionIsStored(s.db, s.cursor, e, receivedMs);
    OtherReportsStay(s, w, e, receivedMs);
    var a := TheAttempt(e);
    assert a in w ==> (s.db.results[a].state.Confirmed? <==> w[a].confirmed);
    assert a in w <==> a in s.db.results;
    if a in w && !w[a].confirmed {
      ReportRemoved(s.db, after, w, a);
    } else {
      ReportsStand(s.db, after, w);
      assert a !in w ==> w - {a} == w;
    }
    hide Reported;
  }

  lemma RecoveryIsReported(s: Session, w: map<Attempt, Report>)
    requires Reported(s.db, w)
    ensures Reported(Step(s, Reopen).db, NextReports(w, s, Reopen))
  {
    forall a | a in w ensures RowReports(Recovered(s.db), a, w[a].result) {
      RecoveredRowReports(s.db, a, w[a].result);
    }
    hide RowReports;
  }

  lemma RecoveredRowReports(db: Db, a: Attempt, r: ResultData)
    requires RowReports(db, a, r)
    ensures RowReports(Recovered(db), a, r)
  {
    hide CountIs, ClearIs, CurrentIs, PreviousIs, ReadFacts;
  }

  // Anything but a consumed result event leaves the plays alone.
  lemma OtherDeliveryIsReported(s: Session, w: map<Attempt, Report>, e: Envelope, receivedMs: nat)
    requires Reported(s.db, w)
    requires Consumed(s.db, s.cursor, e, receivedMs).result != Ok(true) || !IsResult(e)
    ensures Reported(Step(s, Deliver(e, receivedMs)).db, NextReports(w, s, Deliver(e, receivedMs)))
  {
    var after := Consumed(s.db, s.cursor, e, receivedMs).db;
    OtherDeliveryKeepsPlays(s.db, s.cursor, e, receivedMs);
    hide Consumed;
    forall a | a in w ensures RowReports(after, a, w[a].result) {
      assert RowReports(s.db, a, w[a].result);
      SameRowReports(s.db, after, a, w[a].result);
    }
    hide RowReports;
  }

  lemma OtherDeliveryKeepsPlays(db: Db, cursor: Option<(string, nat)>, e: Envelope, receivedMs: nat)
    requires Consumed(db, cursor, e, receivedMs).result != Ok(true) || !IsResult(e)
    ensures Consumed(db, cursor, e, receivedMs).db == db.(bests := Consumed(db, cursor, e, receivedMs).db.bests)
  {
    hide UpdatedBest, Mutated, PrepareResult, EnvelopeIsValid;
  }

  /** In every run the live plays are exactly the attempts with a report, and the row of each, its facts and its
      attributes say what the report says. */
  lemma {:induction false} RowsAreReported(inputs: seq<Input>)
    ensures Reported(Run(inputs).db, Reports(inputs))
  {
    hide Step, NextReports, Reported, Consumed;
    if inputs == [] {
      assert Reported(EMPTY_DB, map[]) by { NothingReported(); }
    } else {
      var before, input := inputs[..|inputs| - 1], inputs[|inputs| - 1];
      var s := Run(before);
      RowsAreReported(before);
      RunInvariant(before);
      match input
      case Reopen => RecoveryIsReported(s, Reports(before));
      case Deliver(e, receivedMs) =>
        if !IsResult(e) || Consumed(s.db, s.cursor, e, receivedMs).result != Ok(true) {
          OtherDeliveryIsReported(s, Reports(before), e, receivedMs);
        } else if Detects(e) {
          DetectionIsReported(s, Reports(before), e, receivedMs);
        } else {
          RetractionIsReported(s, Reports(before), e, receivedMs);
        }
    }
  }

  lemma NothingReported()
    ensures Reported(EMPTY_DB, map[])
  {
  }

  // ---------------------------------------------------------------- the bests

  // The value that a result reports for a field: score, miss count, clear.
  predicate Says(r: ResultData, field: nat, value: Option<int>) {
    match field
    case 0 => value == Some(r.score)
    case 1 => CountIs(value, r.missCount)
    case _ => ClearIs(value, r.clearType)
  }

  predicate Beats(field: nat, x: int, y: int) {
    if field == 1 then x < y else y < x
  }

  // `best` is the best value that the reports on a chart give for a field.
  ghost predicate IsBestReport(w: map<Attempt, Report>, chart: Chart, field: nat, best: Option<int>) {
    && (forall a, v: int | a in w && w[a].result.chart == chart && Says(w[a].result, field, Some(v)) ::
          best.Some? && !Beats(field, v, best.value))
    && (best.Some? ==> exists a :: a in w && w[a].result.chart == chart && Says(w[a].result, field, best))
  }

  lemma RowSaysValue(db: Db, a: Attempt, r: ResultData, field: nat, v: Option<int>)
    requires RowReports(db, a, r) && field < 3
    ensures Says(r, field, v) <==> v == RowValue(db.results[a], field)
  {
    hide CurrentIs, PreviousIs, DocumentIs;
  }

  /** In every run in which no event that takes effect takes a live play from another chart, the stored bests of a chart
      are the highest score, the lowest miss count and the highest clear that the standing reports on it give. */
  lemma BestsAreReported(inputs: seq<Input>, chart: Chart, field: nat)
    requires NoSilentMove(inputs) && field < 3
    requires chart in Run(inputs).db.bests
    ensures IsBestReport(Reports(inputs), chart, field, Value(Run(inputs).db.bests[chart].facts[field]))
  {
    ViewShowsBestPlays(inputs, chart, field);
    RowsAreReported(inputs);
    var db, w, best := Run(inputs).db, Reports(inputs), Value(Run(inputs).db.bests[chart].facts[field]);
    hide Run, Reports, NoSilentMove, RowReports, RowValue, Says;
    forall a | a in w
      ensures db.results[a].chart == w[a].result.chart
      ensures forall v :: Says(w[a].result, field, v) <==> v == RowValue(db.results[a], field)
    {
      ReportIsOfChart(db, a, w[a].result);
      forall v ensures Says(w[a].result, field, v) <==> v == RowValue(db.results[a], field) {
        RowSaysValue(db, a, w[a].result, field, v);
      }
    }
    BestOfReports(db.results, w, chart, field, best);
  }

  lemma BestOfReports(results: map<Attempt, PlayRow>, w: map<Attempt, Report>, chart: Chart, field: nat,
                      best: Option<int>)
    requires field < 3 && results.Keys == w.Keys && IsBestPlay(results, chart, field, best)
    requires forall a | a in w ::
               && results[a].chart == w[a].result.chart
               && forall v :: Says(w[a].result, field, v) <==> v == RowValue(results[a], field)
    ensures IsBestReport(w, chart, field, best)
  {
    hide RowValue, Says;
  }

  lemma ReportIsOfChart(db: Db, a: Attempt, r: ResultData)
    requires RowReports(db, a, r)
    ensures db.results[a].chart == r.chart
  {
  }
}
