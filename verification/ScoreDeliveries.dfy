// What every delivery answers, what it leaves alone, and where the facts it stores say they come from.
module ScoreDeliveries {
  import opened Common
  import opened ScoreFacts
  import opened ScoreStore
  import opened ScoreRuns
  import opened ScoreReports
  import Ordering
  import Text

  // ---------------------------------------------------------------- the answer and the cursor

  // An event with no chart in it.
  predicate Silent(e: Envelope) {
    !IsResult(e) && !Selects(e)
  }

  // The envelope is addressed as its event demands.
  ghost predicate WellAddressed(e: Envelope) {
    && e.eventId != "" && (e.session.Some? ==> e.session.value != "")
    && (IsResult(e) ==>
          && e.session.Some? && SongOf(e).songId == ResultOf(e).chart.songId
          && SongOf(e).titles != [] && forall title | title in SongOf(e).titles :: title != "")
  }

  lemma AddressIsChecked(e: Envelope)
    ensures EnvelopeIsValid(e) <==> WellAddressed(e)
  {
    if IsResult(e) {
      SongIsMatched(SongOf(e), ResultOf(e).chart);
    }
    hide SongMatches;
  }

  /** Every delivery is answered in one of three ways: an error leaves database and cursor alone; an event that is
      behind the cursor changes nothing; any other moves the cursor to itself, and changes the database only when it
      names a chart. */
  lemma DeliveryIsAnswered(db: Db, cursor: Option<(string, nat)>, e: Envelope, receivedMs: nat)
    ensures
      var o, here := Consumed(db, cursor, e, receivedMs), Some((e.invocationId, e.sequence));
      && (o.result.Err? ==> o.db == db && o.cursor == cursor && (!WellAddressed(e) || !Behind(cursor, e)))
      && (!WellAddressed(e) ==> o.result == Err(UnsupportedContract))
      && (WellAddressed(e) && Behind(cursor, e) ==> o == Outcome(db, cursor, Ok(false)))
      && (o.result.Ok? && !Behind(cursor, e) ==> o.cursor == here && (o.result == Ok(true) <==> !Silent(e)))
      && (WellAddressed(e) && Silent(e) && !Behind(cursor, e) ==> o == Outcome(db, here, Ok(false)))
  {
    AddressIsChecked(e);
    if IsResult(e) {
      ResultIsRead(e, receivedMs);
    } else if Selects(e) {
      SelectionIsRead(e, receivedMs, NoFacts());
    }
    hide EnvelopeIsValid, WellAddressed, UpdatedBest, Mutated, Understood, CurrentIs, PreviousIs, CountSelected;
    hide LampSelected, Overlay, PrepareResult;
  }

  /** A selection is consumed exactly when it is addressed, new and of the contract the store knows. */
  lemma SelectionIsConsumedExactly(db: Db, cursor: Option<(string, nat)>, e: Envelope, receivedMs: nat)
    requires Selects(e)
    ensures Consumed(db, cursor, e, receivedMs).result == Ok(true)
            <==> && e.eventId != "" && (e.session.Some? ==> e.session.value != "") && !Behind(cursor, e)
                 && e.event.snapshot.value.contract == "scorepeek-music-select-best-snapshot-v4"
  {
    AddressIsChecked(e);
    SelectionIsRead(e, receivedMs, NoFacts());
    hide EnvelopeIsValid, UpdatedBest, CountSelected, LampSelected, Overlay;
  }

  // ---------------------------------------------------------------- what a result leaves alone

  lemma ResultSlots(db: Db, p: Prepared)
    requires p.mutation.Some?
    ensures UpdatedBest(db, p).facts[6..9] == SavedBest(db, p.chart)[6..9]
  {
    hide Integrated, Recomputed;
    var saved := SavedBest(db, p.chart);
    var sources: Facts := Recomputed(db, p.chart) + saved[6..];
    IntegratedIsBest(sources, 0);
    var facts := UpdatedBest(db, p).facts;
    assert facts[..9] == sources[..9];
    assert facts[6..9] == facts[..9][6..9] && sources[..9][6..9] == sources[6..9] == saved[6..9];
  }

  /** A consumed result shows its song on its chart, keeps what was selected there, and leaves every other chart. */
  lemma ResultKeepsSelection(db: Db, cursor: Option<(string, nat)>, e: Envelope, receivedMs: nat)
    requires IsResult(e) && Consumed(db, cursor, e, receivedMs).result == Ok(true)
    ensures
      var after, chart := Consumed(db, cursor, e, receivedMs).db, ResultOf(e).chart;
      && chart in after.bests && after.bests - {chart} == db.bests - {chart}
      && after.bests[chart].presentation == Some(OfSong(SongOf(e)))
      && after.bests[chart].facts[6..9] == SavedBest(db, chart)[6..9]
  {
    var p := ResultIsMutated(db, cursor, e, receivedMs);
    ResultIsRead(e, receivedMs);
    var changed := Mutated(db, e, p, receivedMs).value;
    ResultSlots(changed, p);
    assert UpdatedBest(changed, p).presentation == p.presentation;
    hide Consumed, Prepare, UpdatedBest, Understood, CurrentIs, PreviousIs, Mutated;
  }

  // ---------------------------------------------------------------- where facts come from

  // The event itself, as it was received.
  predicate ComesFrom(o: Origin, e: Envelope, receivedMs: nat) {
    && o.eventId == e.eventId && o.invocationId == e.invocationId && o.sequence == e.sequence
    && o.emittedMs == e.emittedMs && o.receivedMs == receivedMs && o.session == e.session
  }

  // Every fact of the three fields names its source and the result event, and no observation.
  predicate AllFrom(fields: Fields, source: Source, e: Envelope, receivedMs: nat) {
    forall i | 0 <= i < 3 && fields[i].Some? ::
      && fields[i].value.source == source && ComesFrom(fields[i].value.origin, e, receivedMs)
      && fields[i].value.origin.revision.None? && fields[i].value.origin.observationId.None?
  }

  lemma ResultFactsComeFrom(e: Envelope, receivedMs: nat)
    requires IsResult(e) && Prepare(e, receivedMs).Ok? && Prepare(e, receivedMs).value.Some?
    ensures
      var p := Prepare(e, receivedMs).value.value;
      AllFrom(p.current, FromResult, e, receivedMs) && AllFrom(p.previous, FromPreviousBest, e, receivedMs)
  {
    hide SongMatches, ResultClear;
  }

  /** Beside the row of a detection that took effect, the result facts and the previous-best facts name their source
      and that event. */
  lemma DetectionNamesItsOrigin(db: Db, cursor: Option<(string, nat)>, e: Envelope, receivedMs: nat)
    requires Inv(db) && TakesEffect(db, e) && Consumed(db, cursor, e, receivedMs).result == Ok(true)
    ensures
      var after, a := Consumed(db, cursor, e, receivedMs).db, TheAttempt(e);
      && a in after.results
      && AllFrom(ReadFacts(after.facts, after.results[a].eventId, 0), FromResult, e, receivedMs)
      && AllFrom(ReadFacts(after.facts, after.results[a].eventId, 1), FromPreviousBest, e, receivedMs)
  {
    var p := ResultIsMutated(db, cursor, e, receivedMs);
    ResultIsRead(e, receivedMs);
    ResultFactsComeFrom(e, receivedMs);
    hide Consumed, Prepare, UpdatedBest, Understood, CurrentIs, PreviousIs, AllFrom, ReadFacts, SavedFacts;
    hide EventIdTaken;
    SavedFactsReadBack(db.facts, FirstOf(db, TheAttempt(e), e, receivedMs).eventId, p.current, p.previous);
    if TheAttempt(e) in db.results {
      assert RowIsFirstSeen(db, TheAttempt(e));
    }
  }

  // An observed slot names the selection screen, the event and the observation.
  predicate Observed(slot: Slot, e: Envelope, receivedMs: nat)
    requires Selects(e)
  {
    && slot.Some? && slot.value.source == FromSelect && ComesFrom(slot.value.origin, e, receivedMs)
    && slot.value.origin.revision == Some(e.event.snapshot.value.revision)
    && slot.value.origin.observationId == Some(e.event.snapshot.value.observationId)
  }

  lemma OverlaidIsObserved(e: Envelope, receivedMs: nat, saved: Fields)
    requires Selects(e) && Prepare(e, receivedMs).Ok? && Prepare(e, receivedMs).value.Some?
    ensures
      var s, shown := e.event.snapshot.value, Overlay(saved, Prepare(e, receivedMs).value.value.current);
      && (s.score.Known? || s.score.NoRecord? ==> Observed(shown[0], e, receivedMs))
      && (s.missCount.Known? || s.missCount.NoRecord? ==> Observed(shown[1], e, receivedMs))
      && (s.clearType.Known? || s.clearType.NoRecord? ==> Observed(shown[2], e, receivedMs))
  {
  }

  /** A slot that a consumed selection sets names the selection screen, that event and its observation. */
  lemma SelectionNamesItsOrigin(db: Db, cursor: Option<(string, nat)>, e: Envelope, receivedMs: nat)
    requires Selects(e) && Consumed(db, cursor, e, receivedMs).result == Ok(true)
    ensures
      var s := e.event.snapshot.value;
      var facts := SavedBest(Consumed(db, cursor, e, receivedMs).db, s.chart);
      && (s.score.Known? || s.score.NoRecord? ==> Observed(facts[6], e, receivedMs))
      && (s.missCount.Known? || s.missCount.NoRecord? ==> Observed(facts[7], e, receivedMs))
      && (s.clearType.Known? || s.clearType.NoRecord? ==> Observed(facts[8], e, receivedMs))
  {
    var s := e.event.snapshot.value;
    SelectionIsRead(e, receivedMs, SavedBest(db, s.chart));
    var p := Prepare(e, receivedMs).value.value;
    assert Accepts(db, cursor, e, receivedMs, p);
    ConsumedParts(db, cursor, e, receivedMs, p);
    SelectedSlots(db, p);
    OverlaidIsObserved(e, receivedMs, SavedBest(db, s.chart)[6..9]);
    hide Consumed, Prepare, EnvelopeIsValid, Observed, UpdatedBest, Overlay;
  }

  // ---------------------------------------------------------------- which of several best plays

  predicate Earlier(a: RowKey, b: RowKey) {
    a.emittedMs < b.emittedMs || (a.emittedMs == b.emittedMs && Text.Less(a.eventId, b.eventId))
  }

  // The slot is the fact of the earliest of the chart's plays that has its value.
  ghost predicate IsEarliest(db: Db, chart: Chart, field: nat, slot: Slot, k: RowKey)
    requires field < 3
  {
    && k in RowKeys(db.results, chart) && slot == ReadFacts(db.facts, k.eventId, 0)[field]
    && forall j | j in RowKeys(db.results, chart) && j != k
                  && Value(ReadFacts(db.facts, j.eventId, 0)[field]) == Value(slot) :: Earlier(k, j)
  }

  /** The recomputed fact of a field is that of the earliest play with the best value, by the time it was emitted and
      then by its event id. */
  lemma EarliestPlayIsShown(db: Db, chart: Chart, field: nat)
    requires field < 3
    ensures
      var slot := Recomputed(db, chart)[field];
      Value(slot).Some? ==> exists k :: IsEarliest(db, chart, field, slot, k)
  {
    var slot, ids := Recomputed(db, chart)[field], PlayIds(db, chart);
    var plays := PlayFacts(db.facts, ids, 0);
    KeyOrder();
    hide ReadFacts, RowKeys;
    AccumulatedIsFirst(plays, field);
    assert slot == AccumulateAll(NO_FIELDS, plays)[field];
    if Value(slot).Some? {
      var p :| && 0 <= p < |plays| && slot == plays[p][field]
               && forall q | 0 <= q < p :: Value(plays[q][field]) != Value(slot);
      assert ids[p] in ids;
      forall j | j in RowKeys(db.results, chart) && j != ids[p]
                 && Value(ReadFacts(db.facts, j.eventId, 0)[field]) == Value(slot)
        ensures Earlier(ids[p], j)
      {
        assert j in ids;
        var q :| 0 <= q < |ids| && ids[q] == j;
        assert plays[q] == ReadFacts(db.facts, j.eventId, 0);
        assert q > p;
      }
      assert IsEarliest(db, chart, field, slot, ids[p]);
    }
  }
}
