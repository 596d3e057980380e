// The score store: plays, their first-seen identity, their facts, and the view of chart bests that
// every consumed event keeps up to date. Tables are maps; a transaction commits as one assignment.
module ScoreStore {
  import opened Common
  import opened ScoreFacts
  import opened AttributeTable
  import Ordering
  import Structured
  import Text

  const EVENT_RESULT_CONTRACT := "scorepeek-result-detected-v4"
  const SELECT_CONTRACT := "scorepeek-music-select-best-snapshot-v4"
  const I64_MAX := Structured.I64_MAX

  datatype Error = UnsupportedContract | ConstraintViolation

  // ----- events -----

  datatype PlayType = Single | Double
  datatype Difficulty = Beginner | Normal | Hyper | Another | Leggendaria
  datatype PlaySide = OnePlayer | TwoPlayer
  datatype Chart = Chart(songId: string, playType: PlayType, difficulty: Difficulty)

  datatype Field<+T> = Known(known: T) | Unknown | NotDisplayed | NoRecord | NotPlayed

  datatype SelectClear =
    NoPlay | Failed | AssistClear | EasyClear | Clear | HardClear | ExHardClear | FullCombo

  datatype Song = Song(songId: string, titles: seq<string>, artist: string)

  datatype ResultData = ResultData(
    contract: string,
    attemptId: nat,
    chart: Chart,
    playSide: PlaySide,
    score: nat,
    clearType: string,
    missCount: Field<nat>,
    previousScore: Field<nat>,
    previousMiss: Field<nat>,
    previousClear: Field<string>,
    document: Structured.Value)

  datatype SelectData = SelectData(
    contract: string,
    revision: nat,
    observationId: string,
    chart: Chart,
    presentation: string,
    score: Field<nat>,
    missCount: Field<nat>,
    clearType: Field<SelectClear>)

  datatype ResultChange =
    | Inactive
    | ProvisionalResult(result: ResultData, song: Song)
    | RetractedResult(result: ResultData, song: Song)
    | ConfirmedResult(result: ResultData, song: Song)

  datatype Event =
    | ResultChanged(change: ResultChange)
    | BestObserved(snapshot: Option<SelectData>)
    | OtherEvent

  datatype Envelope = Envelope(
    invocationId: string,
    sequence: nat,
    eventId: string,
    emittedMs: int,
    session: Option<string>,
    event: Event)

  // ----- tables -----

  datatype State = Provisional | Confirmed

  datatype Attempt = Attempt(session: string, attemptId: nat)

  datatype PlayRow = PlayRow(
    eventId: string,
    state: State,
    latestEventId: string,
    recoveryConfirmed: bool,
    chart: Chart,
    playSide: PlaySide,
    emittedMs: int,
    receivedMs: nat,
    score: Option<int>,
    miss: Option<int>,
    clear: Option<int>)

  /** What the first accepted upsert of an attempt said. */
  datatype First = First(eventId: string, emittedMs: int, receivedMs: nat)

  datatype FactKey = FactKey(eventId: string, source: nat, field: nat)

  datatype Presentation = OfSong(song: Song) | OfSelect(image: string)

  datatype BestRow = BestRow(
    presentation: Option<Presentation>,
    facts: Facts,
    score: Option<int>,
    miss: Option<int>,
    clear: Option<int>)

  datatype Db = Db(
    results: map<Attempt, PlayRow>,
    origins: map<Attempt, First>,
    facts: map<FactKey, Fact>,
    attributes: Table,
    bests: map<Chart, BestRow>)

  const EMPTY_DB := Db(map[], map[], map[], map[], map[])

  // ----- reading an event -----

  function ResultClear(text: string): Option<int> {
    if text == "NO PLAY" then Some(0)
    else if text == "FAILED" then Some(1)
    else if text == "ASSIST CLEAR" then Some(2)
    else if text == "EASY CLEAR" then Some(3)
    else if text == "CLEAR" then Some(4)
    else if text == "HARD CLEAR" then Some(5)
    else if text == "EXH-CLEAR" then Some(6)
    else if text == "F-COMBO" then Some(7)
    else None
  }

  function ClearRank(clear: SelectClear): int {
    match clear
    case NoPlay => 0
    case Failed => 1
    case AssistClear => 2
    case EasyClear => 3
    case Clear => 4
    case HardClear => 5
    case ExHardClear => 6
    case FullCombo => 7
  }

  datatype Mutation = Upsert(state: State) | Retract

  datatype Prepared = Prepared(
    chart: Chart,
    presentation: Option<Presentation>,
    current: Fields,
    previous: Fields,
    mutation: Option<Mutation>,
    attemptId: nat,
    playSide: PlaySide,
    document: Structured.Value)

  function FactOf(value: Option<int>, source: Source, origin: Origin): Slot {
    match value
    case Some(v) => Some(Fact(Some(v), source, origin))
    case None => None
  }

  function KnownCount(field: Field<nat>): Option<int> {
    match field
    case Known(v) => Some(v)
    case _ => None
  }

  function SelectFact(field: Field<int>, origin: Origin): Slot {
    match field
    case Known(v) => Some(Fact(Some(v), FromSelect, origin))
    case NoRecord => Some(Fact(None, FromSelect, origin))
    case _ => None
  }

  function SelectCount(field: Field<nat>): Field<int> {
    match field
    case Known(v) => Known(v)
    case Unknown => Unknown
    case NotDisplayed => NotDisplayed
    case NoRecord => NoRecord
    case NotPlayed => NotPlayed
  }

  function SelectRank(field: Field<SelectClear>): Field<int> {
    match field
    case Known(v) => Known(ClearRank(v))
    case Unknown => Unknown
    case NotDisplayed => NotDisplayed
    case NoRecord => NoRecord
    case NotPlayed => NotPlayed
  }

  predicate SongMatches(song: Song, chart: Chart) {
    && song.songId == chart.songId
    && song.titles != []
    && forall i :: 0 <= i < |song.titles| ==> song.titles[i] != ""
  }

  function PrepareResult(result: ResultData, song: Song, origin: Origin, mutation: Mutation): Result<Prepared, Error> {
    var clear := ResultClear(result.clearType);
    var previousClear := if result.previousClear.Known? then ResultClear(result.previousClear.known) else None;
    if result.contract != EVENT_RESULT_CONTRACT || !SongMatches(song, result.chart) then Err(UnsupportedContract)
    else if clear.None? || (result.previousClear.Known? && previousClear.None?) then Err(UnsupportedContract)
    else
      Ok(Prepared(
        result.chart,
        Some(OfSong(song)),
        [ FactOf(Some(result.score), FromResult, origin),
          FactOf(KnownCount(result.missCount), FromResult, origin),
          FactOf(clear, FromResult, origin) ],
        [ FactOf(KnownCount(result.previousScore), FromPreviousBest, origin),
          FactOf(KnownCount(result.previousMiss), FromPreviousBest, origin),
          FactOf(previousClear, FromPreviousBest, origin) ],
        Some(mutation),
        result.attemptId,
        result.playSide,
        result.document))
  }

  /** The event's effect on one chart, or None when it has none. */
  function Prepare(e: Envelope, receivedMs: nat): Result<Option<Prepared>, Error> {
    var origin := Origin(e.eventId, e.invocationId, e.sequence, e.emittedMs, receivedMs, None, None, e.session);
    match e.event
    case ResultChanged(ProvisionalResult(result, song)) =>
      var p :- PrepareResult(result, song, origin, Upsert(Provisional));
      Ok(Some(p))
    case ResultChanged(ConfirmedResult(result, song)) =>
      var p :- PrepareResult(result, song, origin, Upsert(Confirmed));
      Ok(Some(p))
    case ResultChanged(RetractedResult(result, song)) =>
      var p :- PrepareResult(result, song, origin, Retract);
      Ok(Some(p))
    case BestObserved(Some(s)) =>
      if s.contract != SELECT_CONTRACT then Err(UnsupportedContract)
      else
        var seen := origin.(revision := Some(s.revision), observationId := Some(s.observationId));
        Ok(Some(Prepared(
          s.chart,
          Some(OfSelect(s.presentation)),
          [ SelectFact(SelectCount(s.score), seen),
            SelectFact(SelectCount(s.missCount), seen),
            SelectFact(SelectRank(s.clearType), seen) ],
          NO_FIELDS,
          None,
          0,
          OnePlayer,
          Structured.Null)))
    case _ => Ok(None)
  }

  /** The envelope checks before anything is read from the database. */
  predicate EnvelopeIsValid(e: Envelope) {
    && e.eventId != ""
    && (e.session.Some? ==> e.session.value != "")
    && match e.event
       case ResultChanged(Inactive) => true
       case ResultChanged(change) => e.session.Some? && SongMatches(change.song, change.result.chart)
       case _ => true
  }

  // ----- facts of plays -----

  function SlotAt(table: map<FactKey, Fact>, key: FactKey): Slot {
    if key in table then Some(table[key]) else None
  }

  function ReadFacts(table: map<FactKey, Fact>, eventId: string, source: nat): Fields {
    [ SlotAt(table, FactKey(eventId, source, 0)),
      SlotAt(table, FactKey(eventId, source, 1)),
      SlotAt(table, FactKey(eventId, source, 2)) ]
  }

  function WithoutFacts(table: map<FactKey, Fact>, eventId: string): map<FactKey, Fact> {
    map k | k in table && k.eventId != eventId :: table[k]
  }

  function Incoming(current: Fields, previous: Fields, source: nat, field: nat): Slot
    requires source < 2 && field < 3
  {
    if source == 0 then current[field] else previous[field]
  }

  function Put(table: map<FactKey, Fact>, key: FactKey, slot: Slot): map<FactKey, Fact> {
    if slot.Some? then table[key := slot.value] else table
  }

  /** The table after the first `done` of the six inserts. */
  function FactsUpTo(table: map<FactKey, Fact>, eventId: string, current: Fields, previous: Fields, done: nat)
    : map<FactKey, Fact>
    requires done <= 6
  {
    if done == 0 then WithoutFacts(table, eventId)
    else
      var source, field := (done - 1) / 3, (done - 1) % 3;
      Put(FactsUpTo(table, eventId, current, previous, done - 1), FactKey(eventId, source, field),
          Incoming(current, previous, source, field))
  }

  function SavedFacts(table: map<FactKey, Fact>, eventId: string, current: Fields, previous: Fields)
    : map<FactKey, Fact>
  {
    FactsUpTo(table, eventId, current, previous, 6)
  }

  /** `save_facts`: the event's facts are replaced, and read back as saved. */
  method SaveFacts(table: map<FactKey, Fact>, eventId: string, current: Fields, previous: Fields)
    returns (saved: map<FactKey, Fact>)
    ensures saved == SavedFacts(table, eventId, current, previous)
    ensures ReadFacts(saved, eventId, 0) == current && ReadFacts(saved, eventId, 1) == previous
    ensures forall other, source | other != eventId ::
              ReadFacts(saved, other, source) == ReadFacts(table, other, source)
  {
    saved := WithoutFacts(table, eventId);
    var source := 0;
    while source < 2
      invariant 0 <= source <= 2
      invariant saved == FactsUpTo(table, eventId, current, previous, 3 * source)
    {
      var fields := if source == 0 then current else previous;
      var field := 0;
      while field < 3
        invariant 0 <= field <= 3
        invariant saved == FactsUpTo(table, eventId, current, previous, 3 * source + field)
      {
        assert (3 * source + field) / 3 == source && (3 * source + field) % 3 == field;
        if fields[field].Some? {
          saved := saved[FactKey(eventId, source, field) := fields[field].value];
        }
        field := field + 1;
      }
      source := source + 1;
    }
    SavedFactsReadBack(table, eventId, current, previous);
  }

  lemma {:induction false} SlotUpTo(table: map<FactKey, Fact>, eventId: string, current: Fields, previous: Fields,
                                    done: nat, k: FactKey)
    requires done <= 6
    ensures SlotAt(FactsUpTo(table, eventId, current, previous, done), k) ==
            if k.eventId != eventId then SlotAt(table, k)
            else if k.source < 2 && k.field < 3 && 3 * k.source + k.field < done
            then Incoming(current, previous, k.source, k.field)
            else None
  {
    if done > 0 { SlotUpTo(table, eventId, current, previous, done - 1, k); }
  }

  lemma SavedFactsReadBack(table: map<FactKey, Fact>, eventId: string, current: Fields, previous: Fields)
    ensures var saved := SavedFacts(table, eventId, current, previous);
      && ReadFacts(saved, eventId, 0) == current && ReadFacts(saved, eventId, 1) == previous
      && (forall other, source | other != eventId :: ReadFacts(saved, other, source) == ReadFacts(table, other, source))
  {
    hide FactsUpTo;
    forall k: FactKey { SlotUpTo(table, eventId, current, previous, 6, k); }
  }

  // ----- applying a result mutation -----

  predicate Applies(db: Db, a: Attempt, mutation: Mutation) {
    match mutation
    case Upsert(state) => a !in db.results || db.results[a].state != Confirmed || state == Confirmed
    case Retract => a in db.results && db.results[a].state != Confirmed
  }

  function FirstOf(db: Db, a: Attempt, e: Envelope, receivedMs: nat): First {
    if a in db.origins then db.origins[a] else First(e.eventId, e.emittedMs, receivedMs)
  }

  predicate EventIdTaken(db: Db, eventId: string) {
    exists a | a in db.results :: db.results[a].eventId == eventId
  }

  function UpsertedRow(db: Db, a: Attempt, e: Envelope, p: Prepared, state: State, receivedMs: nat): PlayRow {
    var first := FirstOf(db, a, e, receivedMs);
    var keep := a in db.results;
    PlayRow(
      if keep then db.results[a].eventId else first.eventId,
      state,
      e.eventId,
      false,
      p.chart,
      p.playSide,
      if keep then db.results[a].emittedMs else first.emittedMs,
      if keep then db.results[a].receivedMs else first.receivedMs,
      Value(p.current[0]),
      Value(p.current[1]),
      Value(p.current[2]))
  }

  function Mutated(db: Db, e: Envelope, p: Prepared, receivedMs: nat): Result<Db, Error>
    requires p.mutation.Some?
  {
    if e.session.None? || p.attemptId > I64_MAX then Err(UnsupportedContract)
    else
      var a := Attempt(e.session.value, p.attemptId);
      match p.mutation.value
      case Upsert(state) =>
        if receivedMs > I64_MAX then Err(UnsupportedContract)
        else
          var first := FirstOf(db, a, e, receivedMs);
          var seen := db.(origins := db.origins[a := first]);
          if a !in db.results && EventIdTaken(db, first.eventId) then Err(ConstraintViolation)
          else if !Applies(db, a, p.mutation.value) then Ok(seen)
          else if !Structured.Storable(p.document) then Err(UnsupportedContract)
          else
            Ok(seen.(
              results := db.results[a := UpsertedRow(db, a, e, p, state, receivedMs)],
              facts := SavedFacts(db.facts, first.eventId, p.current, p.previous),
              attributes := Without(db.attributes, first.eventId) + RowsUnder(first.eventId, "", p.document)))
      case Retract =>
        if !Applies(db, a, Retract) then Ok(db)
        else
          var eventId := db.results[a].eventId;
          Ok(db.(
            results := db.results - {a},
            facts := WithoutFacts(db.facts, eventId),
            attributes := Without(db.attributes, eventId)))
  }

  // ----- the view -----

  datatype RowKey = RowKey(emittedMs: int, eventId: string)

  predicate KeyLess(a: RowKey, b: RowKey) {
    a.emittedMs < b.emittedMs || (a.emittedMs == b.emittedMs && Text.Less(a.eventId, b.eventId))
  }

  lemma KeyOrder()
    ensures Ordering.StrictTotal(KeyLess)
  {
    forall a ensures !KeyLess(a, a) { Text.LessIrreflexive(a.eventId); }
    forall a, b, c | KeyLess(a, b) && KeyLess(b, c) ensures KeyLess(a, c) {
      if a.emittedMs == b.emittedMs == c.emittedMs { Text.LessTransitive(a.eventId, b.eventId, c.eventId); }
    }
    forall a, b ensures KeyLess(a, b) || a == b || KeyLess(b, a) { Text.LessTotal(a.eventId, b.eventId); }
  }

  function RowKeys(results: map<Attempt, PlayRow>, chart: Chart): set<RowKey> {
    set a | a in results && results[a].chart == chart :: RowKey(results[a].emittedMs, results[a].eventId)
  }

  /** `SELECT event_id ... WHERE chart ORDER BY emitted_unix_ms, event_id`. */
  function PlayIds(db: Db, chart: Chart): seq<RowKey> {
    KeyOrder();
    Ordering.Ascending(RowKeys(db.results, chart), KeyLess)
  }

  function PlayFacts(facts: map<FactKey, Fact>, ids: seq<RowKey>, source: nat): seq<Fields> {
    seq(|ids|, i requires 0 <= i < |ids| => ReadFacts(facts, ids[i].eventId, source))
  }

  /** Result and previous-best slots of a chart, accumulated over its live plays. */
  function Recomputed(db: Db, chart: Chart): (slots: seq<Slot>)
    ensures |slots| == 6
  {
    var ids := PlayIds(db, chart);
    AccumulateAll(NO_FIELDS, PlayFacts(db.facts, ids, 0)) + AccumulateAll(NO_FIELDS, PlayFacts(db.facts, ids, 1))
  }

  function NoFacts(): Facts {
    seq(12, _ => None)
  }

  function SavedBest(db: Db, chart: Chart): Facts {
    if chart in db.bests then db.bests[chart].facts else NoFacts()
  }

  function Overlay(saved: Fields, incoming: Fields): Fields {
    seq(3, i requires 0 <= i < 3 => if incoming[i].Some? then incoming[i] else saved[i])
  }

  function UpdatedFacts(db: Db, p: Prepared): Facts {
    var saved := SavedBest(db, p.chart);
    Integrated(
      if p.mutation.Some? then Recomputed(db, p.chart) + saved[6..]
      else saved[..6] + Overlay(saved[6..9], p.current) + saved[9..])
  }

  function UpdatedBest(db: Db, p: Prepared): BestRow {
    var facts := UpdatedFacts(db, p);
    var presentation :=
      if p.presentation.Some? || p.chart !in db.bests then p.presentation else db.bests[p.chart].presentation;
    BestRow(presentation, facts, Value(facts[9]), Value(facts[10]), Value(facts[11]))
  }

  // ----- one delivery -----

  datatype Outcome = Outcome(db: Db, cursor: Option<(string, nat)>, result: Result<bool, Error>)

  predicate AlreadySeen(cursor: Option<(string, nat)>, e: Envelope) {
    cursor.Some? && cursor.value.0 == e.invocationId && cursor.value.1 >= e.sequence
  }

  function Consumed(db: Db, cursor: Option<(string, nat)>, e: Envelope, receivedMs: nat): Outcome {
    if !EnvelopeIsValid(e) then Outcome(db, cursor, Err(UnsupportedContract))
    else if AlreadySeen(cursor, e) then Outcome(db, cursor, Ok(false))
    else
      match Prepare(e, receivedMs)
      case Err(error) => Outcome(db, cursor, Err(error))
      case Ok(None) => Outcome(db, Some((e.invocationId, e.sequence)), Ok(false))
      case Ok(Some(p)) =>
        var tx := if p.mutation.Some? then Mutated(db, e, p, receivedMs) else Ok(db);
        match tx
        case Err(error) => Outcome(db, cursor, Err(error))
        case Ok(changed) =>
          Outcome(changed.(bests := changed.bests[p.chart := UpdatedBest(changed, p)]),
                  Some((e.invocationId, e.sequence)),
                  Ok(true))
  }

  /** Opening confirms the plays that a crash or shutdown left provisional. */
  function Recovered(db: Db): Db {
    db.(results := map a | a in db.results ::
      if db.results[a].state == Provisional
      then db.results[a].(state := Confirmed, recoveryConfirmed := true)
      else db.results[a])
  }

  class Store {
    var db: Db
    var cursor: Option<(string, nat)>
    var recoveredProvisionalCount: nat

    /** No play is left provisional, a play that was is confirmed and marked, and nothing else changes. */
    constructor Open(existing: Db)
      ensures db == existing.(results := db.results) && db.results.Keys == existing.results.Keys
      ensures forall a | a in db.results :: db.results[a].state != Provisional
      ensures forall a | a in existing.results && existing.results[a].state != Provisional ::
                db.results[a] == existing.results[a]
      ensures forall a | a in existing.results && existing.results[a].state == Provisional ::
                var row := db.results[a];
                && row.state == Confirmed && row.recoveryConfirmed
                && row.(state := Provisional, recoveryConfirmed := existing.results[a].recoveryConfirmed)
                   == existing.results[a]
      ensures recoveredProvisionalCount == |set a | a in existing.results && existing.results[a].state == Provisional|
      ensures recoveredProvisionalCount == 0 <==> db == existing
      ensures db == Recovered(existing) && cursor == None
    {
      db := Recovered(existing);
      cursor := None;
      var provisional := set a | a in existing.results && existing.results[a].state == Provisional;
      recoveredProvisionalCount := |provisional|;
      if |provisional| == 0 {
        assert forall a | a in existing.results :: a !in provisional;
        assert Recovered(existing).results == existing.results;
      }
    }

    /** Applies one event. Nothing changes but the cursor unless the result is Ok(true). */
    method Consume(e: Envelope, receivedMs: nat) returns (r: Result<bool, Error>)
      modifies this`db, this`cursor
      ensures Outcome(db, cursor, r) == Consumed(old(db), old(cursor), e, receivedMs)
      ensures r != Ok(true) ==> db == old(db)
      ensures r.Err? ==> cursor == old(cursor)
    {
      hide EnvelopeIsValid, Prepare, Mutated, UpdatedFacts;
      if !EnvelopeIsValid(e) {
        return Err(UnsupportedContract);
      }
      if AlreadySeen(cursor, e) {
        return Ok(false);
      }
      var prepared := Prepare(e, receivedMs);
      if prepared.Err? {
        return Err(prepared.error);
      }
      if prepared.value.None? {
        cursor := Some((e.invocationId, e.sequence));
        return Ok(false);
      }
      var p := prepared.value.value;
      var tx := db;
      if p.mutation.Some? {
        var mutated := ApplyResultMutation(tx, e, p, receivedMs);
        if mutated.Err? {
          return Err(mutated.error);
        }
        tx := mutated.value;
      }
      var facts := UpdateFacts(tx, p);
      var presentation := p.presentation;
      if presentation.None? && p.chart in tx.bests {
        presentation := tx.bests[p.chart].presentation;
      }
      var best := BestRow(presentation, facts, Value(facts[9]), Value(facts[10]), Value(facts[11]));
      db := tx.(bests := tx.bests[p.chart := best]);
      cursor := Some((e.invocationId, e.sequence));
      return Ok(true);
    }
  }

  /** The chart's facts after the event, integrated. */
  method UpdateFacts(tx: Db, p: Prepared) returns (updated: Facts)
    ensures updated == UpdatedFacts(tx, p)
  {
    var facts := new Slot[12](_ => None);
    if p.chart in tx.bests {
      forall i | 0 <= i < 12 { facts[i] := tx.bests[p.chart].facts[i]; }
    }
    ghost var saved := SavedBest(tx, p.chart);
    assert facts[..] == saved;
    if p.mutation.Some? {
      forall i | 0 <= i < 6 { facts[i] := None; }
      assert facts[6..] == saved[6..];
      RecomputeResultFacts(tx, p.chart, facts);
    } else {
      forall i | 0 <= i < 3 && p.current[i].Some? { facts[6 + i] := p.current[i]; }
      assert facts[..] == saved[..6] + Overlay(saved[6..9], p.current) + saved[9..];
    }
    Integrate(facts);
    updated := facts[..];
  }

  // The attempt's play is there or gone; every other play, every first sighting and the view stay.
  predicate TouchesOnly(before: Db, after: Db, a: Attempt, mutation: Mutation) {
    && after.bests == before.bests
    && after.results - {a} == before.results - {a}
    && (forall b | b in before.origins :: b in after.origins && after.origins[b] == before.origins[b])
    && (a in after.results <==>
          match mutation
          case Upsert(_) => true
          case Retract => a in before.results && before.results[a].state == Confirmed)
  }

  lemma MutatedTouchesOnly(db: Db, e: Envelope, p: Prepared, receivedMs: nat)
    requires p.mutation.Some? && Mutated(db, e, p, receivedMs).Ok?
    ensures
      && e.session.Some?
      && TouchesOnly(db, Mutated(db, e, p, receivedMs).value, Attempt(e.session.value, p.attemptId), p.mutation.value)
  {
    hide UpsertedRow, SavedFacts, WithoutFacts, EventIdTaken;
  }

  /** Writes or removes the play of the event's attempt. */
  method ApplyResultMutation(tx: Db, e: Envelope, p: Prepared, receivedMs: nat) returns (r: Result<Db, Error>)
    requires p.mutation.Some?
    ensures r == Mutated(tx, e, p, receivedMs)
    ensures r.Ok? ==>
              && e.session.Some?
              && TouchesOnly(tx, r.value, Attempt(e.session.value, p.attemptId), p.mutation.value)
  {
    if Mutated(tx, e, p, receivedMs).Ok? {
      MutatedTouchesOnly(tx, e, p, receivedMs);
    }
    hide TouchesOnly;
    if e.session.None? || p.attemptId > I64_MAX {
      return Err(UnsupportedContract);
    }
    var a := Attempt(e.session.value, p.attemptId);
    var changed := tx;
    match p.mutation.value
    case Upsert(state) =>
      if receivedMs > I64_MAX {
        return Err(UnsupportedContract);
      }
      if a !in changed.origins {
        changed := changed.(origins := changed.origins[a := First(e.eventId, e.emittedMs, receivedMs)]);
      }
      var first := changed.origins[a];
      assert changed.origins == tx.origins[a := first];
      if a !in tx.results && EventIdTaken(tx, first.eventId) {
        return Err(ConstraintViolation);
      }
      if Applies(tx, a, Upsert(state)) {
        if !Structured.Storable(p.document) {
          return Err(UnsupportedContract);
        }
        changed := changed.(results := changed.results[a := UpsertedRow(tx, a, e, p, state, receivedMs)]);
        var saved := SaveFacts(changed.facts, first.eventId, p.current, p.previous);
        changed := changed.(
          facts := saved,
          attributes := Without(changed.attributes, first.eventId) + RowsUnder(first.eventId, "", p.document));
      }
      return Ok(changed);
    case Retract =>
      if Applies(tx, a, Retract) {
        var eventId := tx.results[a].eventId;
        changed := changed.(
          results := changed.results - {a},
          facts := WithoutFacts(changed.facts, eventId),
          attributes := Without(changed.attributes, eventId));
      }
      return Ok(changed);
  }

  /** Accumulates one play into the result and previous-best slots. */
  method AddPlay(facts: array<Slot>, current: Fields, previous: Fields)
    requires facts.Length == 12
    modifies facts
    ensures facts[..3] == Accumulate(old(facts[..3]), current)
    ensures facts[3..6] == Accumulate(old(facts[3..6]), previous)
    ensures facts[6..] == old(facts[6..])
  {
    ghost var was := facts[..];
    assert facts[0..3] == was[..3] && facts[3..6] == was[3..6] && facts[6..] == was[6..];
    Cumulative(facts, 0, current);
    ghost var mid := facts[..];
    assert mid == Accumulate(was[..3], current) + was[3..];
    assert mid[3..6] == was[3..6] && mid[6..] == was[6..];
    assert facts[3..6] == mid[3..6];
    Cumulative(facts, 3, previous);
    assert facts[..] == mid[..3] + Accumulate(was[3..6], previous) + was[6..];
    assert facts[..3] == facts[..][..3] && facts[3..6] == facts[..][3..6] && facts[6..] == facts[..][6..];
  }

  /** Accumulates the chart's live plays into six empty slots, in the query's order. */
  method RecomputeResultFacts(tx: Db, chart: Chart, facts: array<Slot>)
    requires facts.Length == 12
    requires facts[..6] == [None, None, None, None, None, None]
    modifies facts
    ensures facts[..] == Recomputed(tx, chart) + old(facts[6..])
  {
    hide AccumulateAll, Accumulate, PlayFacts, ReadFacts, PlayIds;
    var ids := PlayIds(tx, chart);
    NoPlays(tx.facts);
    var row := 0;
    while row < |ids|
      invariant 0 <= row <= |ids|
      invariant ids[..0] == []
      invariant facts[..3] == AccumulateAll(NO_FIELDS, PlayFacts(tx.facts, ids[..row], 0))
      invariant facts[3..6] == AccumulateAll(NO_FIELDS, PlayFacts(tx.facts, ids[..row], 1))
      invariant facts[6..] == old(facts[6..])
    {
      NextPlay(tx.facts, ids, row, 0);
      NextPlay(tx.facts, ids, row, 1);
      var current := ReadFacts(tx.facts, ids[row].eventId, 0);
      var previous := ReadFacts(tx.facts, ids[row].eventId, 1);
      AddPlay(facts, current, previous);
      row := row + 1;
    }
    assert ids[..row] == ids;
    assert facts[..] == facts[..3] + facts[3..6] + facts[6..];
  }

  lemma NoPlays(facts: map<FactKey, Fact>)
    ensures forall source :: AccumulateAll(NO_FIELDS, PlayFacts(facts, [], source)) == NO_FIELDS
  {
  }

  lemma NextPlay(facts: map<FactKey, Fact>, ids: seq<RowKey>, row: nat, source: nat)
    requires row < |ids|
    ensures AccumulateAll(NO_FIELDS, PlayFacts(facts, ids[..row + 1], source)) ==
            Accumulate(AccumulateAll(NO_FIELDS, PlayFacts(facts, ids[..row], source)),
                       ReadFacts(facts, ids[row].eventId, source))
  {
    var plays := PlayFacts(facts, ids[..row + 1], source);
    assert plays[..|plays| - 1] == PlayFacts(facts, ids[..row], source);
  }
}
