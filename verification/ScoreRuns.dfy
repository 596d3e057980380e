// What the score store keeps over whole runs: the view of bests, confirmed plays, first-seen identity.
module ScoreRuns {
  import opened Common
  import opened ScoreFacts
  import opened ScoreStore
  import Ordering
  import Structured

  // ----- the from-scratch check -----

  function FromScratch(db: Db, chart: Chart): Facts
    requires chart in db.bests
  {
    Integrated(Recomputed(db, chart) + db.bests[chart].facts[6..9] + [None, None, None])
  }

  /** The saved row has the values that its plays and select facts give from scratch. */
  ghost predicate BestAgrees(db: Db, chart: Chart)
    requires chart in db.bests
  {
    var best, scratch := db.bests[chart], FromScratch(db, chart);
    && SameValues(best.facts, scratch)
    && best.score == Value(scratch[9]) && best.miss == Value(scratch[10]) && best.clear == Value(scratch[11])
  }

  ghost predicate BestsValid(db: Db) {
    && (forall chart | chart in db.bests :: BestAgrees(db, chart))
    && (forall a | a in db.results :: db.results[a].chart in db.bests)
  }

  /** `validate_bests`: rebuilds every chart's facts from its plays and compares the values. */
  method ValidateBests(db: Db) returns (ok: bool)
    ensures ok <==> BestsValid(db)
  {
    var charts := db.bests.Keys;
    while charts != {}
      invariant charts <= db.bests.Keys
      invariant forall chart | chart in db.bests && chart !in charts :: BestAgrees(db, chart)
      decreases charts
    {
      var chart :| chart in charts;
      var best := db.bests[chart];
      var facts := new Slot[12](_ => None);
      forall i | 6 <= i < 9 { facts[i] := best.facts[i]; }
      assert facts[6..] == best.facts[6..9] + [None, None, None];
      RecomputeResultFacts(db, chart, facts);
      assert facts[..] == Recomputed(db, chart) + best.facts[6..9] + [None, None, None];
      Integrate(facts);
      if !SameValues(best.facts, facts[..]) ||
         (best.score, best.miss, best.clear) != (Value(facts[9]), Value(facts[10]), Value(facts[11]))
      {
        assert !BestAgrees(db, chart);
        return false;
      }
      charts := charts - {chart};
    }
    ok := forall a | a in db.results :: db.results[a].chart in db.bests;
  }

  // ----- the invariant -----

  /** The integrated slots and the three columns follow from the nine source slots. */
  ghost predicate Derived(best: BestRow) {
    && SameValues(best.facts, Integrated(best.facts))
    && best.score == Value(best.facts[9]) && best.miss == Value(best.facts[10]) && best.clear == Value(best.facts[11])
  }

  ghost predicate RowIsFirstSeen(db: Db, a: Attempt)
    requires a in db.results
  {
    a in db.origins &&
    db.origins[a] == First(db.results[a].eventId, db.results[a].emittedMs, db.results[a].receivedMs)
  }

  ghost predicate RowHasFacts(db: Db, a: Attempt)
    requires a in db.results
  {
    var row, facts := db.results[a], ReadFacts(db.facts, db.results[a].eventId, 0);
    row.score == Value(facts[0]) && row.miss == Value(facts[1]) && row.clear == Value(facts[2])
  }

  ghost predicate Inv(db: Db) {
    && (forall a, b | a in db.results && b in db.results && db.results[a].eventId == db.results[b].eventId :: a == b)
    && (forall a | a in db.results :: RowIsFirstSeen(db, a))
    && (forall a | a in db.results :: RowHasFacts(db, a))
    && (forall a | a in db.results :: db.results[a].chart in db.bests)
    && (forall chart | chart in db.bests :: Derived(db.bests[chart]))
  }

  /** Result and previous-best slots agree with the plays; with the invariant that is the whole check. */
  ghost predicate SlotsAgree(db: Db, chart: Chart)
    requires chart in db.bests
  {
    SameValues(db.bests[chart].facts[..6], Recomputed(db, chart))
  }

  lemma AgreementOfSlots(db: Db, chart: Chart)
    requires chart in db.bests && Derived(db.bests[chart])
    ensures BestAgrees(db, chart) <==> SlotsAgree(db, chart)
  {
    hide Recomputed, Integrated;
    var best := db.bests[chart];
    var sources: Facts := Recomputed(db, chart) + best.facts[6..9] + [None, None, None];
    IntegratedIsBest(sources, 0);
    var scratch := FromScratch(db, chart);
    assert scratch[..9] == sources[..9];
    assert forall i | 0 <= i < 9 :: scratch[i] == scratch[..9][i] == sources[i];
    if SlotsAgree(db, chart) {
      forall i | 0 <= i < 9 ensures Value(best.facts[..9][i]) == Value(sources[..9][i]) {
        if i < 6 { assert best.facts[..6][i] == best.facts[i]; }
      }
      IntegrationOfValues(best.facts, sources);
    }
    if BestAgrees(db, chart) {
      forall i | 0 <= i < 6 ensures Value(best.facts[..6][i]) == Value(Recomputed(db, chart)[i]) {
        assert Value(best.facts[i]) == Value(scratch[i]);
      }
    }
  }

  // ----- which charts an event touches -----

  /** The same plays with the same facts. */
  ghost predicate SamePlays(db: Db, after: Db, chart: Chart) {
    && RowKeys(db.results, chart) == RowKeys(after.results, chart)
    && (forall k, source | k in RowKeys(db.results, chart) ::
          ReadFacts(db.facts, k.eventId, source) == ReadFacts(after.facts, k.eventId, source))
  }

  lemma IdsAreKeys(db: Db, chart: Chart)
    ensures forall i | 0 <= i < |PlayIds(db, chart)| :: PlayIds(db, chart)[i] in RowKeys(db.results, chart)
  {
    hide RowKeys;
    var ids := PlayIds(db, chart);
    forall i | 0 <= i < |ids| ensures ids[i] in RowKeys(db.results, chart) { assert ids[i] in ids; }
  }

  lemma SameKeysSameIds(db: Db, after: Db, chart: Chart)
    requires RowKeys(db.results, chart) == RowKeys(after.results, chart)
    ensures PlayIds(db, chart) == PlayIds(after, chart)
  {
    hide RowKeys;
  }

  lemma SamePlaysRecompute(db: Db, after: Db, chart: Chart)
    requires SamePlays(db, after, chart)
    ensures Recomputed(db, chart) == Recomputed(after, chart)
  {
    hide ReadFacts, RowKeys, AccumulateAll, PlayIds;
    SameKeysSameIds(db, after, chart);
    IdsAreKeys(db, chart);
    var ids := PlayIds(db, chart);
    assert PlayFacts(db.facts, ids, 0) == PlayFacts(after.facts, ids, 0);
    assert PlayFacts(db.facts, ids, 1) == PlayFacts(after.facts, ids, 1);
  }

  function AttemptOf(e: Envelope, p: Prepared): Attempt
    requires e.session.Some?
  {
    Attempt(e.session.value, p.attemptId)
  }

  /** The chart, other than the event's own, that loses a play because of the event. */
  function Displaced(db: Db, e: Envelope, p: Prepared): Option<Chart> {
    if p.mutation.None? || e.session.None? then None
    else
      var a := AttemptOf(e, p);
      if a in db.results && Applies(db, a, p.mutation.value) && db.results[a].chart != p.chart
      then Some(db.results[a].chart)
      else None
  }

  function WithoutAttempt(db: Db, a: Attempt): Db {
    db.(results := db.results - {a})
  }

  ghost predicate RowsKept(db: Db) {
    && (forall a, b | a in db.results && b in db.results && db.results[a].eventId == db.results[b].eventId :: a == b)
    && (forall a | a in db.results :: RowIsFirstSeen(db, a))
    && (forall a | a in db.results :: RowHasFacts(db, a))
  }

  lemma MutationKeepsRows(db: Db, e: Envelope, p: Prepared, receivedMs: nat)
    requires RowsKept(db) && p.mutation.Some?
    requires Mutated(db, e, p, receivedMs).Ok?
    ensures RowsKept(Mutated(db, e, p, receivedMs).value)
  {
    match p.mutation.value
    case Upsert(_) => UpsertKeepsRows(db, e, p, receivedMs);
    case Retract => RetractKeepsRows(db, e, p, receivedMs);
  }

  lemma OtherRowIsKept(db: Db, e: Envelope, p: Prepared, receivedMs: nat, b: Attempt)
    requires RowsKept(db) && p.mutation.Some? && p.mutation.value.Upsert?
    requires Mutated(db, e, p, receivedMs).Ok? && b != AttemptOf(e, p) && b in db.results
    ensures
      var after := Mutated(db, e, p, receivedMs).value;
      b in after.results && after.results[b] == db.results[b] && RowIsFirstSeen(after, b) && RowHasFacts(after, b)
  {
    hide ReadFacts, SavedFacts;
    var a := AttemptOf(e, p);
    assert RowIsFirstSeen(db, b) && RowHasFacts(db, b);
    if a in db.results { assert RowIsFirstSeen(db, a); }
    SavedFactsReadBack(db.facts, FirstOf(db, a, e, receivedMs).eventId, p.current, p.previous);
  }

  lemma UpsertedRowIsKept(db: Db, e: Envelope, p: Prepared, receivedMs: nat)
    requires RowsKept(db) && p.mutation.Some? && p.mutation.value.Upsert?
    requires Mutated(db, e, p, receivedMs).Ok?
    ensures
      var after, a := Mutated(db, e, p, receivedMs).value, AttemptOf(e, p);
      a in after.results && RowIsFirstSeen(after, a) && RowHasFacts(after, a)
  {
    hide ReadFacts, SavedFacts;
    var a := AttemptOf(e, p);
    if a in db.results { assert RowIsFirstSeen(db, a) && RowHasFacts(db, a); }
    SavedFactsReadBack(db.facts, FirstOf(db, a, e, receivedMs).eventId, p.current, p.previous);
  }

  lemma UpsertKeepsRows(db: Db, e: Envelope, p: Prepared, receivedMs: nat)
    requires RowsKept(db) && p.mutation.Some? && p.mutation.value.Upsert?
    requires Mutated(db, e, p, receivedMs).Ok?
    ensures RowsKept(Mutated(db, e, p, receivedMs).value)
  {
    hide ReadFacts, SavedFacts, RowIsFirstSeen, RowHasFacts;
    var after := Mutated(db, e, p, receivedMs).value;
    forall b | b in after.results ensures RowIsFirstSeen(after, b) && RowHasFacts(after, b) {
      if b == AttemptOf(e, p) {
        UpsertedRowIsKept(db, e, p, receivedMs);
      } else {
        OtherRowIsKept(db, e, p, receivedMs, b);
      }
    }
  }

  lemma RetractKeepsRows(db: Db, e: Envelope, p: Prepared, receivedMs: nat)
    requires RowsKept(db) && p.mutation == Some(Retract)
    requires Mutated(db, e, p, receivedMs).Ok?
    ensures RowsKept(Mutated(db, e, p, receivedMs).value)
  {
    hide ReadFacts, WithoutFacts;
    var after := Mutated(db, e, p, receivedMs).value;
    var a := AttemptOf(e, p);
    if Applies(db, a, Retract) {
      OtherFactsStay(db.facts, db.results[a].eventId);
      forall b | b in after.results ensures RowIsFirstSeen(after, b) && RowHasFacts(after, b) {
        assert RowIsFirstSeen(db, b) && RowHasFacts(db, b);
      }
    }
  }

  lemma OtherFactsStay(facts: map<FactKey, Fact>, eventId: string)
    ensures forall other, source | other != eventId ::
              ReadFacts(WithoutFacts(facts, eventId), other, source) == ReadFacts(facts, other, source)
  {
    forall k: FactKey | k.eventId != eventId ensures SlotAt(WithoutFacts(facts, eventId), k) == SlotAt(facts, k) { }
  }

  lemma KeyOfRow(results: map<Attempt, PlayRow>, chart: Chart, k: RowKey) returns (a: Attempt)
    requires k in RowKeys(results, chart)
    ensures a in results && results[a].chart == chart && k == RowKey(results[a].emittedMs, results[a].eventId)
  {
    a :| a in results && results[a].chart == chart && k == RowKey(results[a].emittedMs, results[a].eventId);
  }

  lemma MutationTouchesRows(db: Db, e: Envelope, p: Prepared, receivedMs: nat, chart: Chart)
    requires RowsKept(db) && p.mutation.Some?
    requires Mutated(db, e, p, receivedMs).Ok?
    requires chart != p.chart
    ensures
      var before := if Displaced(db, e, p) == Some(chart) then WithoutAttempt(db, AttemptOf(e, p)) else db;
      RowKeys(before.results, chart) == RowKeys(Mutated(db, e, p, receivedMs).value.results, chart)
  {
    hide SavedFacts, WithoutFacts, RowIsFirstSeen, RowHasFacts;
    var after := Mutated(db, e, p, receivedMs).value;
    var a := AttemptOf(e, p);
    var before := if Displaced(db, e, p) == Some(chart) then WithoutAttempt(db, a) else db;
    forall b | b != a
      ensures b in before.results <==> b in after.results
      ensures b in after.results ==> after.results[b] == before.results[b] {}
    forall k ensures k in RowKeys(before.results, chart) <==> k in RowKeys(after.results, chart) {
      if k in RowKeys(before.results, chart) { var b := KeyOfRow(before.results, chart, k); }
      if k in RowKeys(after.results, chart) { var b := KeyOfRow(after.results, chart, k); }
    }
  }

  /** Every other chart keeps its plays, but for the one that loses the attempt. */
  lemma MutationTouches(db: Db, e: Envelope, p: Prepared, receivedMs: nat, chart: Chart)
    requires RowsKept(db) && p.mutation.Some?
    requires Mutated(db, e, p, receivedMs).Ok?
    requires chart != p.chart
    ensures SamePlays(
              if Displaced(db, e, p) == Some(chart) then WithoutAttempt(db, AttemptOf(e, p)) else db,
              Mutated(db, e, p, receivedMs).value, chart)
  {
    MutationTouchesRows(db, e, p, receivedMs, chart);
    hide ReadFacts, SavedFacts, RowKeys;
    var after := Mutated(db, e, p, receivedMs).value;
    var a := AttemptOf(e, p);
    var before := if Displaced(db, e, p) == Some(chart) then WithoutAttempt(db, a) else db;
    forall k, source | k in RowKeys(before.results, chart)
      ensures ReadFacts(before.facts, k.eventId, source) == ReadFacts(after.facts, k.eventId, source)
    {
      var b := KeyOfRow(before.results, chart, k);
      assert RowIsFirstSeen(db, b);
      if p.mutation.value.Upsert? && Applies(db, a, p.mutation.value) {
        var first := FirstOf(db, a, e, receivedMs);
        assert b != a;
        if a in db.results { assert RowIsFirstSeen(db, a); }
        assert k.eventId != first.eventId;
        SavedFactsReadBack(db.facts, first.eventId, p.current, p.previous);
      } else if p.mutation.value.Retract? && Applies(db, a, Retract) {
        OtherFactsStay(db.facts, db.results[a].eventId);
      }
    }
  }

  // ----- one consumed event -----

  /** The event is consumed and has the effect `p`. */
  ghost predicate Accepts(db: Db, cursor: Option<(string, nat)>, e: Envelope, receivedMs: nat, p: Prepared) {
    && Consumed(db, cursor, e, receivedMs).result == Ok(true)
    && Prepare(e, receivedMs) == Ok(Some(p))
  }

  function AfterMutation(db: Db, e: Envelope, p: Prepared, receivedMs: nat): Db {
    if p.mutation.None? then db
    else
      match Mutated(db, e, p, receivedMs)
      case Ok(changed) => changed
      case Err(_) => db
  }

  lemma MutationKeepsView(db: Db, e: Envelope, p: Prepared, receivedMs: nat)
    requires p.mutation.Some? && Mutated(db, e, p, receivedMs).Ok?
    ensures Mutated(db, e, p, receivedMs).value.bests == db.bests
  {
    hide SavedFacts;
  }

  lemma ConsumedParts(db: Db, cursor: Option<(string, nat)>, e: Envelope, receivedMs: nat, p: Prepared)
    requires Accepts(db, cursor, e, receivedMs, p)
    ensures p.mutation.Some? ==> Mutated(db, e, p, receivedMs).Ok?
    ensures
      var changed, after := AfterMutation(db, e, p, receivedMs), Consumed(db, cursor, e, receivedMs).db;
      && changed.bests == db.bests
      && after == changed.(bests := db.bests[p.chart := UpdatedBest(changed, p)])
  {
    hide Mutated, Prepare, EnvelopeIsValid, UpdatedBest;
    if p.mutation.Some? { MutationKeepsView(db, e, p, receivedMs); }
  }

  lemma UpdatedIsDerived(db: Db, p: Prepared)
    ensures Derived(UpdatedBest(db, p))
    ensures SameValues(UpdatedBest(db, p).facts[..6],
                       if p.mutation.Some? then Recomputed(db, p.chart) else SavedBest(db, p.chart)[..6])
  {
    hide Recomputed, Integrated;
    var saved := SavedBest(db, p.chart);
    var sources: Facts :=
      if p.mutation.Some? then Recomputed(db, p.chart) + saved[6..]
      else saved[..6] + Overlay(saved[6..9], p.current) + saved[9..];
    var facts := Integrated(sources);
    assert UpdatedBest(db, p).facts == facts;
    IntegratedIsBest(sources, 0);
    assert facts[..9] == sources[..9];
    IntegratedTwice(sources);
    forall i | 0 <= i < 6 ensures facts[..6][i] == sources[i] { assert facts[..9][i] == sources[..9][i]; }
  }

  lemma IntegratedTwice(facts: Facts)
    ensures SameValues(Integrated(facts), Integrated(Integrated(facts)))
  {
    hide Integrated;
    IntegratedIsBest(facts, 0);
    forall i | 0 <= i < 9 ensures Value(facts[..9][i]) == Value(Integrated(facts)[..9][i]) { }
    IntegrationOfValues(facts, Integrated(facts));
  }

  lemma ConsumeKeepsInvariant(db: Db, cursor: Option<(string, nat)>, e: Envelope, receivedMs: nat)
    requires Inv(db)
    ensures Inv(Consumed(db, cursor, e, receivedMs).db)
  {
    hide UpdatedBest, Mutated, Prepare, EnvelopeIsValid, Inv, RowsKept;
    var outcome := Consumed(db, cursor, e, receivedMs);
    if outcome.result == Ok(true) {
      var p := Prepare(e, receivedMs).value.value;
      ConsumedParts(db, cursor, e, receivedMs, p);
      var changed := AfterMutation(db, e, p, receivedMs);
      InvariantHasRows(db);
      if p.mutation.Some? {
        MutationKeepsRows(db, e, p, receivedMs);
        RowsStayOnCharts(db, e, p, receivedMs);
      }
      UpdatedIsDerived(changed, p);
      ViewRestored(db, changed, p.chart, UpdatedBest(changed, p));
    }
  }

  lemma InvariantHasRows(db: Db)
    requires Inv(db)
    ensures RowsKept(db)
  {
    hide ReadFacts;
  }

  lemma ViewRestored(db: Db, changed: Db, chart: Chart, best: BestRow)
    requires Inv(db) && RowsKept(changed) && Derived(best)
    requires forall a | a in changed.results ::
      changed.results[a].chart == chart || (a in db.results && changed.results[a] == db.results[a])
    ensures Inv(changed.(bests := db.bests[chart := best]))
  {
    hide ReadFacts, Derived;
    var after := changed.(bests := db.bests[chart := best]);
    forall a | a in after.results ensures RowIsFirstSeen(after, a) && RowHasFacts(after, a) {
      assert RowIsFirstSeen(changed, a) && RowHasFacts(changed, a);
    }
  }

  lemma RowsStayOnCharts(db: Db, e: Envelope, p: Prepared, receivedMs: nat)
    requires p.mutation.Some? && Mutated(db, e, p, receivedMs).Ok?
    ensures var after := Mutated(db, e, p, receivedMs).value;
      forall a | a in after.results :: after.results[a].chart == p.chart ||
                 (a in db.results && after.results[a] == db.results[a])
  {
  }

  /** After every consumed result event the named chart's row is what its plays give from scratch. */
  lemma ResultEventRefreshesItsChart(db: Db, cursor: Option<(string, nat)>, e: Envelope, receivedMs: nat, p: Prepared)
    requires Accepts(db, cursor, e, receivedMs, p) && p.mutation.Some?
    ensures var after := Consumed(db, cursor, e, receivedMs).db;
      p.chart in after.bests && BestAgrees(after, p.chart)
  {
    hide UpdatedBest, Mutated, Recomputed, Prepare;
    ConsumedParts(db, cursor, e, receivedMs, p);
    var changed, after := AfterMutation(db, e, p, receivedMs), Consumed(db, cursor, e, receivedMs).db;
    UpdatedIsDerived(changed, p);
    SamePlaysRecompute(changed, after, p.chart);
    AgreementOfSlots(after, p.chart);
  }

  /** A select event takes the plays' slots as they stand: its chart agrees exactly when it did before. */
  lemma SelectEventKeepsAgreement(db: Db, cursor: Option<(string, nat)>, e: Envelope, receivedMs: nat, p: Prepared)
    requires Inv(db)
    requires Accepts(db, cursor, e, receivedMs, p) && p.mutation.None?
    ensures var after := Consumed(db, cursor, e, receivedMs).db;
      p.chart in after.bests && (BestAgrees(after, p.chart) <==> (p.chart in db.bests ==> BestAgrees(db, p.chart)))
  {
    hide UpdatedBest, Recomputed, Prepare, Integrated;
    ConsumedParts(db, cursor, e, receivedMs, p);
    var after := Consumed(db, cursor, e, receivedMs).db;
    UpdatedIsDerived(db, p);
    SamePlaysRecompute(db, after, p.chart);
    AgreementOfSlots(after, p.chart);
    if p.chart in db.bests {
      AgreementOfSlots(db, p.chart);
    } else {
      UnplayedChart(db, p.chart);
    }
  }

  lemma UnplayedChart(db: Db, chart: Chart)
    requires forall a | a in db.results :: db.results[a].chart != chart
    ensures Recomputed(db, chart) == [None, None, None, None, None, None]
  {
    assert RowKeys(db.results, chart) == {};
    assert PlayIds(db, chart) == [];
  }

  /** Exactly when one consumed event keeps the whole view right: the chart that loses a play, if
      there is one, must have the same bests without it. */
  lemma ConsumeKeepsBestsIff(db: Db, cursor: Option<(string, nat)>, e: Envelope, receivedMs: nat, p: Prepared)
    requires Inv(db) && BestsValid(db)
    requires Accepts(db, cursor, e, receivedMs, p)
    ensures BestsValid(Consumed(db, cursor, e, receivedMs).db) <==>
            (Displaced(db, e, p).Some? ==>
             var chart := Displaced(db, e, p).value;
             SameValues(Recomputed(WithoutAttempt(db, AttemptOf(e, p)), chart), Recomputed(db, chart)))
  {
    hide UpdatedBest, Mutated, Recomputed, Prepare, BestAgrees, SlotsAgree, RowKeys;
    var after := Consumed(db, cursor, e, receivedMs).db;
    ConsumeKeepsInvariant(db, cursor, e, receivedMs);
    ConsumedParts(db, cursor, e, receivedMs, p);
    if p.mutation.Some? {
      ResultEventRefreshesItsChart(db, cursor, e, receivedMs, p);
    } else {
      SelectEventKeepsAgreement(db, cursor, e, receivedMs, p);
    }
    assert after.bests.Keys == db.bests.Keys + {p.chart};
    forall chart | chart in db.bests && chart != p.chart
      ensures BestAgrees(after, chart) <==>
              (Displaced(db, e, p) == Some(chart) ==>
               SameValues(Recomputed(WithoutAttempt(db, AttemptOf(e, p)), chart), Recomputed(db, chart)))
    {
      OtherChartAgrees(db, cursor, e, receivedMs, p, chart);
    }
    if Displaced(db, e, p).Some? {
      var chart := Displaced(db, e, p).value;
      assert chart in db.bests && chart != p.chart;
    }
  }

  lemma OtherChartAgrees(db: Db, cursor: Option<(string, nat)>, e: Envelope, receivedMs: nat, p: Prepared, chart: Chart)
    requires Inv(db) && BestsValid(db)
    requires Accepts(db, cursor, e, receivedMs, p)
    requires chart in db.bests && chart != p.chart
    ensures var after := Consumed(db, cursor, e, receivedMs).db;
      chart in after.bests &&
      (BestAgrees(after, chart) <==>
        (Displaced(db, e, p) == Some(chart) ==>
         SameValues(Recomputed(WithoutAttempt(db, AttemptOf(e, p)), chart), Recomputed(db, chart))))
  {
    hide UpdatedBest, Mutated, Recomputed, Prepare, Integrated;
    var after := Consumed(db, cursor, e, receivedMs).db;
    ConsumedParts(db, cursor, e, receivedMs, p);
    var changed := AfterMutation(db, e, p, receivedMs);
    assert BestAgrees(db, chart);
    AgreementOfSlots(db, chart);
    AgreementOfSlots(after, chart);
    SamePlaysRecompute(changed, after, chart);
    var before := if Displaced(db, e, p) == Some(chart) then WithoutAttempt(db, AttemptOf(e, p)) else db;
    if p.mutation.Some? {
      MutationTouches(db, e, p, receivedMs, chart);
    }
    SamePlaysRecompute(before, changed, chart);
    assert after.bests[chart] == db.bests[chart];
  }

  // ----- runs -----

  datatype Input = Reopen | Deliver(e: Envelope, receivedMs: nat)

  datatype Session = Session(db: Db, cursor: Option<(string, nat)>)

  function Step(s: Session, input: Input): Session {
    match input
    case Reopen => Session(Recovered(s.db), None)
    case Deliver(e, receivedMs) =>
      var outcome := Consumed(s.db, s.cursor, e, receivedMs);
      Session(outcome.db, outcome.cursor)
  }

  /** A run from a fresh database. A crash shows as the reopening that follows it: a transaction
      either committed before it or left no trace. */
  function Run(inputs: seq<Input>): Session {
    if inputs == [] then Session(EMPTY_DB, None)
    else Step(Run(inputs[..|inputs| - 1]), inputs[|inputs| - 1])
  }

  lemma {:induction false} RunInvariant(inputs: seq<Input>)
    ensures Inv(Run(inputs).db)
  {
    hide Consumed, Recovered;
    if inputs == [] {
    } else {
      var s := Run(inputs[..|inputs| - 1]);
      RunInvariant(inputs[..|inputs| - 1]);
      match inputs[|inputs| - 1]
      case Reopen => RecoveryKeepsInv(s.db);
      case Deliver(e, receivedMs) => ConsumeKeepsInvariant(s.db, s.cursor, e, receivedMs);
    }
  }

  lemma RecoveryKeepsBests(db: Db)
    requires BestsValid(db)
    ensures BestsValid(Recovered(db))
  {
    hide BestAgrees;
    forall chart | chart in db.bests ensures BestAgrees(Recovered(db), chart) {
      RecoveryAgrees(db, chart);
    }
  }

  lemma RecoveryAgrees(db: Db, chart: Chart)
    requires chart in db.bests && BestAgrees(db, chart)
    ensures BestAgrees(Recovered(db), chart)
  {
    RecoveryKeepsPlays(db, chart);
    hide ReadFacts, Recomputed;
  }

  lemma RecoveryKeepsInv(db: Db)
    requires Inv(db)
    ensures Inv(Recovered(db))
  {
    hide ReadFacts, Derived;
    var after := Recovered(db);
    forall a | a in after.results ensures RowIsFirstSeen(after, a) && RowHasFacts(after, a) {
      assert RowIsFirstSeen(db, a) && RowHasFacts(db, a);
    }
  }

  lemma RecoveryKeepsPlays(db: Db, chart: Chart)
    ensures Recomputed(Recovered(db), chart) == Recomputed(db, chart)
  {
    hide ReadFacts, Recomputed;
    var after := Recovered(db);
    forall k ensures k in RowKeys(db.results, chart) <==> k in RowKeys(after.results, chart) {
      if k in RowKeys(db.results, chart) {
        var a := KeyOfRow(db.results, chart, k);
        assert a in after.results;
      }
      if k in RowKeys(after.results, chart) {
        var a := KeyOfRow(after.results, chart, k);
        assert a in db.results;
      }
    }
    assert RowKeys(db.results, chart) == RowKeys(after.results, chart);
    SamePlaysRecompute(db, after, chart);
  }

  /** No delivery that takes effect moves or deletes a live play of a chart other than the event's own. */
  ghost predicate NoSilentMove(inputs: seq<Input>) {
    forall k | 0 <= k < |inputs| :: StepNamesItsPlay(Run(inputs[..k]), inputs[k])
  }

  ghost predicate StepNamesItsPlay(s: Session, input: Input) {
    input.Deliver? && Consumed(s.db, s.cursor, input.e, input.receivedMs).result == Ok(true) ==>
      match Prepare(input.e, input.receivedMs)
      case Ok(Some(p)) => Displaced(s.db, input.e, p).None?
      case _ => true
  }

  /** The event, if it takes effect, takes no play away from another chart, or one that the bests do not need. */
  ghost predicate StepIsHarmless(s: Session, input: Input) {
    input.Deliver? && Consumed(s.db, s.cursor, input.e, input.receivedMs).result == Ok(true) ==>
      match Prepare(input.e, input.receivedMs)
      case Ok(Some(p)) => DisplacedIsHarmless(s.db, input.e, p)
      case _ => true
  }

  ghost predicate DisplacedIsHarmless(db: Db, e: Envelope, p: Prepared) {
    Displaced(db, e, p).Some? ==>
      var chart := Displaced(db, e, p).value;
      SameValues(Recomputed(WithoutAttempt(db, AttemptOf(e, p)), chart), Recomputed(db, chart))
  }

  lemma DeliveryKeepsBestsIff(s: Session, e: Envelope, receivedMs: nat)
    requires Inv(s.db) && BestsValid(s.db)
    ensures BestsValid(Step(s, Deliver(e, receivedMs)).db) <==> StepIsHarmless(s, Deliver(e, receivedMs))
  {
    hide BestsValid, Displaced, Mutated, UpdatedBest, EnvelopeIsValid, SameValues, Recomputed;
    var outcome := Consumed(s.db, s.cursor, e, receivedMs);
    if outcome.result == Ok(true) {
      var p := Prepare(e, receivedMs).value.value;
      ConsumeKeepsBestsIff(s.db, s.cursor, e, receivedMs, p);
    }
  }

  lemma StepKeepsBestsIff(s: Session, input: Input)
    requires Inv(s.db) && BestsValid(s.db)
    ensures BestsValid(Step(s, input).db) <==> StepIsHarmless(s, input)
  {
    match input
    case Reopen => RecoveryKeepsBests(s.db);
    case Deliver(e, receivedMs) => DeliveryKeepsBestsIff(s, e, receivedMs);
  }

  lemma PrefixStep(inputs: seq<Input>, k: nat)
    requires k < |inputs|
    ensures Run(inputs[..k + 1]) == Step(Run(inputs[..k]), inputs[k])
  {
    assert inputs[..k + 1][..k] == inputs[..k];
  }

  /** The view is right all through a run exactly when every event that takes effect is harmless. */
  lemma RunKeepsBestsExactly(inputs: seq<Input>)
    ensures (forall k | 0 <= k <= |inputs| :: BestsValid(Run(inputs[..k]).db))
            <==> (forall k | 0 <= k < |inputs| :: StepIsHarmless(Run(inputs[..k]), inputs[k]))
  {
    hide Run, Step, BestsValid, StepIsHarmless;
    if forall k | 0 <= k <= |inputs| :: BestsValid(Run(inputs[..k]).db) {
      forall k | 0 <= k < |inputs| ensures StepIsHarmless(Run(inputs[..k]), inputs[k]) {
        RunInvariant(inputs[..k]);
        PrefixStep(inputs, k);
        StepKeepsBestsIff(Run(inputs[..k]), inputs[k]);
      }
    }
    if forall k | 0 <= k < |inputs| :: StepIsHarmless(Run(inputs[..k]), inputs[k]) {
      forall k | 0 <= k <= |inputs| ensures BestsValid(Run(inputs[..k]).db) {
        HarmlessPrefix(inputs, k);
      }
    }
  }

  lemma {:induction false} HarmlessPrefix(inputs: seq<Input>, k: nat)
    requires k <= |inputs|
    requires forall i | 0 <= i < k :: StepIsHarmless(Run(inputs[..i]), inputs[i])
    ensures BestsValid(Run(inputs[..k]).db)
  {
    hide Step, StepIsHarmless;
    if k > 0 {
      HarmlessPrefix(inputs, k - 1);
      RunInvariant(inputs[..k - 1]);
      PrefixStep(inputs, k - 1);
      StepKeepsBestsIff(Run(inputs[..k - 1]), inputs[k - 1]);
    }
  }

  /** The whole view of bests is right after every run in which a play changes chart only after a
      retraction that names its current chart. */
  lemma RunKeepsBests(inputs: seq<Input>)
    requires NoSilentMove(inputs)
    ensures BestsValid(Run(inputs).db)
  {
    hide Run, Step, BestsValid;
    forall k | 0 <= k < |inputs| ensures StepIsHarmless(Run(inputs[..k]), inputs[k]) {
      NamedIsHarmless(Run(inputs[..k]), inputs[k]);
    }
    HarmlessPrefix(inputs, |inputs|);
    assert inputs[..|inputs|] == inputs;
  }

  lemma NamedIsHarmless(s: Session, input: Input)
    requires StepNamesItsPlay(s, input)
    ensures StepIsHarmless(s, input)
  {
    hide Consumed, Prepare, Displaced, SameValues, Recomputed;
  }

  // ----- confirmed plays and first-seen identity -----

  ghost predicate ConfirmsAttempt(input: Input, a: Attempt) {
    && input.Deliver?
    && input.e.event.ResultChanged? && input.e.event.change.ConfirmedResult?
    && input.e.session == Some(a.session)
    && input.e.event.change.result.attemptId == a.attemptId
  }

  ghost predicate ConfirmedIn(db: Db, a: Attempt) {
    a in db.results && db.results[a].state == Confirmed
  }

  lemma StepKeepsConfirmed(s: Session, input: Input, a: Attempt)
    requires ConfirmedIn(s.db, a)
    ensures ConfirmedIn(Step(s, input).db, a)
    ensures !ConfirmsAttempt(input, a) ==> Step(s, input).db.results[a] == s.db.results[a]
  {
    hide UpdatedBest, EnvelopeIsValid, SavedFacts, WithoutFacts, FirstOf;
  }

  /** Once confirmed, a play survives whatever follows, and only another confirmation alters it. */
  lemma {:induction false} ConfirmedSurvives(inputs: seq<Input>, more: seq<Input>, a: Attempt)
    requires ConfirmedIn(Run(inputs).db, a)
    ensures ConfirmedIn(Run(inputs + more).db, a)
    ensures (forall i | 0 <= i < |more| :: !ConfirmsAttempt(more[i], a)) ==>
            Run(inputs + more).db.results[a] == Run(inputs).db.results[a]
    decreases |more|
  {
    hide Step;
    if more == [] {
      assert inputs + more == inputs;
    } else {
      var last := |more| - 1;
      ConfirmedSurvives(inputs, more[..last], a);
      assert (inputs + more)[..|inputs + more| - 1] == inputs + more[..last];
      assert (inputs + more)[|inputs + more| - 1] == more[last];
      StepKeepsConfirmed(Run(inputs + more[..last]), more[last], a);
    }
  }

  /** The attempt that an input upserts, when the store accepts it. */
  function AcceptedUpsert(s: Session, input: Input): Option<Attempt> {
    if input.Reopen? || Consumed(s.db, s.cursor, input.e, input.receivedMs).result != Ok(true) then None
    else
      match Prepare(input.e, input.receivedMs)
      case Ok(Some(p)) =>
        if p.mutation.Some? && p.mutation.value.Upsert? && input.e.session.Some?
        then Some(AttemptOf(input.e, p)) else None
      case _ => None
  }

  /** What the first accepted upsert of each attempt said, read off the history alone. */
  function Firsts(inputs: seq<Input>): map<Attempt, First> {
    if inputs == [] then map[]
    else
      var before, input := inputs[..|inputs| - 1], inputs[|inputs| - 1];
      match AcceptedUpsert(Run(before), input)
      case None => Firsts(before)
      case Some(a) =>
        if a in Firsts(before) then Firsts(before)
        else Firsts(before)[a := First(input.e.eventId, input.e.emittedMs, input.receivedMs)]
  }

  lemma StepRecordsFirst(s: Session, input: Input)
    ensures Step(s, input).db.origins ==
            match AcceptedUpsert(s, input)
            case None => s.db.origins
            case Some(a) =>
              if a in s.db.origins then s.db.origins
              else s.db.origins[a := First(input.e.eventId, input.e.emittedMs, input.receivedMs)]
  {
    hide UpdatedBest, EnvelopeIsValid, SavedFacts, UpsertedRow;
    if input.Deliver? {
      match Prepare(input.e, input.receivedMs)
      case Ok(Some(p)) =>
        if p.mutation.Some? && input.e.session.Some? {
          var a := AttemptOf(input.e, p);
          if a in s.db.origins { assert s.db.origins[a := s.db.origins[a]] == s.db.origins; }
        }
      case _ =>
    }
  }

  /** Every live play carries the event id and both times of its attempt's first accepted upsert,
      across retractions, re-detections and reopening. */
  lemma {:induction false} PlaysKeepFirstSeen(inputs: seq<Input>)
    ensures Run(inputs).db.origins == Firsts(inputs)
    ensures forall a | a in Run(inputs).db.results ::
              var row := Run(inputs).db.results[a];
              a in Firsts(inputs) && Firsts(inputs)[a] == First(row.eventId, row.emittedMs, row.receivedMs)
  {
    hide Step, AcceptedUpsert;
    if inputs != [] {
      var before, input := inputs[..|inputs| - 1], inputs[|inputs| - 1];
      PlaysKeepFirstSeen(before);
      StepRecordsFirst(Run(before), input);
    }
    RunInvariant(inputs);
    FirstSeenRows(Run(inputs).db);
  }

  lemma FirstSeenRows(db: Db)
    requires Inv(db)
    ensures forall a | a in db.results :: RowIsFirstSeen(db, a)
  {
    hide ReadFacts, Derived;
  }

  // ----- what the view means -----

  function RowValue(row: PlayRow, field: nat): Option<int>
    requires field < 3
  {
    if field == 0 then row.score else if field == 1 then row.miss else row.clear
  }

  /** `best` is the best value that the chart's live plays have for a field. */
  ghost predicate IsBestPlay(results: map<Attempt, PlayRow>, chart: Chart, field: nat, best: Option<int>)
    requires field < 3
  {
    && (forall a | a in results && results[a].chart == chart && RowValue(results[a], field).Some? ::
          best.Some? && !Better(field, RowValue(results[a], field).value, best.value))
    && (best.Some? ==> exists a :: a in results && results[a].chart == chart && RowValue(results[a], field) == best)
  }

  lemma RecomputedIsBestPlay(db: Db, chart: Chart, field: nat)
    requires RowsKept(db) && field < 3
    ensures IsBestPlay(db.results, chart, field, Value(Recomputed(db, chart)[field]))
  {
    hide ReadFacts, AccumulateAll, PlayIds, IsBest;
    var ids := PlayIds(db, chart);
    var plays := PlayFacts(db.facts, ids, 0);
    var best := Value(Recomputed(db, chart)[field]);
    AccumulatedIsBest(plays, field);
    BestOfPlays(plays, field, best);
    forall a | a in db.results && db.results[a].chart == chart && RowValue(db.results[a], field).Some?
      ensures best.Some? && !Better(field, RowValue(db.results[a], field).value, best.value)
    {
      var i := RowIndex(db, chart, a);
      assert RowHasFacts(db, a);
      assert Value(plays[i][field]) == RowValue(db.results[a], field);
    }
    if best.Some? {
      var i :| 0 <= i < |plays| && Value(plays[i][field]) == best;
      IdsAreKeys(db, chart);
      var a := KeyOfRow(db.results, chart, ids[i]);
      assert RowHasFacts(db, a);
      assert RowValue(db.results[a], field) == best;
    }
  }

  lemma BestOfPlays(plays: seq<Fields>, field: nat, best: Option<int>)
    requires field < 3 && IsBest(field, best, plays)
    ensures best.Some? ==> exists i :: 0 <= i < |plays| && Value(plays[i][field]) == best
    ensures forall i :: 0 <= i < |plays| && Value(plays[i][field]).Some? ==>
              best.Some? && !Better(field, Value(plays[i][field]).value, best.value)
  {
  }

  lemma RowIndex(db: Db, chart: Chart, a: Attempt) returns (i: nat)
    requires a in db.results && db.results[a].chart == chart
    ensures i < |PlayIds(db, chart)| && PlayIds(db, chart)[i].eventId == db.results[a].eventId
  {
    var k := RowKey(db.results[a].emittedMs, db.results[a].eventId);
    assert k in RowKeys(db.results, chart);
    assert k in PlayIds(db, chart);
    i :| 0 <= i < |PlayIds(db, chart)| && PlayIds(db, chart)[i] == k;
  }

  /** After every such run, a chart's stored result bests are the highest score, lowest miss count
      and highest clear of its live plays. */
  lemma ViewShowsBestPlays(inputs: seq<Input>, chart: Chart, field: nat)
    requires NoSilentMove(inputs) && field < 3
    requires chart in Run(inputs).db.bests
    ensures IsBestPlay(Run(inputs).db.results, chart, field, Value(Run(inputs).db.bests[chart].facts[field]))
  {
    hide Run, Recomputed, ReadFacts;
    var db := Run(inputs).db;
    RunInvariant(inputs);
    RunKeepsBests(inputs);
    InvariantHasRows(db);
    assert BestAgrees(db, chart);
    AgreementOfSlots(db, chart);
    RecomputedIsBestPlay(db, chart, field);
    assert Value(db.bests[chart].facts[..6][field]) == Value(Recomputed(db, chart)[field]);
  }

  // ----- the run that the hypothesis excludes -----

  const CHART_A := Chart("a", Single, Normal)
  const CHART_B := Chart("b", Single, Normal)

  function SampleResult(sequence: nat, chart: Chart): Envelope {
    Envelope("run", sequence, "event", 0, Some("session"),
      ResultChanged(ProvisionalResult(
        ResultData(EVENT_RESULT_CONTRACT, 1, chart, OnePlayer, 100, "CLEAR",
                   Unknown, Unknown, Unknown, Unknown, Structured.Null),
        Song(chart.songId, ["title"], "artist"))))
  }

  const SILENT_MOVE := [Deliver(SampleResult(1, CHART_A), 0), Deliver(SampleResult(2, CHART_B), 0)]

  /** An attempt detected on one chart and then on another leaves the first chart's bests stale. */
  lemma SilentMoveLeavesStaleBests()
    ensures !BestsValid(Run(SILENT_MOVE).db)
  {
    hide Step, Inv, BestsValid, Recomputed, Prepare, EnvelopeIsValid, Displaced, Consumed, SampleResult;
    var first, e2 := [SILENT_MOVE[0]], SampleResult(2, CHART_B);
    assert SILENT_MOVE[..1] == first;
    var s1 := Run(first);
    assert Run(SILENT_MOVE) == Step(s1, Deliver(e2, 0));
    AfterFirstDelivery();
    var p2 := SamplePrepared(e2, CHART_B);
    SecondDelivery(s1, e2, p2);
    ConsumeKeepsBestsIff(s1.db, s1.cursor, e2, 0, p2);
    OnlyPlayMatters(s1.db, Attempt("session", 1));
    StepIsConsumed(s1, e2);
    assert AttemptOf(e2, p2) == Attempt("session", 1) by { SampleSession(); }
  }

  lemma SampleSession()
    ensures SampleResult(2, CHART_B).session == Some("session")
  {
  }

  lemma StepIsConsumed(s: Session, e: Envelope)
    ensures Step(s, Deliver(e, 0)).db == Consumed(s.db, s.cursor, e, 0).db
  {
    hide Consumed;
  }

  lemma AfterFirstDelivery()
    ensures var s, a := Run([SILENT_MOVE[0]]), Attempt("session", 1);
      && s.cursor == Some(("run", 1))
      && s.db.results.Keys == {a} && s.db.results[a].chart == CHART_A
      && s.db.results[a].state == Provisional && s.db.results[a].score == Some(100)
      && Inv(s.db) && BestsValid(s.db)
  {
    hide Step, Inv, BestsValid, Prepare, EnvelopeIsValid, Displaced, SampleResult;
    var e, first := SampleResult(1, CHART_A), [SILENT_MOVE[0]];
    assert first[..0] == [];
    assert Run(first) == Step(Run([]), Deliver(e, 0));
    var p := SamplePrepared(e, CHART_A);
    FirstDelivery(e, p);
    RunInvariant(first);
    forall k | 0 <= k < |first| ensures StepNamesItsPlay(Run(first[..k]), first[k]) { }
    RunKeepsBests(first);
  }

  /** Taking the chart's only play away changes its best score. */
  lemma OnlyPlayMatters(db: Db, a: Attempt)
    requires Inv(db) && db.results.Keys == {a}
    requires db.results[a].chart == CHART_A && db.results[a].score == Some(100)
    ensures !SameValues(Recomputed(WithoutAttempt(db, a), CHART_A), Recomputed(db, CHART_A))
  {
    hide Inv, Recomputed, RowsKept;
    UnplayedChart(WithoutAttempt(db, a), CHART_A);
    InvariantHasRows(db);
    RecomputedIsBestPlay(db, CHART_A, 0);
    assert RowValue(db.results[a], 0) == Some(100);
    assert Value(Recomputed(db, CHART_A)[0]).Some?;
  }

  lemma SamplePrepared(e: Envelope, chart: Chart) returns (p: Prepared)
    requires exists n :: e == SampleResult(n, chart)
    ensures Prepare(e, 0) == Ok(Some(p)) && EnvelopeIsValid(e)
    ensures p.chart == chart && p.attemptId == 1 && p.mutation == Some(Upsert(Provisional))
    ensures Value(p.current[0]) == Some(100) && p.document == Structured.Null
  {
    p := Prepare(e, 0).value.value;
  }

  lemma FirstDelivery(e: Envelope, p: Prepared)
    requires e == SampleResult(1, CHART_A) && Prepare(e, 0) == Ok(Some(p)) && EnvelopeIsValid(e)
    requires p.chart == CHART_A && p.attemptId == 1 && p.mutation == Some(Upsert(Provisional))
    requires Value(p.current[0]) == Some(100) && p.document == Structured.Null
    ensures
      var s, a := Step(Session(EMPTY_DB, None), Deliver(e, 0)), Attempt("session", 1);
      && s.cursor == Some(("run", 1))
      && s.db.results.Keys == {a} && s.db.results[a].chart == CHART_A
      && s.db.results[a].state == Provisional && s.db.results[a].score == Some(100)
      && StepNamesItsPlay(Session(EMPTY_DB, None), Deliver(e, 0))
  {
    hide UpdatedBest, Prepare, EnvelopeIsValid, SavedFacts;
  }

  lemma SecondDelivery(s: Session, e: Envelope, p: Prepared)
    requires e == SampleResult(2, CHART_B) && Prepare(e, 0) == Ok(Some(p)) && EnvelopeIsValid(e)
    requires p.chart == CHART_B && p.attemptId == 1 && p.mutation == Some(Upsert(Provisional))
    requires p.document == Structured.Null
    requires var a := Attempt("session", 1);
      && s.cursor == Some(("run", 1)) && a in s.db.results
      && s.db.results[a].chart == CHART_A && s.db.results[a].state == Provisional
    ensures Accepts(s.db, s.cursor, e, 0, p)
    ensures Displaced(s.db, e, p) == Some(CHART_A)
  {
    hide UpdatedBest, Prepare, EnvelopeIsValid, SavedFacts;
  }
}
