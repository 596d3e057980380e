// Federated catalogs can be written: no two assertions of one chart come to share the key columns of the assertions'
// table.
module FederationKeys {
  import opened Common
  import opened CatalogModel
  import opened Federation
  import opened FederationSongs
  import opened FederationValid
  import opened FederationTheorems
  import opened SnapshotTables
  import opened SnapshotStore

  // ---------------------------------------------------------------- chart ids

  // What the adapters guarantee: a chart id occurs once in a snapshot, at least with no other versions.
  predicate Agreeing(charts: set<ChartRecord>) {
    forall r, q | r in charts && q in charts && r.chartId == q.chartId ::
      r.versions == q.versions && r.primary == q.primary
  }

  // An evidence id determines its observations: an assertion under this evidence says what its record says.
  predicate Cites(sheet: Sheet, charts: set<ChartRecord>, ev: EvidenceId) {
    forall k | k in sheet.assertions :: forall a | a in sheet.assertions[k] :: forall r | r in charts ::
      a.evidence == ev && a.chartId == r.chartId ==> a == AssertionOf(r, ev)
  }

  predicate Distinct(sheet: Sheet) {
    forall k | k in sheet.assertions ::
      forall a, b | a in sheet.assertions[k] && b in sheet.assertions[k] :: !Clashes(a, b)
  }

  // The records of one snapshot under its evidence.
  datatype Told = Told(charts: set<ChartRecord>, ev: EvidenceId)

  // The sheet has no clash, and agrees with both snapshots.
  predicate Held(sheet: Sheet, own: Told, other: Told) {
    Distinct(sheet) && Cites(sheet, own.charts, own.ev) && Cites(sheet, other.charts, other.ev)
  }

  predicate AllHeld(songs: map<SongId, Song>, own: Told, other: Told) {
    forall id | id in songs :: Held(songs[id].sheet, own, other)
  }

  lemma ChartHeld(sheet: Sheet, r: ChartRecord, own: Told, other: Told)
    requires Held(sheet, own, other) && r in own.charts && Agreeing(own.charts) && own.ev != other.ev
    ensures Held(WithChart(sheet, r, own.ev), own, other)
  {
    var k := r.chart.key;
    var known := if k in sheet.assertions then sheet.assertions[k] else {};
    var after := WithChart(sheet, r, own.ev);
    assert after.assertions[k] <= known + {AssertionOf(r, own.ev)};
    assert forall j | j in after.assertions && j != k :: j in sheet.assertions;
    forall a, b | a in after.assertions[k] && b in after.assertions[k] ensures !Clashes(a, b) {
      assert a in known || a == AssertionOf(r, own.ev);
      assert b in known || b == AssertionOf(r, own.ev);
    }
    forall a, q | a in after.assertions[k] && q in own.charts && a.evidence == own.ev && a.chartId == q.chartId
      ensures a == AssertionOf(q, own.ev)
    {
      assert a in known || a == AssertionOf(r, own.ev);
    }
  }

  lemma {:induction false} ChartsHeld(sheet: Sheet, charts: seq<ChartRecord>, own: Told, other: Told)
    requires Held(sheet, own, other) && Agreeing(own.charts) && own.ev != other.ev
    requires forall r | r in charts :: r in own.charts
    ensures Held(WithCharts(sheet, charts, own.ev), own, other)
  {
    hide Held, Agreeing;
    if charts != [] {
      var n := |charts| - 1;
      assert forall r | r in charts[..n] :: r in charts;
      ChartsHeld(sheet, charts[..n], own, other);
      ChartHeld(WithCharts(sheet, charts[..n], own.ev), charts[n], own, other);
    }
  }

  lemma NewSongHeld(r: TachiRecord, own: Told, other: Told)
    requires Agreeing(own.charts) && own.ev != other.ev && forall x | x in r.charts :: x in own.charts
    ensures Held(NewSong(r, own.ev).sheet, own, other)
  {
    var sheet := NewSong(r, own.ev).sheet;
    forall k | k in sheet.assertions
      ensures sheet.assertions[k] == {AssertionOf(RecordAt(r.charts, k), own.ev)} && RecordAt(r.charts, k) in own.charts
    {
    }
    hide NewSong, RecordAt;
  }

  // ---------------------------------------------------------------- the folds

  lemma TachiStepHeld(l: Ledger, r: TachiRecord, own: Told, other: Told)
    requires AllHeld(l.catalog.songs, own, other) && Agreeing(own.charts) && own.ev != other.ev
    requires forall x | x in r.charts :: x in own.charts
    ensures AllHeld(TachiStep(l, r, own.ev).catalog.songs, own, other)
  {
    hide Held, Agreeing, TachiRefusal, WithCharts, WithTachiTitles, WithAttributes;
    var id := FromTachi(r.id);
    if id in l.catalog.songs {
      ChartsHeld(l.catalog.songs[id].sheet, r.charts, own, other);
    } else {
      NewSongHeld(r, own, other);
      hide NewSong;
    }
  }

  lemma {:induction false} TachiFoldHeld(l: Ledger, records: seq<TachiRecord>, own: Told, other: Told)
    requires AllHeld(l.catalog.songs, own, other) && Agreeing(own.charts) && own.ev != other.ev
    requires forall r | r in records :: forall x | x in r.charts :: x in own.charts
    ensures AllHeld(TachiFold(l, records, own.ev).catalog.songs, own, other)
  {
    hide AllHeld, Agreeing, TachiStep;
    if records != [] {
      var n := |records| - 1;
      assert forall r | r in records[..n] :: r in records;
      TachiFoldHeld(l, records[..n], own, other);
      TachiStepHeld(TachiFold(l, records[..n], own.ev), records[n], own, other);
    }
  }

  lemma TextageStepHeld(nfc: Nfc, l: Ledger, r: TextageRecord, own: Told, other: Told)
    requires AllHeld(l.catalog.songs, own, other) && Agreeing(own.charts) && own.ev != other.ev
    requires forall x | x in r.charts :: x in own.charts
    ensures AllHeld(TextageStep(nfc, l, r, own.ev).catalog.songs, own, other)
  {
    hide Held, Agreeing, TextageTarget, WithCharts, WithTitle, WithAttributes, WithBinding;
    match TextageTarget(nfc, l.catalog.songs, r)
    case Ok(id) => ChartsHeld(l.catalog.songs[id].sheet, r.charts, own, other);
    case Err(_) =>
  }

  lemma {:induction false} TextageFoldHeld(nfc: Nfc, l: Ledger, records: seq<TextageRecord>, own: Told, other: Told)
    requires AllHeld(l.catalog.songs, own, other) && Agreeing(own.charts) && own.ev != other.ev
    requires forall r | r in records :: forall x | x in r.charts :: x in own.charts
    ensures AllHeld(TextageFold(nfc, l, records, own.ev).catalog.songs, own, other)
  {
    hide AllHeld, Agreeing, TextageStep;
    if records != [] {
      var n := |records| - 1;
      assert forall r | r in records[..n] :: r in records;
      TextageFoldHeld(nfc, l, records[..n], own, other);
      TextageStepHeld(nfc, TextageFold(nfc, l, records[..n], own.ev), records[n], own, other);
    }
  }

  // ---------------------------------------------------------------- a whole federation

  function TachiTold(s: Snapshot): Told {
    Told(set r, x | r in TachiRecords(s.observations) && x in r.charts :: x, IdOf(s.evidence))
  }

  function TextageTold(s: Snapshot): Told {
    Told(set r, x | r in TextageRecords(s.observations) && x in r.charts :: x, IdOf(s.evidence))
  }

  // The snapshots' chart ids are told apart, and the catalog agrees with what it already cites of them.
  predicate ChartIdsOk(c: Catalog, told: Told) {
    Agreeing(told.charts) && forall id | id in c.songs :: Cites(c.songs[id].sheet, told.charts, told.ev)
  }

  predicate IdsOk(c: Catalog, input: Input) {
    && (input.tachi.Some? ==> ChartIdsOk(c, TachiTold(input.tachi.value)))
    && (input.textage.Some? ==> ChartIdsOk(c, TextageTold(input.textage.value)))
  }

  // Nothing was told under an evidence id of another source.
  const NOTHING := Told({}, EvidenceId(Dqn, "", ""))

  lemma DistinctSheets(c: Catalog)
    ensures !Clash(c) <==> forall id | id in c.songs :: Distinct(c.songs[id].sheet)
  {
  }

  lemma ApplyTachiHeld(l: Ledger, s: Snapshot, other: Told)
    requires SnapshotEvidenceOk(s, Tachi) && Agreeing(TachiTold(s).charts) && !other.ev.source.Tachi?
    requires AllHeld(l.catalog.songs, TachiTold(s), other)
    ensures AllHeld(ApplyTachi(l, Some(s)).catalog.songs, TachiTold(s), other)
  {
    var records := TachiRecords(s.observations);
    var sorted := Sorted(records, TachiKeyOf);
    assert forall r | r in sorted :: r in records by {
      assert forall r | r in sorted :: r in multiset(sorted);
    }
    if SnapshotRefusal(l.catalog, s, Tachi).None? {
      hide AllHeld, Agreeing, TachiRecords, Sorted, TachiFold, Healthy;
      TachiFoldHeld(l, sorted, TachiTold(s), other);
    }
  }

  lemma ApplyTextageHeld(nfc: Nfc, l: Ledger, s: Snapshot, other: Told)
    requires SnapshotEvidenceOk(s, Textage) && Agreeing(TextageTold(s).charts) && !other.ev.source.Textage?
    requires AllHeld(l.catalog.songs, TextageTold(s), other)
    ensures AllHeld(ApplyTextage(nfc, l, Some(s)).catalog.songs, TextageTold(s), other)
  {
    var records := TextageRecords(s.observations);
    var sorted := Sorted(records, TextageKeyOf);
    assert forall r | r in sorted :: r in records by {
      assert forall r | r in sorted :: r in multiset(sorted);
    }
    if SnapshotRefusal(l.catalog, s, Textage).None? {
      hide AllHeld, Agreeing, TextageRecords, Sorted, TextageFold, Healthy;
      TextageFoldHeld(nfc, l, sorted, TextageTold(s), other);
    }
  }

  lemma TachiThenHeld(c: Catalog, input: Input, other: Told)
    requires !Clash(c) && IdsOk(c, input) && (input.tachi.Some? ==> SnapshotEvidenceOk(input.tachi.value, Tachi))
    requires !other.ev.source.Tachi? && forall id | id in c.songs :: Cites(c.songs[id].sheet, other.charts, other.ev)
    ensures AllHeld(ApplyTachi(Ledger(c, []), input.tachi).catalog.songs, NOTHING, other)
  {
    DistinctSheets(c);
    hide Clash, Distinct, Agreeing, TachiTold, TextageTold;
    match input.tachi
    case None => hide Cites; NothingHeld(c.songs, other);
    case Some(s) =>
      hide Cites, SnapshotEvidenceOk;
      assert AllHeld(c.songs, TachiTold(s), other);
      ApplyTachiHeld(Ledger(c, []), s, other);
      hide ApplyTachi;
      NothingHeld(ApplyTachi(Ledger(c, []), input.tachi).catalog.songs, other);
  }

  lemma NothingHeld(songs: map<SongId, Song>, other: Told)
    requires forall id | id in songs :: Distinct(songs[id].sheet) && Cites(songs[id].sheet, other.charts, other.ev)
    ensures AllHeld(songs, NOTHING, other) && AllHeld(songs, other, NOTHING)
  {
    hide Distinct;
  }

  // The two snapshots with charts leave no clash.
  lemma SourcesHeld(nfc: Nfc, c: Catalog, input: Input)
    requires !Clash(c) && IdsOk(c, input)
    requires input.tachi.Some? ==> SnapshotEvidenceOk(input.tachi.value, Tachi)
    requires input.textage.Some? ==> SnapshotEvidenceOk(input.textage.value, Textage)
    ensures
      var l := ApplyTextage(nfc, ApplyTachi(Ledger(c, []), input.tachi), input.textage);
      forall id | id in l.catalog.songs :: Distinct(l.catalog.songs[id].sheet)
  {
    hide PolicyFor, EvidenceOk;
    var l := ApplyTachi(Ledger(c, []), input.tachi);
    if input.textage.Some? && input.textage.value.policy == PolicyFor(Textage) {
      var told := TextageTold(input.textage.value);
      assert told.ev.source == Textage && ChartIdsOk(c, told);
      TachiThenHeld(c, input, told);
      hide ApplyTachi, ApplyTextage, Cites, Distinct, Agreeing, Clash, TextageTold, SnapshotEvidenceOk, TachiTold;
      NothingHeld(l.catalog.songs, told);
      ApplyTextageHeld(nfc, l, input.textage.value, NOTHING);
    } else {
      TachiThenHeld(c, input, NOTHING);
      MisnamedTextageKeepsSongs(nfc, l, input.textage);
      hide ApplyTachi, ApplyTextage, Cites, Distinct, Agreeing, Clash, TextageTold, SnapshotEvidenceOk, TachiTold;
    }
  }

  lemma MisnamedTextageKeepsSongs(nfc: Nfc, l: Ledger, snapshot: Option<Snapshot>)
    requires snapshot.Some? ==> snapshot.value.policy != PolicyFor(Textage)
    ensures ApplyTextage(nfc, l, snapshot).catalog.songs == l.catalog.songs
  {
    hide TextageFold, Healthy;
  }

  lemma DqnKeepsSongs(nfc: Nfc, previous: Catalog, l: Ledger, snapshot: Option<Snapshot>)
    ensures ApplyDqn(nfc, previous, l, snapshot).catalog.songs == l.catalog.songs
  {
    hide DqnFold, Regressed, DqnUnmatched, DqnRegressions, Healthy, PolicyFor;
  }

  lemma FinishKeepsDistinct(c: Catalog)
    requires forall id | id in c.songs :: Distinct(c.songs[id].sheet)
    ensures !Clash(Pruned(Refreshed(c)))
  {
    DistinctSheets(Pruned(Refreshed(c)));
    hide Clash, Distinct, ExpectedStatus, Referenced;
  }

  /** Federating brings no clash of assertion keys into a catalog that has none. */
  lemma FederateNeverClashes(nfc: Nfc, c: Catalog, input: Input)
    requires !Clash(c) && IdsOk(c, input)
    requires input.tachi.Some? ==> SnapshotEvidenceOk(input.tachi.value, Tachi)
    requires input.textage.Some? ==> SnapshotEvidenceOk(input.textage.value, Textage)
    ensures !Clash(Federate(nfc, c, input).catalog)
  {
    var l := ApplyTextage(nfc, ApplyTachi(Ledger(c, []), input.tachi), input.textage);
    SourcesHeld(nfc, c, input);
    DqnKeepsSongs(nfc, c, l, input.dqn);
    FinishKeepsDistinct(Applied(nfc, c, input).catalog);
    hide ApplyTachi, ApplyTextage, ApplyDqn, Clash, Distinct, Refreshed, Pruned, IdsOk;
  }

  /** So what a federation makes of a valid catalog can always be written. */
  lemma FederatedCanBeWritten(nfc: Nfc, c: Catalog, input: Input)
    requires Valid(nfc, c) && InputOk(c, input) && !Clash(c) && IdsOk(c, input)
    ensures
      var d := Federate(nfc, c, input).catalog;
      Write(nfc, d) == Ok(Rows(d))
  {
    hide Valid, Federate, Clash, IdsOk, SnapshotEvidenceOk, TachiRecordsOk, EvidenceDetermines, TextageRecordsOk, Rows;
    FederateKeepsValid(nfc, c, input);
    FederateNeverClashes(nfc, c, input);
  }
}
