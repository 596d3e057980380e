// Every Textage record of an admitted snapshot is either set aside, once, or taken over into exactly one song.
module FederationAccounting {
  import opened Common
  import opened CatalogModel
  import opened Federation
  import opened FederationSongs
  import opened FederationValid

  // ---------------------------------------------------------------- a record that has been taken over

  predicate ChartsTaken(sheet: Sheet, charts: seq<ChartRecord>, source: SourceId) {
    forall x | x in charts ::
      && x.chart.key in sheet.charts && sheet.charts[x.chart.key] == x.chart
      && x.chart.key in sheet.assertions && Asserted(sheet.assertions[x.chart.key], x, source)
  }

  // The song carries the record's title, binding, attributes and charts.
  predicate Took(song: Song, r: TextageRecord) {
    && Titled(song, Textage, r.title, r.kind)
    && Binds(song.links, Textage, r.id)
    && Attributed(song.links, TextageKey(r), TextageAttributes(r))
    && ChartsTaken(song.sheet, r.charts, Textage)
  }

  predicate ConflictFree(sheet: Sheet, charts: seq<ChartRecord>) {
    forall x | x in charts :: x.chart.key in sheet.charts ==> sheet.charts[x.chart.key] == x.chart
  }

  lemma AssertedStays(before: Sheet, after: Sheet, x: ChartRecord, source: SourceId)
    requires SheetGrows(before, after)
    requires x.chart.key in before.assertions && Asserted(before.assertions[x.chart.key], x, source)
    ensures x.chart.key in after.assertions && Asserted(after.assertions[x.chart.key], x, source)
  {
  }

  lemma {:induction false} WithChartsTakes(sheet: Sheet, charts: seq<ChartRecord>, ev: EvidenceId)
    requires ConflictFree(sheet, charts)
    requires forall i, j | 0 <= i < j < |charts| :: charts[i].chart.key != charts[j].chart.key
    ensures ChartsTaken(WithCharts(sheet, charts, ev), charts, ev.source)
    ensures forall k | k in WithCharts(sheet, charts, ev).charts ::
              k in sheet.charts || exists x :: x in charts && x.chart.key == k
  {
    if charts != [] {
      var n := |charts| - 1;
      var front, r := charts[..n], charts[n];
      var before := WithCharts(sheet, front, ev);
      WithChartsTakes(sheet, front, ev);
      assert forall x | x in front :: x in charts && x.chart.key != r.chart.key;
      OneChartTaken(before, r, ev);
      ChartsGrow(sheet, front, ev);
      forall x | x in charts
        ensures x.chart.key in WithChart(before, r, ev).charts
        ensures WithChart(before, r, ev).charts[x.chart.key] == x.chart
        ensures x.chart.key in WithChart(before, r, ev).assertions
        ensures Asserted(WithChart(before, r, ev).assertions[x.chart.key], x, ev.source)
      {
        if x != r {
          assert x in front;
        } else {
          assert r.chart.key in before.charts ==> r.chart.key in sheet.charts;
        }
      }
    }
  }

  lemma OneChartTaken(sheet: Sheet, r: ChartRecord, ev: EvidenceId)
    ensures
      var after := WithChart(sheet, r, ev);
      && r.chart.key in after.charts && (r.chart.key !in sheet.charts ==> after.charts[r.chart.key] == r.chart)
      && r.chart.key in after.assertions && Asserted(after.assertions[r.chart.key], r, ev.source)
  {
    var after := WithChart(sheet, r, ev);
    assert AssertionOf(r, ev) in after.assertions[r.chart.key]
      || (r.chart.key in sheet.assertions && Asserted(sheet.assertions[r.chart.key], r, ev.source));
  }

  lemma AttributesTaken(links: Links, b: BindingKey, attributes: map<string, string>, ev: EvidenceId)
    ensures Attributed(WithAttributes(links, b, attributes, ev), b, attributes)
  {
    var after := WithAttributes(links, b, attributes, ev);
    assert !Attributed(links, b, attributes) ==> ev in after.evidence[b];
  }

  lemma AttributesStay(links: Links, b: BindingKey, attributes: map<string, string>, other: BindingKey,
                       news: map<string, string>, ev: EvidenceId)
    requires b != other && Attributed(links, b, attributes)
    ensures Attributed(Linked(links, other, news, ev), b, attributes)
  {
  }

  lemma MergedTextageTakes(song: Song, r: TextageRecord, ev: EvidenceId)
    requires ev.source == Textage && !ChartConflict(song, r.charts)
    requires forall i, j | 0 <= i < j < |r.charts| :: r.charts[i].chart.key != r.charts[j].chart.key
    ensures Took(MergedTextage(song, r, ev), r)
  {
    hide TextageAttributes;
    var after := MergedTextage(song, r, ev);
    WithChartsTakes(song.sheet, r.charts, ev);
    AttributesTaken(WithBinding(song.links, TextageKey(r)), TextageKey(r), TextageAttributes(r), ev);
    LinkedBindings(song.links, TextageKey(r), TextageAttributes(r), ev);
    hide WithAttributes, WithBinding, WithCharts, Attributed, ChartsTaken, Binds;
    assert Titled(after, Textage, r.title, r.kind) by {
      assert !Titled(song, Textage, r.title, r.kind) ==> Title(r.title, Textage, r.kind, ev) in after.titles;
    }
  }

  lemma TookStays(song: Song, r: TextageRecord, other: TextageRecord, ev: EvidenceId)
    requires Took(song, r) && other.id != r.id
    ensures Took(MergedTextage(song, other, ev), r)
  {
    hide TextageAttributes, WithAttributes, WithBinding, WithCharts, Attributed, Binds, LinksGrow, Asserted;
    var after := MergedTextage(song, other, ev);
    MergedTextageGrows(song, other, ev);
    AttributesStay(song.links, TextageKey(r), TextageAttributes(r), TextageKey(other), TextageAttributes(other), ev);
    LinkedBindings(song.links, TextageKey(other), TextageAttributes(other), ev);
    forall x | x in r.charts
      ensures x.chart.key in after.sheet.charts && after.sheet.charts[x.chart.key] == x.chart
      ensures x.chart.key in after.sheet.assertions && Asserted(after.sheet.assertions[x.chart.key], x, Textage)
    {
      AssertedStays(song.sheet, after.sheet, x, Textage);
    }
  }

  // ---------------------------------------------------------------- counting records

  datatype Acceptance = Acceptance(record: TextageRecord, song: SongId)

  // The records the fold takes over, with the song each goes to.
  ghost function Accepted(nfc: Nfc, l: Ledger, records: seq<TextageRecord>, ev: EvidenceId): seq<Acceptance> {
    if records == [] then []
    else
      var n := |records| - 1;
      var before := TextageFold(nfc, l, records[..n], ev);
      Accepted(nfc, l, records[..n], ev)
      + match TextageTarget(nfc, before.catalog.songs, records[n])
        case Err(_) => []
        case Ok(id) => [Acceptance(records[n], id)]
  }

  function Ids(records: seq<TextageRecord>): multiset<string> {
    if records == [] then multiset{} else Ids(records[..|records| - 1]) + multiset{records[|records| - 1].id}
  }

  function AcceptedIds(accepted: seq<Acceptance>): multiset<string> {
    if accepted == [] then multiset{}
    else AcceptedIds(accepted[..|accepted| - 1]) + multiset{accepted[|accepted| - 1].record.id}
  }

  function EntryKeys(entries: seq<Entry>): multiset<string> {
    if entries == [] then multiset{}
    else EntryKeys(entries[..|entries| - 1]) + multiset{entries[|entries| - 1].key}
  }

  // The entries for the records the fold sets aside.
  ghost function Aside(nfc: Nfc, l: Ledger, records: seq<TextageRecord>, ev: EvidenceId): seq<Entry> {
    if records == [] then []
    else
      var n := |records| - 1;
      var before := TextageFold(nfc, l, records[..n], ev);
      Aside(nfc, l, records[..n], ev)
      + match TextageTarget(nfc, before.catalog.songs, records[n])
        case Err(reason) => [Entry(Textage, records[n].id, reason)]
        case Ok(_) => []
  }

  lemma {:induction false} AsideIsQuarantined(nfc: Nfc, l: Ledger, records: seq<TextageRecord>, ev: EvidenceId)
    ensures TextageFold(nfc, l, records, ev).quarantine == l.quarantine + Aside(nfc, l, records, ev)
  {
    hide TextageTarget, MergedTextage;
    if records != [] {
      AsideIsQuarantined(nfc, l, records[..|records| - 1], ev);
    }
  }

  lemma AcceptedIdsPush(accepted: seq<Acceptance>, a: Acceptance)
    ensures AcceptedIds(accepted + [a]) == AcceptedIds(accepted) + multiset{a.record.id}
  {
    assert (accepted + [a])[..|accepted|] == accepted;
  }

  lemma EntryKeysPush(entries: seq<Entry>, e: Entry)
    ensures EntryKeys(entries + [e]) == EntryKeys(entries) + multiset{e.key}
  {
    assert (entries + [e])[..|entries|] == entries;
  }

  // What one more record adds to the two lists.
  lemma OneMoreRecord(nfc: Nfc, l: Ledger, records: seq<TextageRecord>, ev: EvidenceId)
    requires records != []
    ensures
      var n := |records| - 1;
      var target := TextageTarget(nfc, TextageFold(nfc, l, records[..n], ev).catalog.songs, records[n]);
      && Aside(nfc, l, records, ev) == Aside(nfc, l, records[..n], ev)
           + (if target.Ok? then [] else [Entry(Textage, records[n].id, target.error)])
      && Accepted(nfc, l, records, ev) == Accepted(nfc, l, records[..n], ev)
           + (if target.Ok? then [Acceptance(records[n], target.value)] else [])
  {
    hide TextageTarget, TextageFold;
  }

  lemma OneMoreKey(aside: multiset<string>, accepted: multiset<string>, all: multiset<string>, key: string)
    requires aside + accepted == all
    ensures (aside + multiset{key}) + accepted == all + multiset{key}
    ensures aside + (accepted + multiset{key}) == all + multiset{key}
  {
  }

  // Where the last record's id ends up.
  lemma LastRecordSettled(nfc: Nfc, l: Ledger, records: seq<TextageRecord>, ev: EvidenceId)
    requires records != []
    ensures
      var n := |records| - 1;
      var aside, accepted := Aside(nfc, l, records[..n], ev), Accepted(nfc, l, records[..n], ev);
      || (&& EntryKeys(Aside(nfc, l, records, ev)) == EntryKeys(aside) + multiset{records[n].id}
          && Accepted(nfc, l, records, ev) == accepted)
      || (&& AcceptedIds(Accepted(nfc, l, records, ev)) == AcceptedIds(accepted) + multiset{records[n].id}
          && Aside(nfc, l, records, ev) == aside)
  {
    OneMoreRecord(nfc, l, records, ev);
    hide TextageTarget, TextageFold, EntryKeys, AcceptedIds, Aside, Accepted;
    var n := |records| - 1;
    var target := TextageTarget(nfc, TextageFold(nfc, l, records[..n], ev).catalog.songs, records[n]);
    if target.Ok? {
      AcceptedIdsPush(Accepted(nfc, l, records[..n], ev), Acceptance(records[n], target.value));
    } else {
      EntryKeysPush(Aside(nfc, l, records[..n], ev), Entry(Textage, records[n].id, target.error));
    }
  }

  lemma {:induction false} IdsAreSettled(nfc: Nfc, l: Ledger, records: seq<TextageRecord>, ev: EvidenceId)
    ensures EntryKeys(Aside(nfc, l, records, ev)) + AcceptedIds(Accepted(nfc, l, records, ev)) == Ids(records)
  {
    hide EntryKeys, AcceptedIds, TextageFold, TextageTarget;
    if records == [] {
      EmptyKeys();
    } else {
      var n := |records| - 1;
      IdsAreSettled(nfc, l, records[..n], ev);
      LastRecordSettled(nfc, l, records, ev);
      var aside := EntryKeys(Aside(nfc, l, records[..n], ev));
      var accepted := AcceptedIds(Accepted(nfc, l, records[..n], ev));
      OneMoreKey(aside, accepted, Ids(records[..n]), records[n].id);
      hide Aside, Accepted;
    }
  }

  lemma {:induction false} AsideOrAccepted(nfc: Nfc, l: Ledger, records: seq<TextageRecord>, ev: EvidenceId)
    ensures |Aside(nfc, l, records, ev)| + |Accepted(nfc, l, records, ev)| == |records|
    ensures forall e | e in Aside(nfc, l, records, ev) :: e.source == Textage
  {
    hide TextageFold, TextageTarget;
    if records != [] {
      AsideOrAccepted(nfc, l, records[..|records| - 1], ev);
    }
  }

  lemma EmptyKeys()
    ensures EntryKeys([]) == multiset{} && AcceptedIds([]) == multiset{}
  {
  }

  lemma {:induction false} FoldTakes(nfc: Nfc, l: Ledger, records: seq<TextageRecord>, ev: EvidenceId, k: nat)
    requires ev.source == Textage && TextageRecordsOk(records)
    requires k < |Accepted(nfc, l, records, ev)|
    ensures
      var a := Accepted(nfc, l, records, ev)[k];
      var songs := TextageFold(nfc, l, records, ev).catalog.songs;
      a.record in records && a.song in songs && Took(songs[a.song], a.record)
  {
    hide TextageIdentity, MergedTextage, Took, ChartConflict, ChartRecordOk, CatalogText;
    var n := |records| - 1;
    var front, r := records[..n], records[n];
    var before := TextageFold(nfc, l, front, ev);
    var target := TextageTarget(nfc, before.catalog.songs, r);
    var earlier := Accepted(nfc, l, front, ev);
    assert r in records;
    if k < |earlier| {
      assert forall x | x in front :: x in records;
      FoldTakes(nfc, l, front, ev, k);
      var i :| 0 <= i < n && front[i] == earlier[k].record;
      assert records[i].id != r.id;
      if target.Ok? && target.value == earlier[k].song {
        TookStays(before.catalog.songs[target.value], earlier[k].record, r, ev);
      }
    } else {
      MergedTextageTakes(before.catalog.songs[target.value], r, ev);
    }
  }

  predicate AllTaken(songs: map<SongId, Song>, accepted: seq<Acceptance>, records: seq<TextageRecord>) {
    forall a | a in accepted :: a.record in records && a.song in songs && Took(songs[a.song], a.record)
  }

  /**
   * For an admitted snapshot, the records set aside and the accepted ones are together exactly its records, and every
   * accepted record is carried by the song it was accepted into when the snapshot is done.
   */
  lemma TextageIsAccountedFor(nfc: Nfc, l: Ledger, s: Snapshot)
    requires SnapshotRefusal(l.catalog, s, Textage).None?
    requires s.evidence.source == Textage && TextageRecordsOk(TextageRecords(s.observations))
    ensures
      var ev, records := IdOf(s.evidence), Sorted(TextageRecords(s.observations), TextageKeyOf);
      var aside, accepted := Aside(nfc, l, records, ev), Accepted(nfc, l, records, ev);
      var after := ApplyTextage(nfc, l, Some(s));
      && multiset(records) == multiset(TextageRecords(s.observations))
      && after.quarantine == l.quarantine + aside && (forall e | e in aside :: e.source == Textage)
      && |accepted| + |aside| == |TextageRecords(s.observations)|
      && AcceptedIds(accepted) + EntryKeys(aside) == Ids(records)
      && AllTaken(after.catalog.songs, accepted, records)
  {
    hide Took, TextageFold, TextageRecordsOk, Healthy, Accepted, Aside, Sorted;
    var records := Sorted(TextageRecords(s.observations), TextageKeyOf);
    var ev := IdOf(s.evidence);
    SortedTextage(TextageRecords(s.observations));
    assert |records| == |multiset(records)| == |TextageRecords(s.observations)|;
    AsideIsQuarantined(nfc, l, records, ev);
    AsideOrAccepted(nfc, l, records, ev);
    IdsAreSettled(nfc, l, records, ev);
    AllAreTaken(nfc, l, records, ev);
  }

  lemma AllAreTaken(nfc: Nfc, l: Ledger, records: seq<TextageRecord>, ev: EvidenceId)
    requires ev.source == Textage && TextageRecordsOk(records)
    ensures AllTaken(TextageFold(nfc, l, records, ev).catalog.songs, Accepted(nfc, l, records, ev), records)
  {
    hide Took, TextageFold, TextageRecordsOk, Accepted;
    var accepted := Accepted(nfc, l, records, ev);
    var songs := TextageFold(nfc, l, records, ev).catalog.songs;
    forall a | a in accepted ensures a.record in records && a.song in songs && Took(songs[a.song], a.record) {
      var k :| 0 <= k < |accepted| && accepted[k] == a;
      FoldTakes(nfc, l, records, ev, k);
    }
  }
}
