// What taking a record over adds to a song, part by part and member by member, and that it adds nothing else.
module FederationAdditions {
  import opened Common
  import opened Text
  import opened CatalogModel
  import opened Federation
  import opened FederationValid

  // ---------------------------------------------------------------- charts and assertions

  predicate DistinctKeys(charts: seq<ChartRecord>) {
    forall i, j | 0 <= i < j < |charts| :: charts[i].chart.key != charts[j].chart.key
  }

  predicate Lists(charts: seq<ChartRecord>, k: ChartKey) {
    exists x | x in charts :: x.chart.key == k
  }

  // The charts the song did not have are added as listed; those it had stay.
  ghost predicate ChartsAdded(before: Sheet, after: Sheet, charts: seq<ChartRecord>) {
    && (forall k :: k in after.charts <==> k in before.charts || Lists(charts, k))
    && (forall k | k in before.charts :: k in after.charts && after.charts[k] == before.charts[k])
    && (forall x | x in charts && x.chart.key !in before.charts ::
          x.chart.key in after.charts && after.charts[x.chart.key] == x.chart)
  }

  function AssertionsOf(sheet: Sheet, k: ChartKey): set<Assertion> {
    if k in sheet.assertions then sheet.assertions[k] else {}
  }

  // The same source has said the same of the chart already.
  ghost predicate SaidBefore(sheet: Sheet, x: ChartRecord, source: SourceId) {
    exists a :: a in AssertionsOf(sheet, x.chart.key) && a.evidence.source == source
                && a.chartId == x.chartId && a.versions == x.versions && a.primary == x.primary
  }

  // What the listed charts assert is added under the new evidence unless the source has said it before.
  ghost predicate AssertionsAdded(before: Sheet, after: Sheet, charts: seq<ChartRecord>, ev: EvidenceId) {
    && (forall k :: k in after.assertions <==> k in before.assertions || Lists(charts, k))
    && (forall k | !Lists(charts, k) :: AssertionsOf(after, k) == AssertionsOf(before, k))
    && (forall x | x in charts :: AssertionsOf(after, x.chart.key) == WithAssertion(before, x, ev))
  }

  ghost function WithAssertion(before: Sheet, x: ChartRecord, ev: EvidenceId): set<Assertion> {
    AssertionsOf(before, x.chart.key)
    + if SaidBefore(before, x, ev.source) then {} else {Assertion(x.chartId, x.versions, x.primary, ev)}
  }

  lemma ListsPush(front: seq<ChartRecord>, r: ChartRecord, k: ChartKey)
    ensures Lists(front + [r], k) <==> Lists(front, k) || k == r.chart.key
  {
    if Lists(front, k) {
      var x :| x in front && x.chart.key == k;
      assert x in front + [r];
    }
    if k == r.chart.key {
      assert r in front + [r];
    }
  }

  lemma ChartAdds(before: Sheet, sheet: Sheet, front: seq<ChartRecord>, r: ChartRecord, ev: EvidenceId)
    requires ChartsAdded(before, sheet, front)
    requires forall x | x in front :: x.chart.key != r.chart.key
    ensures ChartsAdded(before, WithChart(sheet, r, ev), front + [r])
  {
    forall k ensures Lists(front + [r], k) <==> Lists(front, k) || k == r.chart.key {
      ListsPush(front, r, k);
    }
    assert !Lists(front, r.chart.key);
    hide Lists, Asserted, AssertionOf;
  }

  lemma AssertionAdds(before: Sheet, sheet: Sheet, front: seq<ChartRecord>, r: ChartRecord, ev: EvidenceId)
    requires AssertionsAdded(before, sheet, front, ev)
    requires forall x | x in front :: x.chart.key != r.chart.key
    ensures AssertionsAdded(before, WithChart(sheet, r, ev), front + [r], ev)
  {
    var after, k := WithChart(sheet, r, ev), r.chart.key;
    forall j ensures Lists(front + [r], j) <==> Lists(front, j) || j == k {
      ListsPush(front, r, j);
    }
    assert !Lists(front, k);
    hide Lists;
    assert AssertionsOf(sheet, k) == AssertionsOf(before, k);
    SaidIsAsserted(sheet, before, r, ev.source);
    hide Asserted, SaidBefore;
    assert AssertionsOf(after, k) == WithAssertion(before, r, ev);
    assert forall j | j != k :: AssertionsOf(after, j) == AssertionsOf(sheet, j);
    hide WithAssertion, WithChart;
  }

  lemma SaidIsAsserted(sheet: Sheet, before: Sheet, r: ChartRecord, source: SourceId)
    requires AssertionsOf(sheet, r.chart.key) == AssertionsOf(before, r.chart.key)
    ensures Asserted(AssertionsOf(sheet, r.chart.key), r, source) <==> SaidBefore(before, r, source)
  {
  }

  lemma {:induction false} WithChartsAdds(sheet: Sheet, charts: seq<ChartRecord>, ev: EvidenceId)
    requires DistinctKeys(charts)
    ensures ChartsAdded(sheet, WithCharts(sheet, charts, ev), charts)
    ensures AssertionsAdded(sheet, WithCharts(sheet, charts, ev), charts, ev)
  {
    if charts != [] {
      var n := |charts| - 1;
      assert charts == charts[..n] + [charts[n]];
      WithChartsAdds(sheet, charts[..n], ev);
      hide ChartsAdded, AssertionsAdded;
      ChartAdds(sheet, WithCharts(sheet, charts[..n], ev), charts[..n], charts[n], ev);
      AssertionAdds(sheet, WithCharts(sheet, charts[..n], ev), charts[..n], charts[n], ev);
    }
  }

  // ---------------------------------------------------------------- titles and links

  ghost predicate TitledBefore(song: Song, source: SourceId, value: string, kind: TitleKind) {
    exists t :: t in song.titles && t.source == source && t.kind == kind && t.value == value
  }

  // Some evidence of the binding records these attributes already.
  ghost predicate RecordedBefore(links: Links, b: BindingKey, attributes: map<string, string>) {
    exists e :: b in links.evidence && e in links.evidence[b]
                && AttributeKey(b.source, b.key, e) in links.attributes
                && links.attributes[AttributeKey(b.source, b.key, e)] == attributes
  }

  // The attributes are recorded under the new evidence, unless some evidence records them already.
  ghost predicate AttributesAdded(before: Links, after: Links, b: BindingKey, attributes: map<string, string>,
                                  ev: EvidenceId) {
    if RecordedBefore(before, b, attributes) then
      after.evidence == before.evidence && after.attributes == before.attributes
    else
      && (forall other :: other in after.evidence <==> other in before.evidence || other == b)
      && (forall other | other in before.evidence && other != b :: after.evidence[other] == before.evidence[other])
      && (forall e :: e in after.evidence[b] <==> e == ev || (b in before.evidence && e in before.evidence[b]))
      && (forall k :: k in after.attributes <==> k in before.attributes || k == AttributeKey(b.source, b.key, ev))
      && (forall k | k in before.attributes && k != AttributeKey(b.source, b.key, ev) ::
            after.attributes[k] == before.attributes[k])
      && after.attributes[AttributeKey(b.source, b.key, ev)] == attributes
  }

  lemma AttributesAreAdded(links: Links, b: BindingKey, attributes: map<string, string>, ev: EvidenceId)
    ensures AttributesAdded(links, WithAttributes(links, b, attributes, ev), b, attributes, ev)
    ensures WithAttributes(links, b, attributes, ev).bindings == links.bindings
  {
    assert Attributed(links, b, attributes) <==> RecordedBefore(links, b, attributes);
  }

  function Flag(b: bool): string {
    if b then "true" else "false"
  }

  // ---------------------------------------------------------------- a Tachi record

  function PrimaryFlag(r: TachiRecord): map<string, string> {
    map["primary_infinitas" := Flag(r.primary)]
  }

  ghost predicate TachiAdded(before: Song, after: Song, r: TachiRecord, ev: EvidenceId) {
    && after == before.(titles := after.titles, sheet := after.sheet, links := after.links, primary := after.primary)
    && (after.primary <==> before.primary || r.primary)
    && (forall t :: t in after.titles <==>
          || t in before.titles
          || (t.source == Tachi && t.evidence == ev && TitleRecord(t.value, t.kind) in r.titles
              && !TitledBefore(before, Tachi, t.value, t.kind)))
    && ChartsAdded(before.sheet, after.sheet, r.charts) && AssertionsAdded(before.sheet, after.sheet, r.charts, ev)
    && after.links.bindings == before.links.bindings
    && AttributesAdded(before.links, after.links, BindingKey(Tachi, r.id), PrimaryFlag(r), ev)
  }

  // A song made of the record and nothing else.
  ghost predicate TachiNew(song: Song, r: TachiRecord, ev: EvidenceId) {
    && song.id == FromTachi(r.id) && song.tachiId == r.id && song.artist == r.artist && song.version == r.version
    && song.status == Unknown && song.primary == r.primary
    && (forall t :: t in song.titles <==>
          t.source == Tachi && t.evidence == ev && TitleRecord(t.value, t.kind) in r.titles)
    && ChartsAdded(Sheet(map[], map[]), song.sheet, r.charts)
    && AssertionsAdded(Sheet(map[], map[]), song.sheet, r.charts, ev)
    && song.links == Links(map[Tachi := {r.id}], map[BindingKey(Tachi, r.id) := {ev}],
                           map[AttributeKey(Tachi, r.id, ev) := PrimaryFlag(r)])
  }

  lemma TachiTitles(song: Song, titles: set<TitleRecord>, ev: EvidenceId, t: Title)
    ensures t in WithTachiTitles(song, titles, ev).titles <==>
              || t in song.titles
              || (t.source == Tachi && t.evidence == ev && TitleRecord(t.value, t.kind) in titles
                  && !TitledBefore(song, Tachi, t.value, t.kind))
  {
    assert Titled(song, Tachi, t.value, t.kind) <==> TitledBefore(song, Tachi, t.value, t.kind);
    if t.source == Tachi && t.evidence == ev && TitleRecord(t.value, t.kind) in titles {
      assert t == Title(TitleRecord(t.value, t.kind).value, Tachi, TitleRecord(t.value, t.kind).kind, ev);
    }
  }

  lemma MergedTachiAdds(song: Song, r: TachiRecord, ev: EvidenceId)
    requires DistinctKeys(r.charts)
    ensures TachiAdded(song, MergedTachi(song, r, ev), r, ev)
  {
    var after := MergedTachi(song, r, ev);
    WithChartsAdds(song.sheet, r.charts, ev);
    AttributesAreAdded(song.links, TachiKey(r), TachiAttributes(r), ev);
    hide WithCharts, WithAttributes, ChartsAdded, AssertionsAdded, AttributesAdded;
    forall t
      ensures t in after.titles <==>
                || t in song.titles
                || (t.source == Tachi && t.evidence == ev && TitleRecord(t.value, t.kind) in r.titles
                    && !TitledBefore(song, Tachi, t.value, t.kind))
    {
      TachiTitles(song, r.titles, ev, t);
    }
    hide WithTachiTitles, TitledBefore;
  }

  lemma NewSongIsTheRecord(r: TachiRecord, ev: EvidenceId)
    requires DistinctKeys(r.charts)
    ensures TachiNew(NewSong(r, ev), r, ev)
  {
    NewSheetIsListed(r, ev);
    hide ChartsAdded, AssertionsAdded, ChartAt, RecordAt, AssertionOf;
  }

  lemma ListedIsLast(charts: seq<ChartRecord>, x: ChartRecord)
    requires DistinctKeys(charts) && x in charts
    ensures Lists(charts, x.chart.key) && RecordAt(charts, x.chart.key) == x
  {
    var y := RecordAt(charts, x.chart.key);
    var i :| 0 <= i < |charts| && charts[i] == x;
    var j :| 0 <= j < |charts| && charts[j] == y;
    assert i == j;
  }

  lemma NewSheetIsListed(r: TachiRecord, ev: EvidenceId)
    requires DistinctKeys(r.charts)
    ensures ChartsAdded(Sheet(map[], map[]), NewSong(r, ev).sheet, r.charts)
    ensures AssertionsAdded(Sheet(map[], map[]), NewSong(r, ev).sheet, r.charts, ev)
  {
    var sheet := NewSong(r, ev).sheet;
    forall x | x in r.charts ensures Lists(r.charts, x.chart.key) && RecordAt(r.charts, x.chart.key) == x {
      ListedIsLast(r.charts, x);
    }
    forall k ensures (k in sheet.charts <==> Lists(r.charts, k)) && (k in sheet.assertions <==> Lists(r.charts, k)) {}
    forall x | x in r.charts
      ensures sheet.charts[x.chart.key] == x.chart && sheet.assertions[x.chart.key] == {AssertionOf(x, ev)}
    {
    }
    hide RecordAt, NewSong, Lists, ChartAt;
  }

  // ---------------------------------------------------------------- a Textage record

  function TextageFacts(r: TextageRecord): map<string, string> {
    map["infinitas_flag" := Flag(r.flag), "bpm_min" := Decimal(r.bpmMin), "bpm_max" := Decimal(r.bpmMax)]
  }

  ghost predicate TextageAdded(before: Song, after: Song, r: TextageRecord, ev: EvidenceId) {
    && after == before.(titles := after.titles, sheet := after.sheet, links := after.links)
    && (forall t :: t in after.titles <==>
          || t in before.titles
          || (t == Title(r.title, Textage, r.kind, ev) && !TitledBefore(before, Textage, r.title, r.kind)))
    && ChartsAdded(before.sheet, after.sheet, r.charts) && AssertionsAdded(before.sheet, after.sheet, r.charts, ev)
    && (forall source, key :: Binds(after.links, source, key) <==>
          Binds(before.links, source, key) || (source == Textage && key == r.id))
    && AttributesAdded(before.links, after.links, BindingKey(Textage, r.id), TextageFacts(r), ev)
  }

  lemma BindingAdded(links: Links, b: BindingKey, attributes: map<string, string>, ev: EvidenceId)
    ensures
      var after := WithAttributes(WithBinding(links, b), b, attributes, ev);
      && AttributesAdded(links, after, b, attributes, ev)
      && forall source, key :: Binds(after, source, key) <==>
           Binds(links, source, key) || (source == b.source && key == b.key)
  {
    var bound := WithBinding(links, b);
    AttributesAreAdded(bound, b, attributes, ev);
    hide WithAttributes, AttributesAdded;
    SameAttributesAdded(links, bound, WithAttributes(bound, b, attributes, ev), b, attributes, ev);
  }

  lemma TextageTitles(song: Song, r: TextageRecord, ev: EvidenceId, t: Title)
    ensures t in WithTitle(song, Textage, r.title, r.kind, ev).titles <==>
              || t in song.titles
              || (t == Title(r.title, Textage, r.kind, ev) && !TitledBefore(song, Textage, r.title, r.kind))
  {
    assert Titled(song, Textage, r.title, r.kind) <==> TitledBefore(song, Textage, r.title, r.kind);
  }

  lemma MergedTextageAdds(song: Song, r: TextageRecord, ev: EvidenceId)
    requires DistinctKeys(r.charts)
    ensures TextageAdded(song, MergedTextage(song, r, ev), r, ev)
  {
    assert TextageAttributes(r) == TextageFacts(r);
    hide WithCharts, WithAttributes, WithBinding, ChartsAdded, AssertionsAdded, AttributesAdded, TextageAttributes;
    hide TextageFacts, Binds, Titled, TitledBefore;
    WithChartsAdds(song.sheet, r.charts, ev);
    BindingAdded(song.links, TextageKey(r), TextageFacts(r), ev);
    forall t
      ensures t in MergedTextage(song, r, ev).titles <==>
                || t in song.titles
                || (t == Title(r.title, Textage, r.kind, ev) && !TitledBefore(song, Textage, r.title, r.kind))
    {
      TextageTitles(song, r, ev, t);
    }
  }

  // Binding the key first makes no difference to what the attributes add.
  lemma SameAttributesAdded(before: Links, bound: Links, after: Links, b: BindingKey, attributes: map<string, string>,
                            ev: EvidenceId)
    requires bound.evidence == before.evidence && bound.attributes == before.attributes
    requires AttributesAdded(bound, after, b, attributes, ev)
    ensures AttributesAdded(before, after, b, attributes, ev)
  {
    assert RecordedBefore(bound, b, attributes) <==> RecordedBefore(before, b, attributes);
  }
}
