// Reading back the written rows gives the catalog, exactly when the rows lose nothing.
module SnapshotRoundTrip {
  import opened Common
  import opened CatalogModel
  import opened SnapshotTables

  // ---------------------------------------------------------------- labels and keys

  lemma SourceLabels()
    ensures forall x :: ParseSource(SourceLabel(x)) == Some(x)
    ensures forall s | ParseSource(s).Some? :: SourceLabel(ParseSource(s).value) == s
  {
  }

  lemma ChartLabels()
    ensures forall x :: ParsePlay(PlayLabel(x)) == Some(x)
    ensures forall x :: ParseDifficulty(DifficultyLabel(x)) == Some(x)
    ensures forall s | ParsePlay(s).Some? :: PlayLabel(ParsePlay(s).value) == s
    ensures forall s | ParseDifficulty(s).Some? :: DifficultyLabel(ParseDifficulty(s).value) == s
  {
  }

  lemma OtherLabels()
    ensures forall x :: ParseLineage(LineageLabel(x)) == Some(x)
    ensures forall x :: ParseStrategy(StrategyLabel(x)) == Some(x)
    ensures forall x :: ParseKind(KindLabel(x)) == Some(x)
    ensures forall x :: ParseStatus(StatusLabel(x)) == Some(x)
  {
  }

  // An evidence id whose parts have the form its source prescribes.
  predicate KeyOk(e: EvidenceId) {
    IsLowerHex(e.revision, RevisionLength(e.source)) && IsLowerHex(e.sha, 64)
  }

  lemma {:induction false} SplitAt(a: string, b: string, c: char)
    requires c !in a
    ensures SplitOnce(a + [c] + b, c) == Some((a, b))
  {
    if a == [] {
      assert ([] + [c] + b)[1..] == b;
    } else {
      SplitAt(a[1..], b, c);
      assert (a + [c] + b)[1..] == a[1..] + [c] + b;
      assert [a[0]] + a[1..] == a;
    }
  }

  lemma EvidenceKeyParses(e: EvidenceId)
    requires KeyOk(e)
    ensures ParseEvidenceKey(e.source, EvidenceKey(e)) == Some(e)
    ensures ParseEvidenceOf(SourceLabel(e.source), EvidenceKey(e)) == Some(e)
  {
    SourceLabels();
    SplitAt(e.revision, e.sha, ':');
  }

  lemma SameEvidenceKey(e: EvidenceId, f: EvidenceId)
    requires KeyOk(e) && KeyOk(f) && e.source == f.source && EvidenceKey(e) == EvidenceKey(f)
    ensures e == f
  {
    EvidenceKeyParses(e);
    EvidenceKeyParses(f);
  }

  // ---------------------------------------------------------------- which catalogs

  predicate ConsistentSong(id: SongId, song: Song) {
    && song.id == id
    && (forall t | t in song.titles :: t.evidence.source == t.source && KeyOk(t.evidence))
    && (forall k | k in song.sheet.charts ::
          && song.sheet.charts[k].key == k
          && song.sheet.charts[k].level <= U8_MAX && song.sheet.charts[k].notes <= U32_MAX)
    && (forall k | k in song.sheet.assertions :: forall a | a in song.sheet.assertions[k] :: KeyOk(a.evidence))
    && (forall b | b in song.links.evidence ::
          forall e | e in song.links.evidence[b] :: e.source == b.source && KeyOk(e))
    && (forall k | k in song.links.attributes :: k.evidence.source == k.source && KeyOk(k.evidence))
  }

  predicate ConsistentEvidence(c: Catalog) {
    && (forall id | id in c.evidence :: IdOf(c.evidence[id]) == id && c.evidence[id].policy.source == id.source)
    && (forall s | s in c.latest :: c.latest[s].source == s)
  }

  predicate ConsistentPacks(packs: map<EvidenceId, set<Option<string>>>) {
    forall e | e in packs ::
      && e.source.Dqn? && KeyOk(e)
      && forall p | p in packs[e] :: p.Some? ==> p.value != []
  }

  // The fields that hold the same fact twice agree, and numbers fit their columns.
  predicate Consistent(c: Catalog) {
    && ConsistentEvidence(c)
    && (forall id | id in c.songs :: ConsistentSong(id, c.songs[id]))
    && (forall name | name in c.dqn :: ConsistentPacks(c.dqn[name].packs))
  }

  // The parts that only exist through their rows have some.
  predicate NoEmptyParts(song: Song) {
    && (forall k | k in song.sheet.assertions :: song.sheet.assertions[k] != {})
    && NoEmptyLinks(song.links)
  }

  predicate NoEmptyLinks(links: Links) {
    && (forall s | s in links.bindings :: links.bindings[s] != {})
    && (forall b | b in links.evidence :: links.evidence[b] != {})
    && (forall k | k in links.attributes :: links.attributes[k] != map[])
  }

  predicate NoEmptyPacks(b: DqnBinding) {
    forall e | e in b.packs :: b.packs[e] != {}
  }

  predicate Full(c: Catalog) {
    && (forall id | id in c.songs :: NoEmptyParts(c.songs[id]))
    && (forall name | name in c.dqn :: NoEmptyPacks(c.dqn[name]))
  }

  // ---------------------------------------------------------------- evidence

  lemma ColsParse(id: EvidenceId)
    ensures ParseCols(ColsOf(id)) == Some(id)
  {
    SourceLabels();
  }

  lemma EvidenceTableHas(c: Catalog, k: EvidenceCols)
    requires ConsistentEvidence(c)
    ensures k in EvidenceTable(c) <==> exists id :: id in c.evidence && k == ColsOf(id)
    ensures k in EvidenceTable(c) ==>
              && ParseCols(k).Some? && ParseCols(k).value in c.evidence && ColsOf(ParseCols(k).value) == k
              && EvidenceTable(c)[k] == EvidenceRowOf(c.evidence[ParseCols(k).value])
  {
    forall id | id in c.evidence ensures ParseCols(ColsOf(IdOf(c.evidence[id]))) == Some(id) {
      ColsParse(id);
    }
    hide ParseCols, ColsOf, EvidenceRowOf, IdOf;
    if id :| id in c.evidence && k == ColsOf(id) {
      assert ColsOf(IdOf(c.evidence[id])) == k;
    }
  }

  lemma AuthorityReads(c: Catalog, id: EvidenceId)
    requires ConsistentEvidence(c) && id in c.evidence
    ensures AuthorityOf(AuthorityTable(c), ColsOf(id)) == c.evidence[id].policy.authority
  {
    var t := AuthorityTable(c);
    forall f | f in c.evidence[id].policy.authority ensures f in AuthorityOf(t, ColsOf(id)) {
      assert AuthorityRow(ColsOf(IdOf(c.evidence[id])), f) in t;
    }
    forall f | f in AuthorityOf(t, ColsOf(id)) ensures f in c.evidence[id].policy.authority {
      var other :| other in c.evidence && f in c.evidence[other].policy.authority
        && ColsOf(IdOf(c.evidence[other])) == ColsOf(id);
      ColsParse(other);
      ColsParse(id);
    }
  }

  lemma EvidenceRowParses(k: EvidenceCols, e: Evidence)
    requires k == ColsOf(IdOf(e)) && e.policy.source == e.source
    ensures ParseEvidence(k, EvidenceRowOf(e), e.policy.authority) == Some(e)
  {
    SourceLabels();
    OtherLabels();
  }

  lemma EvidenceReads(c: Catalog)
    requires ConsistentEvidence(c)
    ensures
      var t := EvidenceTables(EvidenceTable(c), AuthorityTable(c), LatestTable(c));
      (forall k | k in t.evidence :: EvidenceAt(t, k).Some?)
      && forall id | id in c.evidence :: ColsOf(id) in t.evidence && EvidenceAt(t, ColsOf(id)) == Some(c.evidence[id])
  {
    var t := EvidenceTables(EvidenceTable(c), AuthorityTable(c), LatestTable(c));
    hide EvidenceTable, AuthorityTable, LatestTable, ParseEvidence, EvidenceRowOf, ParseCols, ColsOf;
    forall id | id in c.evidence
      ensures ColsOf(id) in t.evidence && EvidenceAt(t, ColsOf(id)) == Some(c.evidence[id])
    {
      EvidenceTableHas(c, ColsOf(id));
      ColsParse(id);
      AuthorityReads(c, id);
      EvidenceRowParses(ColsOf(id), c.evidence[id]);
    }
    forall k | k in t.evidence ensures EvidenceAt(t, k).Some? {
      EvidenceTableHas(c, k);
    }
  }

  lemma LatestTableHas(c: Catalog, x: SourceId)
    ensures SourceLabel(x) in LatestTable(c) <==> x in c.latest
    ensures x in c.latest ==> LatestTable(c)[SourceLabel(x)] == LatestRowOf(c.latest[x])
  {
    SourceLabels();
    hide ParseSource, SourceLabel, LatestRowOf;
  }

  lemma LatestReads(c: Catalog)
    requires ConsistentEvidence(c)
    ensures ReadLatest(LatestTable(c)) == c.latest
    ensures forall s | s in LatestTable(c) :: ParseSource(s).Some?
  {
    SourceLabels();
    var read := ReadLatest(LatestTable(c));
    hide ParseSource, SourceLabel;
    forall x ensures x in read <==> x in c.latest
      ensures x in c.latest ==> SourceLabel(x) in LatestTable(c)
      ensures x in c.latest ==> LatestTable(c)[SourceLabel(x)] == LatestRowOf(c.latest[x])
    {
      LatestTableHas(c, x);
    }
    hide LatestTable;
    assert read.Keys == c.latest.Keys;
    forall x | x in read ensures read[x] == c.latest[x] {
      assert c.latest[x].source == x;
    }
  }

  // The evidence read from rows that hold exactly the entries of `m`.
  lemma ReadEvidenceIs(t: EvidenceTables, m: map<EvidenceId, Evidence>)
    requires EvidenceReadable(t)
    requires forall id | id in m :: ColsOf(id) in t.evidence && EvidenceAt(t, ColsOf(id)) == Some(m[id])
    requires forall k | k in t.evidence :: ParseCols(k).Some? ==> ParseCols(k).value in m
    ensures ReadEvidence(t) == m
  {
    hide EvidenceAt, EvidenceReadable, ColsOf, ParseCols;
    var read := ReadEvidence(t);
    forall id | id in m ensures id in read {
      ColsParse(id);
    }
    assert forall id | id in read :: id in m;
    assert read.Keys == m.Keys;
    assert forall id | id in read :: read[id] == m[id];
  }

  lemma EvidenceRowsRead(c: Catalog)
    requires ConsistentEvidence(c)
    ensures EvidenceReadable(Rows(c).evidence)
    ensures ReadEvidence(Rows(c).evidence) == c.evidence
  {
    hide EvidenceAt, EvidenceTable, AuthorityTable, LatestTable, ParseSource, ColsOf, ConsistentEvidence, ParseCols;
    LatestReads(c);
    EvidenceReads(c);
    forall k | k in EvidenceTable(c) ensures ParseCols(k).Some? ==> ParseCols(k).value in c.evidence {
      EvidenceTableHas(c, k);
    }
    ReadEvidenceIs(Rows(c).evidence, c.evidence);
  }

  // ---------------------------------------------------------------- titles and charts

  lemma TitleParses(id: SongId, t: Title)
    requires t.evidence.source == t.source && KeyOk(t.evidence)
    ensures ParseTitle(TitleRowOf(id, t)) == Some(t)
  {
    OtherLabels();
    EvidenceKeyParses(t.evidence);
  }

  lemma TitlesRead(c: Catalog, id: SongId)
    requires Consistent(c) && id in c.songs
    ensures ReadTitles(TitleTable(c), id) == c.songs[id].titles
  {
    hide ConsistentEvidence, ConsistentPacks, KeyOk, ParseTitle;
    var t := TitleTable(c);
    assert ConsistentSong(id, c.songs[id]);
    forall x | x in c.songs[id].titles ensures x in ReadTitles(t, id) {
      TitleParses(id, x);
      assert TitleRowOf(id, x) in t;
    }
    forall x | x in ReadTitles(t, id) ensures x in c.songs[id].titles {
      var r :| r in t && r.song == id && ParseTitle(r) == Some(x);
      var y :| y in c.songs[id].titles && r == TitleRowOf(id, y);
      TitleParses(id, y);
    }
  }

  lemma TitleRowsReadable(c: Catalog)
    requires Consistent(c)
    ensures TitlesReadable(TitleTable(c), c.songs.Keys)
  {
    hide ConsistentEvidence, ConsistentPacks, KeyOk, ParseTitle;
    forall r | r in TitleTable(c) ensures r.song in c.songs && ParseTitle(r).Some? {
      var id, t :| id in c.songs && t in c.songs[id].titles && r == TitleRowOf(id, t);
      assert ConsistentSong(id, c.songs[id]);
      TitleParses(id, t);
    }
  }

  lemma ChartKeyParses(id: SongId, k: ChartKey)
    ensures ParseChartKey(ChartColsOf(id, k)) == Some(k)
  {
    ChartLabels();
  }

  lemma ChartColsParse(x: ChartCols)
    requires ParseChartKey(x).Some?
    ensures ChartColsOf(x.song, ParseChartKey(x).value) == x
  {
    ChartLabels();
  }

  lemma ChartTableHas(c: Catalog, id: SongId, k: ChartKey)
    ensures ChartColsOf(id, k) in ChartTable(c) <==> id in c.songs && k in c.songs[id].sheet.charts
    ensures ChartColsOf(id, k) in ChartTable(c) ==>
              ChartTable(c)[ChartColsOf(id, k)] == ChartRowOf(c.songs[id].sheet.charts[k])
  {
    ChartKeyParses(id, k);
    hide ParseChartKey, ChartRowOf;
  }

  lemma ChartsRead(c: Catalog, id: SongId)
    requires Consistent(c) && id in c.songs
    ensures ReadCharts(ChartTable(c), id) == c.songs[id].sheet.charts
  {
    hide ConsistentEvidence, ConsistentPacks, KeyOk, ParseChartKey, ChartTable;
    assert ConsistentSong(id, c.songs[id]);
    var read := ReadCharts(ChartTable(c), id);
    forall k ensures k in read <==> k in c.songs[id].sheet.charts {
      ChartKeyParses(id, k);
      ChartTableHas(c, id, k);
    }
    assert read.Keys == c.songs[id].sheet.charts.Keys;
    forall k | k in read ensures read[k] == c.songs[id].sheet.charts[k] {
      ChartTableHas(c, id, k);
    }
  }

  lemma ChartRowsReadable(c: Catalog)
    requires Consistent(c)
    ensures ChartsReadable(ChartTable(c), c.songs.Keys)
  {
    hide ConsistentEvidence, ConsistentPacks, KeyOk, ParseChartKey;
    forall x | x in ChartTable(c) ensures x.song in c.songs && ParseChartKey(x).Some?
      ensures ChartTable(c)[x].level <= U8_MAX && ChartTable(c)[x].notes <= U32_MAX
    {
      assert ConsistentSong(x.song, c.songs[x.song]);
    }
  }

  // ---------------------------------------------------------------- assertions

  lemma AssertionColsMatch(id: SongId, k: ChartKey, a: Assertion, other: SongId, j: ChartKey, b: Assertion)
    requires KeyOk(a.evidence) && KeyOk(b.evidence)
    ensures AssertionColsOf(id, k, a) == AssertionColsOf(other, j, b) <==>
              id == other && k == j && a.evidence == b.evidence && a.chartId == b.chartId
  {
    ChartKeyParses(id, k);
    ChartKeyParses(other, j);
    SourceLabels();
    if AssertionColsOf(id, k, a) == AssertionColsOf(other, j, b) {
      SameEvidenceKey(a.evidence, b.evidence);
    }
  }

  predicate Asserts(c: Catalog, id: SongId, k: ChartKey, a: Assertion) {
    id in c.songs && k in c.songs[id].sheet.assertions && a in c.songs[id].sheet.assertions[k]
  }

  lemma AssertedKeyOk(c: Catalog, id: SongId, k: ChartKey, a: Assertion)
    requires Consistent(c) && Asserts(c, id, k, a)
    ensures KeyOk(a.evidence)
  {
    hide ConsistentEvidence, ConsistentPacks, KeyOk;
    assert ConsistentSong(id, c.songs[id]);
  }

  // Without a clash the row's columns determine the assertion.
  lemma RowDetermines(c: Catalog, id: SongId, k: ChartKey, a: Assertion, other: SongId, j: ChartKey, b: Assertion)
    requires Consistent(c) && !Clash(c) && Asserts(c, id, k, a) && Asserts(c, other, j, b)
    requires AssertionColsOf(id, k, a) == AssertionColsOf(other, j, b)
    ensures id == other && k == j && a == b
  {
    hide Consistent, KeyOk, AssertionColsOf;
    AssertedKeyOk(c, id, k, a);
    AssertedKeyOk(c, other, j, b);
    AssertionColsMatch(id, k, a, other, j, b);
    assert a != b ==> Clashes(a, b);
  }

  lemma AssertionReads(c: Catalog, id: SongId, k: ChartKey, a: Assertion)
    requires Consistent(c) && !Clash(c) && Asserts(c, id, k, a)
    ensures
      var x := AssertionColsOf(id, k, a);
      && x in AssertionTable(c) && ParseChartKey(x.chart) == Some(k)
      && ParseEvidenceOf(x.source, x.digest) == Some(a.evidence)
      && ReadAssertion(AssertionTable(c), ProductTable(c), x) == a
  {
    hide Consistent, Clash, KeyOk;
    var x := AssertionColsOf(id, k, a);
    AssertedKeyOk(c, id, k, a);
    EvidenceKeyParses(a.evidence);
    ChartKeyParses(id, k);
    assert x in AssertionRows(c);
    hide ParseEvidenceOf, ParseChartKey;
    VersionsRead(c, id, k, a);
    PrimaryRead(c, id, k, a);
  }

  lemma VersionsRead(c: Catalog, id: SongId, k: ChartKey, a: Assertion)
    requires Consistent(c) && !Clash(c) && Asserts(c, id, k, a)
    ensures VersionsOf(ProductTable(c), AssertionColsOf(id, k, a)) == a.versions
  {
    hide Consistent, Clash, AssertionColsOf;
    var x := AssertionColsOf(id, k, a);
    var t := ProductTable(c);
    forall v | v in a.versions ensures v in VersionsOf(t, x) {
      assert ProductRow(x, v) in t;
    }
    forall v | v in VersionsOf(t, x) ensures v in a.versions {
      assert ProductRow(x, v) in t;
      var other, j, b, w :| other in c.songs && j in c.songs[other].sheet.assertions
        && b in c.songs[other].sheet.assertions[j] && w in b.versions
        && ProductRow(x, v) == ProductRow(AssertionColsOf(other, j, b), w);
      assert Asserts(c, other, j, b);
      RowDetermines(c, id, k, a, other, j, b);
    }
  }

  lemma PrimaryRead(c: Catalog, id: SongId, k: ChartKey, a: Assertion)
    requires Consistent(c) && !Clash(c) && Asserts(c, id, k, a)
    ensures PrimaryAt(c, AssertionColsOf(id, k, a)) <==> a.primary
  {
    hide Consistent, Clash;
    var x := AssertionColsOf(id, k, a);
    var all := c.songs[id].sheet.assertions;
    forall j, b | j in all && b in all[j] && AssertionColsOf(id, j, b) == x ensures b == a {
      assert Asserts(c, id, j, b);
      RowDetermines(c, id, k, a, id, j, b);
    }
  }

  lemma AssertionTableHas(c: Catalog, x: AssertionCols)
    ensures x in AssertionTable(c) <==> exists id, k, a :: Asserts(c, id, k, a) && x == AssertionColsOf(id, k, a)
  {
    hide AssertionColsOf, PrimaryAt;
    if x in AssertionTable(c) {
      var id, k, a :| id in c.songs && k in c.songs[id].sheet.assertions
        && a in c.songs[id].sheet.assertions[k] && x == AssertionColsOf(id, k, a);
      assert Asserts(c, id, k, a);
    }
  }

  // A chart's assertions come back; a chart with an empty set of them does not.
  lemma AssertionsReadAt(c: Catalog, id: SongId, k: ChartKey)
    requires Consistent(c) && !Clash(c) && id in c.songs
    ensures k in AssertedKeys(AssertionTable(c), id) <==>
              k in c.songs[id].sheet.assertions && c.songs[id].sheet.assertions[k] != {}
    ensures k in c.songs[id].sheet.assertions ==>
              AssertionsAt(AssertionTable(c), ProductTable(c), ChartColsOf(id, k)) == c.songs[id].sheet.assertions[k]
  {
    hide Consistent, Clash, AssertionTable, ProductTable, ParseEvidenceOf, ParseChartKey, ReadAssertion;
    var t, products := AssertionTable(c), ProductTable(c);
    if k in AssertedKeys(t, id) {
      var x :| x in t && x.chart.song == id && ParseChartKey(x.chart) == Some(k);
      AssertionTableHas(c, x);
      var other, j, a :| Asserts(c, other, j, a) && x == AssertionColsOf(other, j, a);
      AssertionReads(c, other, j, a);
      assert a in c.songs[id].sheet.assertions[k];
    }
    if k in c.songs[id].sheet.assertions {
      var all := c.songs[id].sheet.assertions[k];
      forall a | a in all
        ensures k in AssertedKeys(t, id) && a in AssertionsAt(t, products, ChartColsOf(id, k))
      {
        assert Asserts(c, id, k, a);
        AssertionReads(c, id, k, a);
        assert AssertionColsOf(id, k, a) in t;
      }
      forall a | a in AssertionsAt(t, products, ChartColsOf(id, k)) ensures a in all {
        var x :| x in t && x.chart == ChartColsOf(id, k) && ParseEvidenceOf(x.source, x.digest).Some?
          && a == ReadAssertion(t, products, x);
        AssertionTableHas(c, x);
        var other, j, b :| Asserts(c, other, j, b) && x == AssertionColsOf(other, j, b);
        AssertionReads(c, other, j, b);
        ChartKeyParses(id, k);
        ChartKeyParses(other, j);
      }
    }
  }

  lemma AssertionRowsReadable(c: Catalog)
    requires Consistent(c) && !Clash(c)
    ensures AssertionsReadable(AssertionTable(c), c.songs.Keys)
  {
    hide Consistent, Clash, AssertionTable, ParseEvidenceOf, ParseChartKey, ReadAssertion, ProductTable;
    forall x | x in AssertionTable(c)
      ensures x.chart.song in c.songs && ParseChartKey(x.chart).Some? && ParseEvidenceOf(x.source, x.digest).Some?
    {
      AssertionTableHas(c, x);
      var id, k, a :| Asserts(c, id, k, a) && x == AssertionColsOf(id, k, a);
      AssertionReads(c, id, k, a);
    }
  }

  // The assertions come back exactly when none of the sets is empty.
  lemma AssertionsRead(c: Catalog, id: SongId)
    requires Consistent(c) && !Clash(c) && id in c.songs
    ensures ReadAssertions(AssertionTable(c), ProductTable(c), id) == c.songs[id].sheet.assertions <==>
              forall k | k in c.songs[id].sheet.assertions :: c.songs[id].sheet.assertions[k] != {}
  {
    hide Consistent, Clash, AssertionTable, ProductTable, AssertionsAt, AssertedKeys;
    var read, all := ReadAssertions(AssertionTable(c), ProductTable(c), id), c.songs[id].sheet.assertions;
    forall k
      ensures k in read <==> k in all && all[k] != {}
      ensures k in read ==> read[k] == all[k]
    {
      AssertionsReadAt(c, id, k);
    }
    if forall k | k in all :: all[k] != {} {
      assert read.Keys == all.Keys;
    }
  }

  // ---------------------------------------------------------------- bindings

  lemma BindingTableHas(c: Catalog, id: SongId, s: SourceId, key: string)
    ensures BindingRowOf(id, s, key) in BindingTable(c) <==> id in c.songs && Binds(c.songs[id].links, s, key)
  {
    SourceLabels();
    hide ParseSource, SourceLabel;
  }

  lemma BindingRowShape(c: Catalog, r: BindingRow)
    requires r in BindingTable(c)
    ensures r.song in c.songs && ParseSource(r.source).Some?
    ensures r == BindingRowOf(r.song, ParseSource(r.source).value, r.key)
  {
    SourceLabels();
    hide ParseSource, SourceLabel;
  }

  // A source's bindings come back exactly when there are some.
  lemma BindingsReadAt(c: Catalog, id: SongId, s: SourceId)
    requires id in c.songs
    ensures s in BoundSources(BindingTable(c), id) <==> Bound(c.songs[id].links, s)
    ensures Bound(c.songs[id].links, s) ==> KeysAt(BindingTable(c), id, s) == c.songs[id].links.bindings[s]
  {
    SourceLabels();
    hide ParseSource, SourceLabel, BindingTable;
    var t, links := BindingTable(c), c.songs[id].links;
    if s in BoundSources(t, id) {
      var r :| r in t && r.song == id && ParseSource(r.source) == Some(s);
      BindingRowShape(c, r);
      BindingTableHas(c, id, s, r.key);
    }
    if Bound(links, s) {
      forall key | key in links.bindings[s] ensures s in BoundSources(t, id) && key in KeysAt(t, id, s) {
        BindingTableHas(c, id, s, key);
        assert BindingRowOf(id, s, key).source == SourceLabel(s);
      }
      var some :| some in links.bindings[s];
      forall key | key in KeysAt(t, id, s) ensures key in links.bindings[s] {
        var r :| r in t && r.song == id && r.source == SourceLabel(s) && r.key == key;
        BindingRowShape(c, r);
        BindingTableHas(c, id, s, key);
      }
    }
  }

  lemma BindingsRead(c: Catalog, id: SongId)
    requires id in c.songs
    ensures ReadBindings(BindingTable(c), id) == c.songs[id].links.bindings <==>
              forall s | s in c.songs[id].links.bindings :: c.songs[id].links.bindings[s] != {}
  {
    hide BindingTable, BoundSources, KeysAt;
    var read, all := ReadBindings(BindingTable(c), id), c.songs[id].links.bindings;
    forall s
      ensures s in read <==> s in all && all[s] != {}
      ensures s in read ==> read[s] == all[s]
    {
      BindingsReadAt(c, id, s);
    }
    if forall s | s in all :: all[s] != {} {
      assert read.Keys == all.Keys;
    }
  }

  // ---------------------------------------------------------------- binding evidence

  predicate Evidences(c: Catalog, id: SongId, b: BindingKey, e: EvidenceId) {
    id in c.songs && b in c.songs[id].links.evidence && e in c.songs[id].links.evidence[b]
  }

  lemma BindingEvidenceParses(c: Catalog, id: SongId, b: BindingKey, e: EvidenceId)
    requires Consistent(c) && Evidences(c, id, b, e)
    ensures
      var r := BindingEvidenceRowOf(id, b, e);
      && ParseSource(r.binding.source) == Some(b.source) && BindingKeyOf(r.binding) == b
      && ParseEvidenceOf(r.binding.source, r.digest) == Some(e)
  {
    hide ConsistentEvidence, ConsistentPacks, KeyOk;
    assert ConsistentSong(id, c.songs[id]);
    SourceLabels();
    EvidenceKeyParses(e);
  }

  lemma BindingEvidenceTableHas(c: Catalog, r: BindingEvidenceRow)
    ensures r in BindingEvidenceTable(c) <==>
              exists id, b, e :: Evidences(c, id, b, e) && r == BindingEvidenceRowOf(id, b, e)
  {
    hide BindingEvidenceRowOf;
    if r in BindingEvidenceTable(c) {
      var id, b, e :| id in c.songs && b in c.songs[id].links.evidence && e in c.songs[id].links.evidence[b]
        && r == BindingEvidenceRowOf(id, b, e);
      assert Evidences(c, id, b, e);
    }
  }

  lemma BindingEvidenceReadAt(c: Catalog, id: SongId, b: BindingKey)
    requires Consistent(c) && id in c.songs
    ensures b in EvidencedKeys(BindingEvidenceTable(c), id) <==>
              b in c.songs[id].links.evidence && c.songs[id].links.evidence[b] != {}
    ensures b in c.songs[id].links.evidence ==>
              EvidencesAt(BindingEvidenceTable(c), BindingRowOf(id, b.source, b.key)) == c.songs[id].links.evidence[b]
  {
    hide Consistent, BindingEvidenceTable, ParseEvidenceOf, ParseSource, SourceLabel, EvidenceKey;
    var t := BindingEvidenceTable(c);
    if b in EvidencedKeys(t, id) {
      var r :| r in t && r.binding.song == id && ParseSource(r.binding.source).Some? && BindingKeyOf(r.binding) == b;
      BindingEvidenceTableHas(c, r);
      var other, x, e :| Evidences(c, other, x, e) && r == BindingEvidenceRowOf(other, x, e);
      BindingEvidenceParses(c, other, x, e);
      assert e in c.songs[id].links.evidence[b];
    }
    if b in c.songs[id].links.evidence {
      var all := c.songs[id].links.evidence[b];
      var row := BindingRowOf(id, b.source, b.key);
      forall e | e in all ensures b in EvidencedKeys(t, id) && e in EvidencesAt(t, row) {
        assert Evidences(c, id, b, e);
        BindingEvidenceParses(c, id, b, e);
        BindingEvidenceTableHas(c, BindingEvidenceRowOf(id, b, e));
        assert BindingEvidenceRowOf(id, b, e).binding == row;
      }
      forall e | e in EvidencesAt(t, row) ensures e in all {
        var r :| r in t && r.binding == row && ParseEvidenceOf(r.binding.source, r.digest) == Some(e);
        BindingEvidenceTableHas(c, r);
        var other, x, f :| Evidences(c, other, x, f) && r == BindingEvidenceRowOf(other, x, f);
        BindingEvidenceParses(c, other, x, f);
        SourceLabels();
      }
    }
  }

  lemma BindingEvidenceRead(c: Catalog, id: SongId)
    requires Consistent(c) && id in c.songs
    ensures ReadBindingEvidence(BindingEvidenceTable(c), id) == c.songs[id].links.evidence <==>
              forall b | b in c.songs[id].links.evidence :: c.songs[id].links.evidence[b] != {}
  {
    hide Consistent, BindingEvidenceTable, EvidencedKeys, EvidencesAt;
    var read, all := ReadBindingEvidence(BindingEvidenceTable(c), id), c.songs[id].links.evidence;
    forall b
      ensures b in read <==> b in all && all[b] != {}
      ensures b in read ==> read[b] == all[b]
    {
      BindingEvidenceReadAt(c, id, b);
    }
    if forall b | b in all :: all[b] != {} {
      assert read.Keys == all.Keys;
    }
  }

  // ---------------------------------------------------------------- binding attributes

  predicate Attributes(c: Catalog, id: SongId, k: AttributeKey, name: string) {
    id in c.songs && k in c.songs[id].links.attributes && name in c.songs[id].links.attributes[k]
  }

  lemma AttributeParses(c: Catalog, id: SongId, k: AttributeKey, name: string)
    requires Consistent(c) && id in c.songs && k in c.songs[id].links.attributes
    ensures
      var r := AttributeColsOf(id, k, name).of;
      ParseEvidenceOf(r.binding.source, r.digest) == Some(k.evidence) && AttributeKeyOf(r) == k
  {
    hide ConsistentEvidence, ConsistentPacks, KeyOk;
    assert ConsistentSong(id, c.songs[id]);
    EvidenceKeyParses(k.evidence);
  }

  lemma AttributeTableHas(c: Catalog, x: AttributeCols)
    requires Consistent(c)
    ensures x in AttributeTable(c) <==>
              exists id, k, name :: Attributes(c, id, k, name) && x == AttributeColsOf(id, k, name)
    ensures x in AttributeTable(c) ==>
              AttributeWritten(c, x)
              && AttributeTable(c)[x] == c.songs[x.of.binding.song].links.attributes[AttributeKeyOf(x.of)][x.name]
  {
    hide Consistent, AttributeKeyOf, ParseEvidenceOf;
    if x in AttributeTable(c) {
      var id, k, name :| id in c.songs && k in c.songs[id].links.attributes && name in c.songs[id].links.attributes[k]
        && x == AttributeColsOf(id, k, name);
      assert Attributes(c, id, k, name);
    }
    if id, k, name :| Attributes(c, id, k, name) && x == AttributeColsOf(id, k, name) {
      AttributeParses(c, id, k, name);
      assert AttributeWritten(c, x);
    }
  }

  lemma AttributesReadAt(c: Catalog, id: SongId, k: AttributeKey)
    requires Consistent(c) && id in c.songs
    ensures k in AttributeKeys(AttributeTable(c), id) <==>
              k in c.songs[id].links.attributes && c.songs[id].links.attributes[k] != map[]
    ensures k in c.songs[id].links.attributes ==>
              AttributesAt(AttributeTable(c), id, k) == c.songs[id].links.attributes[k]
  {
    hide Consistent, AttributeTable, ParseEvidenceOf, AttributeWritten, AttributeKeyOf;
    var t := AttributeTable(c);
    if k in AttributeKeys(t, id) {
      var x :| x in t && x.of.binding.song == id && ParseEvidenceOf(x.of.binding.source, x.of.digest).Some?
        && AttributeKeyOf(x.of) == k;
      AttributeTableHas(c, x);
      var other, j, name :| Attributes(c, other, j, name) && x == AttributeColsOf(other, j, name);
      AttributeParses(c, other, j, name);
      assert name in c.songs[id].links.attributes[k];
    }
    if k in c.songs[id].links.attributes {
      AttributesReadBack(c, id, k);
    }
  }

  lemma AttributesReadBack(c: Catalog, id: SongId, k: AttributeKey)
    requires Consistent(c) && id in c.songs && k in c.songs[id].links.attributes
    ensures AttributesAt(AttributeTable(c), id, k) == c.songs[id].links.attributes[k]
    ensures c.songs[id].links.attributes[k] != map[] ==> k in AttributeKeys(AttributeTable(c), id)
  {
    hide Consistent, AttributeTable, ParseEvidenceOf, AttributeKeyOf;
    var t, all := AttributeTable(c), c.songs[id].links.attributes[k];
    var read := AttributesAt(t, id, k);
    forall name
      ensures name in read <==> name in all
      ensures name in read ==> read[name] == all[name]
      ensures name in all ==> k in AttributeKeys(t, id)
    {
      var x := AttributeColsOf(id, k, name);
      AttributeTableHas(c, x);
      AttributeParses(c, id, k, name);
      if name in all {
        assert Attributes(c, id, k, name);
        assert x in t;
      }
      if name in read {
        var other, j, n :| Attributes(c, other, j, n) && x == AttributeColsOf(other, j, n);
        AttributeParses(c, other, j, n);
      }
    }
    assert read.Keys == all.Keys;
    if all != map[] {
      var name :| name in all;
    }
  }

  lemma AttributesRead(c: Catalog, id: SongId)
    requires Consistent(c) && id in c.songs
    ensures ReadAttributes(AttributeTable(c), id) == c.songs[id].links.attributes <==>
              forall k | k in c.songs[id].links.attributes :: c.songs[id].links.attributes[k] != map[]
  {
    hide Consistent, AttributeTable, AttributeKeys, AttributesAt;
    var read, all := ReadAttributes(AttributeTable(c), id), c.songs[id].links.attributes;
    forall k
      ensures k in read <==> k in all && all[k] != map[]
      ensures k in read ==> read[k] == all[k]
    {
      AttributesReadAt(c, id, k);
    }
    if forall k | k in all :: all[k] != map[] {
      assert read.Keys == all.Keys;
    }
  }

  lemma LinkRowsReadable(c: Catalog)
    requires Consistent(c)
    ensures LinksReadable(Rows(c).links, c.songs.Keys)
  {
    hide Consistent, BindingTable, BindingEvidenceTable, AttributeTable, ParseEvidenceOf, ParseSource;
    forall r | r in BindingTable(c) ensures r.song in c.songs && ParseSource(r.source).Some? {
      BindingRowShape(c, r);
    }
    forall r | r in BindingEvidenceTable(c)
      ensures r.binding.song in c.songs && ParseEvidenceOf(r.binding.source, r.digest).Some?
    {
      BindingEvidenceTableHas(c, r);
      var id, b, e :| Evidences(c, id, b, e) && r == BindingEvidenceRowOf(id, b, e);
      BindingEvidenceParses(c, id, b, e);
    }
    forall x | x in AttributeTable(c)
      ensures x.of.binding.song in c.songs && ParseEvidenceOf(x.of.binding.source, x.of.digest).Some?
    {
      AttributeTableHas(c, x);
    }
  }

  // ---------------------------------------------------------------- dqn

  predicate Packs(c: Catalog, name: TitleArtist, e: EvidenceId, pack: Option<string>) {
    name in c.dqn && e in c.dqn[name].packs && pack in c.dqn[name].packs[e]
  }

  lemma PackParses(c: Catalog, name: TitleArtist, e: EvidenceId, pack: Option<string>)
    requires Consistent(c) && Packs(c, name, e, pack)
    ensures ParsePack(DqnRowOf(name, e, pack)) == Some(pack)
    ensures ParseEvidenceKey(Dqn, EvidenceKey(e)) == Some(e)
  {
    hide ConsistentEvidence, ConsistentSong, KeyOk;
    assert ConsistentPacks(c.dqn[name].packs);
    EvidenceKeyParses(e);
  }

  lemma DqnTableHas(c: Catalog, r: DqnRow)
    ensures r in DqnEvidenceTable(c) <==>
              exists name, e, pack :: Packs(c, name, e, pack) && r == DqnRowOf(name, e, pack)
  {
    hide DqnRowOf;
    if r in DqnEvidenceTable(c) {
      var name, e, pack :| name in c.dqn && e in c.dqn[name].packs && pack in c.dqn[name].packs[e]
        && r == DqnRowOf(name, e, pack);
      assert Packs(c, name, e, pack);
    }
  }

  lemma PacksReadAt(c: Catalog, name: TitleArtist, e: EvidenceId)
    requires Consistent(c) && name in c.dqn
    ensures e in PackedEvidence(DqnEvidenceTable(c), name) <==> e in c.dqn[name].packs && c.dqn[name].packs[e] != {}
    ensures e in c.dqn[name].packs ==>
              PacksAt(DqnEvidenceTable(c), name, EvidenceKey(e)) == c.dqn[name].packs[e]
  {
    hide ConsistentEvidence, ConsistentSong, DqnEvidenceTable, ParseEvidenceKey, ParsePack, EvidenceKey, KeyOk;
    var t := DqnEvidenceTable(c);
    if e in PackedEvidence(t, name) {
      var r :| r in t && r.name == name && ParseEvidenceKey(Dqn, r.digest) == Some(e);
      DqnTableHas(c, r);
      var n, f, pack :| Packs(c, n, f, pack) && r == DqnRowOf(n, f, pack);
      PackParses(c, n, f, pack);
    }
    if e in c.dqn[name].packs {
      var all := c.dqn[name].packs[e];
      assert ConsistentPacks(c.dqn[name].packs);
      forall pack | pack in all
        ensures e in PackedEvidence(t, name) && pack in PacksAt(t, name, EvidenceKey(e))
      {
        assert Packs(c, name, e, pack);
        PackParses(c, name, e, pack);
        DqnTableHas(c, DqnRowOf(name, e, pack));
        assert DqnRowOf(name, e, pack).digest == EvidenceKey(e);
      }
      forall pack | pack in PacksAt(t, name, EvidenceKey(e)) ensures pack in all {
        var r :| r in t && r.name == name && r.digest == EvidenceKey(e) && ParsePack(r) == Some(pack);
        DqnTableHas(c, r);
        var n, f, p :| Packs(c, n, f, p) && r == DqnRowOf(n, f, p);
        PackParses(c, n, f, p);
        SameEvidenceKey(e, f);
      }
    }
  }

  lemma PacksRead(c: Catalog, name: TitleArtist)
    requires Consistent(c) && name in c.dqn
    ensures ReadPacks(DqnEvidenceTable(c), name) == c.dqn[name].packs <==> NoEmptyPacks(c.dqn[name])
  {
    hide Consistent, DqnEvidenceTable, PackedEvidence, PacksAt;
    var read, all := ReadPacks(DqnEvidenceTable(c), name), c.dqn[name].packs;
    forall e
      ensures e in read <==> e in all && all[e] != {}
      ensures e in read ==> read[e] == all[e]
    {
      PacksReadAt(c, name, e);
    }
    if NoEmptyPacks(c.dqn[name]) {
      assert read.Keys == all.Keys;
    }
  }

  lemma DqnRowsReadable(c: Catalog)
    requires Consistent(c)
    ensures DqnReadable(Rows(c).dqn)
  {
    hide Consistent, DqnEvidenceTable, ParseEvidenceKey, ParsePack;
    forall r | r in DqnEvidenceTable(c) ensures ParseEvidenceKey(Dqn, r.digest).Some? && ParsePack(r).Some? {
      DqnTableHas(c, r);
      var n, f, p :| Packs(c, n, f, p) && r == DqnRowOf(n, f, p);
      PackParses(c, n, f, p);
    }
  }

  // ---------------------------------------------------------------- the whole catalog

  lemma SongRowParses(c: Catalog, id: SongId)
    ensures id in SongTable(c) <==> id in c.songs
    ensures id in c.songs ==> ParseStatus(SongTable(c)[id].status) == Some(c.songs[id].status)
  {
    OtherLabels();
    hide ParseStatus, StatusLabel;
  }

  lemma SongsAreReadable(c: Catalog)
    requires Consistent(c) && !Clash(c)
    ensures SongsReadable(Rows(c).songs) && Rows(c).songs.songs.Keys == c.songs.Keys
  {
    hide Consistent, Clash, TitlesReadable, ChartsReadable, AssertionsReadable, SongTable, TitleTable, ChartTable;
    hide AssertionTable, ParseStatus;
    forall id ensures id in SongTable(c) <==> id in c.songs
      ensures id in c.songs ==> ParseStatus(SongTable(c)[id].status).Some?
    {
      SongRowParses(c, id);
    }
    assert SongTable(c).Keys == c.songs.Keys;
    TitleRowsReadable(c);
    ChartRowsReadable(c);
    AssertionRowsReadable(c);
  }

  lemma LinksRead(c: Catalog, id: SongId)
    requires Consistent(c) && id in c.songs
    ensures
      var read := Links(ReadBindings(BindingTable(c), id), ReadBindingEvidence(BindingEvidenceTable(c), id),
                        ReadAttributes(AttributeTable(c), id));
      read == c.songs[id].links <==> NoEmptyLinks(c.songs[id].links)
  {
    hide Consistent, BindingTable, BindingEvidenceTable, AttributeTable, ReadBindings, ReadBindingEvidence;
    hide ReadAttributes;
    BindingsRead(c, id);
    BindingEvidenceRead(c, id);
    AttributesRead(c, id);
  }

  lemma SheetReads(c: Catalog, id: SongId)
    requires Consistent(c) && !Clash(c) && id in c.songs
    ensures
      var sheet := c.songs[id].sheet;
      Sheet(ReadCharts(ChartTable(c), id), ReadAssertions(AssertionTable(c), ProductTable(c), id)) == sheet <==>
        forall k | k in sheet.assertions :: sheet.assertions[k] != {}
  {
    hide Consistent, Clash, ChartTable, AssertionTable, ProductTable, ReadCharts, ReadAssertions;
    ChartsRead(c, id);
    AssertionsRead(c, id);
  }

  // A song comes back exactly when none of its parts is empty.
  lemma SongReads(c: Catalog, id: SongId)
    requires Consistent(c) && !Clash(c) && id in c.songs
    ensures id in Rows(c).songs.songs && ParseStatus(Rows(c).songs.songs[id].status).Some?
    ensures ReadSong(Rows(c), id) == c.songs[id] <==> NoEmptyParts(c.songs[id])
  {
    SongRowParses(c, id);
    LinksRead(c, id);
    SheetReads(c, id);
    TitlesRead(c, id);
    assert c.songs[id].id == id by { assert ConsistentSong(id, c.songs[id]); }
    hide Consistent, Clash, ReadTitles, ReadCharts, ReadAssertions, ReadBindings, ReadBindingEvidence;
    hide ReadAttributes, ChartTable, TitleTable, AssertionTable, ProductTable, BindingTable, BindingEvidenceTable;
    hide AttributeTable, ParseStatus, StatusLabel;
  }

  lemma SongsRead(c: Catalog)
    requires Consistent(c) && !Clash(c) && SongsReadable(Rows(c).songs) && Rows(c).songs.songs.Keys == c.songs.Keys
    ensures ReadSongs(Rows(c)) == c.songs <==> forall id | id in c.songs :: NoEmptyParts(c.songs[id])
  {
    hide Consistent, Clash, ReadSong, NoEmptyParts, Rows, TitlesReadable, ChartsReadable, AssertionsReadable;
    var read := ReadSongs(Rows(c));
    forall id | id in c.songs ensures read[id] == c.songs[id] <==> NoEmptyParts(c.songs[id]) {
      SongReads(c, id);
    }
    assert read.Keys == c.songs.Keys;
  }

  lemma DqnRead(c: Catalog)
    requires Consistent(c)
    ensures ReadDqn(Rows(c).dqn) == c.dqn <==> forall name | name in c.dqn :: NoEmptyPacks(c.dqn[name])
  {
    DqnTablesAre(c);
    hide Consistent, Rows, ReadPacks, NoEmptyPacks, DqnEvidenceTable;
    var read := ReadDqn(Rows(c).dqn);
    forall name | name in c.dqn
      ensures name in read && (read[name] == c.dqn[name] <==> NoEmptyPacks(c.dqn[name]))
    {
      PacksRead(c, name);
    }
    assert read.Keys == c.dqn.Keys;
  }

  lemma DqnTablesAre(c: Catalog)
    ensures Rows(c).dqn == DqnTables(DqnTable(c), DqnEvidenceTable(c))
  {
  }

  /** For a catalog whose rows do not clash, reading the written rows succeeds, and gives the catalog back exactly when
      no part that exists only through its rows is empty. */
  lemma RoundTripExactly(c: Catalog)
    requires Consistent(c) && !Clash(c)
    ensures Read(Rows(c)).Some?
    ensures Read(Rows(c)) == Some(c) <==> Full(c)
  {
    hide Clash, ConsistentSong, ConsistentPacks, ReadSongs, ReadDqn, ReadEvidence, ReadLatest, NoEmptyParts;
    hide NoEmptyPacks, EvidenceReadable, SongsReadable, LinksReadable, DqnReadable, ConsistentEvidence, Rows;
    var t := Rows(c);
    EvidenceRowsRead(c);
    LatestRowsAre(c);
    LatestReads(c);
    SongsAreReadable(c);
    LinkRowsReadable(c);
    DqnRowsReadable(c);
    StatusesParse(t.songs);
    SongsRead(c);
    DqnRead(c);
  }

  lemma LatestRowsAre(c: Catalog)
    ensures Rows(c).evidence.latest == LatestTable(c)
  {
  }

  lemma StatusesParse(t: SongTables)
    requires SongsReadable(t)
    ensures forall id | id in t.songs :: ParseStatus(t.songs[id].status).Some?
  {
  }
}
