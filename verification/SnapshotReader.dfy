// The reader's loops: a catalog is filled row by row, and the first malformed row ends the read.
module SnapshotReader {
  import opened Common
  import opened CatalogModel
  import opened CatalogValidation
  import opened SnapshotTables
  import opened SnapshotRoundTrip
  import opened SnapshotStore

  // ---------------------------------------------------------------- what was parsed is what was written

  lemma {:induction false} SplitJoins(s: string, c: char)
    requires SplitOnce(s, c).Some?
    ensures SplitOnce(s, c).value.0 + [c] + SplitOnce(s, c).value.1 == s
  {
    if s[0] == c {
      assert "" + [c] + s[1..] == s;
    } else {
      SplitJoins(s[1..], c);
      var (before, after) := SplitOnce(s[1..], c).value;
      assert [s[0]] + before + [c] + after == [s[0]] + (before + [c] + after);
    }
  }

  lemma DigestParses(source: string, digest: string)
    requires ParseEvidenceOf(source, digest).Some?
    ensures
      var e := ParseEvidenceOf(source, digest).value;
      SourceLabel(e.source) == source && EvidenceKey(e) == digest
  {
    SourceLabels();
    SplitJoins(digest, ':');
  }

  // ---------------------------------------------------------------- what one row adds

  lemma OneMoreDone<T>(all: set<T>, rest: set<T>, x: T)
    requires x in rest && rest <= all
    ensures all - (rest - {x}) == (all - rest) + {x} && x !in all - rest
  {
  }

  // A map of sets with one more element under a key.
  function Added<K, V>(m: map<K, set<V>>, k: K, v: V): map<K, set<V>> {
    m[k := (if k in m then m[k] else {}) + {v}]
  }

  lemma TitleStep(done: set<TitleRow>, r: TitleRow, id: SongId)
    requires ParseTitle(r).Some?
    ensures ReadTitles(done + {r}, id) == ReadTitles(done, id) + if r.song == id then {ParseTitle(r).value} else {}
  {
    hide ParseTitle;
  }

  lemma ChartStep(done: map<ChartCols, ChartRow>, x: ChartCols, row: ChartRow, id: SongId)
    requires x !in done && ParseChartKey(x).Some?
    ensures
      var key := ParseChartKey(x).value;
      ReadCharts(done[x := row], id)
      == if x.song == id then ReadCharts(done, id)[key := Chart(key, row.level, row.notes)] else ReadCharts(done, id)
  {
    ChartColsParse(x);
    forall k: ChartKey ensures ParseChartKey(ChartColsOf(id, k)) == Some(k) {
      ChartKeyParses(id, k);
    }
    hide ParseChartKey;
    var before, after := ReadCharts(done, id), ReadCharts(done[x := row], id);
    forall k
      ensures k in after <==> k in before || (x.song == id && k == ParseChartKey(x).value)
      ensures k in before ==> ChartColsOf(id, k) != x
    {
      if k in before {
        assert ChartColsOf(id, k) in done;
      }
      if ChartColsOf(id, k) in done {
        assert ParseChartKey(ChartColsOf(id, k)) == Some(k);
      }
    }
  }

  lemma AssertedKeysStep(done: map<AssertionCols, bool>, x: AssertionCols, primary: bool, id: SongId)
    requires ParseChartKey(x.chart).Some?
    ensures AssertedKeys(done[x := primary], id)
            == AssertedKeys(done, id) + if x.chart.song == id then {ParseChartKey(x.chart).value} else {}
  {
    hide ParseChartKey;
  }

  lemma AssertionsAtStep(done: map<AssertionCols, bool>, products: set<ProductRow>, x: AssertionCols, primary: bool,
                         chart: ChartCols)
    requires x !in done && ParseEvidenceOf(x.source, x.digest).Some?
    ensures AssertionsAt(done[x := primary], products, chart)
            == AssertionsAt(done, products, chart)
               + if x.chart == chart then {ReadAssertion(done[x := primary], products, x)} else {}
  {
    hide ParseEvidenceOf, VersionsOf;
    var after := done[x := primary];
    forall y | y in done && ParseEvidenceOf(y.source, y.digest).Some?
      ensures ReadAssertion(after, products, y) == ReadAssertion(done, products, y)
    {
    }
    hide ReadAssertion;
    forall a | a in AssertionsAt(after, products, chart)
      ensures a in AssertionsAt(done, products, chart)
              || (x.chart == chart && a == ReadAssertion(after, products, x))
    {
    }
    forall a | a in AssertionsAt(done, products, chart) ensures a in AssertionsAt(after, products, chart) {
      var y :| y in done && y.chart == chart && ParseEvidenceOf(y.source, y.digest).Some?
               && a == ReadAssertion(done, products, y);
      assert y in after;
    }
  }

  lemma AddedIs<K, V>(before: map<K, set<V>>, after: map<K, set<V>>, k: K, v: V)
    requires after.Keys == before.Keys + {k}
    requires forall j | j in before && j != k :: after[j] == before[j]
    requires after[k] == (if k in before then before[k] else {}) + {v}
    ensures after == Added(before, k, v)
  {
  }

  lemma UnassertedIsEmpty(done: map<AssertionCols, bool>, products: set<ProductRow>, id: SongId, k: ChartKey)
    requires k !in AssertedKeys(done, id)
    ensures AssertionsAt(done, products, ChartColsOf(id, k)) == {}
  {
    ChartKeyParses(id, k);
    hide ParseChartKey, ReadAssertion, ParseEvidenceOf, ChartColsOf;
    assert ChartColsOf(id, k).song == id by { ColsKeepSong(id, k); }
  }

  lemma ColsKeepSong(id: SongId, k: ChartKey)
    ensures ChartColsOf(id, k).song == id
  {
  }

  // The assertions of one chart, before and after the row.
  lemma AssertionsOfKey(done: map<AssertionCols, bool>, products: set<ProductRow>, x: AssertionCols, primary: bool,
                        id: SongId, k: ChartKey)
    requires x !in done && ParseChartKey(x.chart).Some? && ParseEvidenceOf(x.source, x.digest).Some?
    ensures AssertionsAt(done[x := primary], products, ChartColsOf(id, k))
            == AssertionsAt(done, products, ChartColsOf(id, k))
               + if x.chart.song == id && k == ParseChartKey(x.chart).value
                 then {ReadAssertion(done[x := primary], products, x)} else {}
  {
    AssertionsAtStep(done, products, x, primary, ChartColsOf(id, k));
    ChartColsParse(x.chart);
    ChartKeyParses(id, k);
    ColsKeepSong(id, k);
    hide ParseChartKey, ReadAssertion, ParseEvidenceOf, AssertionsAt, ChartColsOf;
  }

  lemma AssertionStep(done: map<AssertionCols, bool>, products: set<ProductRow>, x: AssertionCols, primary: bool,
                      id: SongId)
    requires x !in done && ParseChartKey(x.chart).Some? && ParseEvidenceOf(x.source, x.digest).Some?
    ensures
      var before, after := ReadAssertions(done, products, id), ReadAssertions(done[x := primary], products, id);
      after == if x.chart.song == id
               then Added(before, ParseChartKey(x.chart).value, ReadAssertion(done[x := primary], products, x))
               else before
  {
    hide AssertedKeys, AssertionsAt, ReadAssertion, ParseChartKey, ParseEvidenceOf, ChartColsOf, Added;
    AssertedKeysStep(done, x, primary, id);
    var key := ParseChartKey(x.chart).value;
    var before, after := ReadAssertions(done, products, id), ReadAssertions(done[x := primary], products, id);
    forall k | k in after
      ensures after[k]
              == AssertionsAt(done, products, ChartColsOf(id, k))
                 + if x.chart.song == id && k == key then {ReadAssertion(done[x := primary], products, x)} else {}
    {
      AssertionsOfKey(done, products, x, primary, id, k);
    }
    if x.chart.song == id {
      if key !in before {
        UnassertedIsEmpty(done, products, id, key);
      }
      AddedIs(before, after, key, ReadAssertion(done[x := primary], products, x));
    } else {
      assert after.Keys == before.Keys;
      assert forall k | k in after :: after[k] == before[k];
    }
  }

  lemma KeysAtStep(done: set<BindingRow>, r: BindingRow, id: SongId, s: SourceId)
    requires ParseSource(r.source).Some?
    ensures KeysAt(done + {r}, id, s)
            == KeysAt(done, id, s) + if r.song == id && s == ParseSource(r.source).value then {r.key} else {}
    ensures s !in BoundSources(done, id) ==> KeysAt(done, id, s) == {}
  {
    SourceLabels();
    hide ParseSource, SourceLabel;
  }

  lemma BindingStep(done: set<BindingRow>, r: BindingRow, id: SongId)
    requires ParseSource(r.source).Some?
    ensures
      var before, after := ReadBindings(done, id), ReadBindings(done + {r}, id);
      after == if r.song == id then Added(before, ParseSource(r.source).value, r.key) else before
  {
    hide ParseSource, KeysAt, Added;
    var source := ParseSource(r.source).value;
    var before, after := ReadBindings(done, id), ReadBindings(done + {r}, id);
    assert BoundSources(done + {r}, id) == BoundSources(done, id) + if r.song == id then {source} else {};
    hide BoundSources;
    forall s | s in after
      ensures after[s] == KeysAt(done, id, s) + if r.song == id && s == source then {r.key} else {}
    {
      KeysAtStep(done, r, id, s);
    }
    if r.song == id {
      KeysAtStep(done, r, id, source);
      AddedIs(before, after, source, r.key);
    } else {
      assert after.Keys == before.Keys;
      assert forall k | k in after :: after[k] == before[k];
    }
  }

  lemma EvidencesAtStep(done: set<BindingEvidenceRow>, r: BindingEvidenceRow, id: SongId, b: BindingKey)
    requires ParseEvidenceOf(r.binding.source, r.digest).Some? && ParseSource(r.binding.source).Some?
    ensures EvidencesAt(done + {r}, BindingRowOf(id, b.source, b.key))
            == EvidencesAt(done, BindingRowOf(id, b.source, b.key))
               + if r.binding.song == id && b == BindingKeyOf(r.binding)
                 then {ParseEvidenceOf(r.binding.source, r.digest).value} else {}
    ensures b !in EvidencedKeys(done, id) ==> EvidencesAt(done, BindingRowOf(id, b.source, b.key)) == {}
  {
    SourceLabels();
    hide ParseSource, SourceLabel, ParseEvidenceOf;
  }

  lemma EvidenceStep(done: set<BindingEvidenceRow>, r: BindingEvidenceRow, id: SongId)
    requires ParseEvidenceOf(r.binding.source, r.digest).Some? && ParseSource(r.binding.source).Some?
    ensures
      var before, after := ReadBindingEvidence(done, id), ReadBindingEvidence(done + {r}, id);
      after == if r.binding.song == id
               then Added(before, BindingKeyOf(r.binding), ParseEvidenceOf(r.binding.source, r.digest).value)
               else before
  {
    hide ParseEvidenceOf, ParseSource, EvidencesAt, BindingRowOf, BindingKeyOf, Added;
    var key, e := BindingKeyOf(r.binding), ParseEvidenceOf(r.binding.source, r.digest).value;
    var before, after := ReadBindingEvidence(done, id), ReadBindingEvidence(done + {r}, id);
    assert EvidencedKeys(done + {r}, id) == EvidencedKeys(done, id) + if r.binding.song == id then {key} else {};
    hide EvidencedKeys;
    forall b | b in after
      ensures after[b]
              == EvidencesAt(done, BindingRowOf(id, b.source, b.key))
                 + if r.binding.song == id && b == key then {e} else {}
    {
      EvidencesAtStep(done, r, id, b);
    }
    if r.binding.song == id {
      EvidencesAtStep(done, r, id, key);
      AddedIs(before, after, key, e);
    } else {
      assert after.Keys == before.Keys;
      assert forall k | k in after :: after[k] == before[k];
    }
  }

  lemma ColsOfAttribute(x: AttributeCols)
    requires ParseEvidenceOf(x.of.binding.source, x.of.digest).Some?
    ensures AttributeColsOf(x.of.binding.song, AttributeKeyOf(x.of), x.name) == x
  {
    DigestParses(x.of.binding.source, x.of.digest);
  }

  // A key that some row has is written back to the columns of its rows.
  lemma KeyOfCols(id: SongId, k: AttributeKey, name: string)
    requires KeyOk(k.evidence) && k.evidence.source == k.source
    ensures
      var x := AttributeColsOf(id, k, name);
      ParseEvidenceOf(x.of.binding.source, x.of.digest).Some? && AttributeKeyOf(x.of) == k
      && x.of.binding.song == id && x.name == name
  {
    EvidenceKeyParses(k.evidence);
  }

  lemma ParsedKeyOk(x: AttributeCols)
    requires ParseEvidenceOf(x.of.binding.source, x.of.digest).Some?
    ensures KeyOk(AttributeKeyOf(x.of).evidence) && AttributeKeyOf(x.of).evidence.source == AttributeKeyOf(x.of).source
  {
  }

  lemma SameCols(x: AttributeCols, id: SongId, k: AttributeKey, name: string)
    requires ParseEvidenceOf(x.of.binding.source, x.of.digest).Some?
    requires KeyOk(k.evidence) && k.evidence.source == k.source
    ensures AttributeColsOf(id, k, name) == x <==>
              x.of.binding.song == id && k == AttributeKeyOf(x.of) && name == x.name
    ensures AttributeColsOf(id, k, name).name == name
  {
    ColsOfAttribute(x);
    KeyOfCols(id, k, name);
  }

  lemma AttributesHave(m: map<AttributeCols, string>, id: SongId, k: AttributeKey, name: string)
    ensures name in AttributesAt(m, id, k) <==> AttributeColsOf(id, k, name) in m
    ensures name in AttributesAt(m, id, k) ==> AttributesAt(m, id, k)[name] == m[AttributeColsOf(id, k, name)]
  {
    assert AttributeColsOf(id, k, name).name == name;
  }

  lemma AttributesAtStep(done: map<AttributeCols, string>, x: AttributeCols, text: string, id: SongId, k: AttributeKey)
    requires x !in done && ParseEvidenceOf(x.of.binding.source, x.of.digest).Some?
    requires KeyOk(k.evidence) && k.evidence.source == k.source
    ensures AttributesAt(done[x := text], id, k)
            == if x.of.binding.song == id && k == AttributeKeyOf(x.of) then AttributesAt(done, id, k)[x.name := text]
               else AttributesAt(done, id, k)
  {
    hide AttributeColsOf, AttributeKeyOf, ParseEvidenceOf, KeyOk, AttributesAt;
    var before, after := AttributesAt(done, id, k), AttributesAt(done[x := text], id, k);
    var own := x.of.binding.song == id && k == AttributeKeyOf(x.of);
    forall name
      ensures name in after <==> name in before || (own && name == x.name)
      ensures name in after ==> after[name] == if own && name == x.name then text else before[name]
    {
      SameCols(x, id, k, name);
      AttributesHave(done, id, k, name);
      AttributesHave(done[x := text], id, k, name);
    }
  }

  lemma NoAttributesYet(done: map<AttributeCols, string>, id: SongId, k: AttributeKey)
    requires k !in AttributeKeys(done, id) && KeyOk(k.evidence) && k.evidence.source == k.source
    ensures AttributesAt(done, id, k) == map[]
  {
    forall name ensures AttributeColsOf(id, k, name) !in done {
      KeyOfCols(id, k, name);
      assert AttributeColsOf(id, k, name) in done ==> k in AttributeKeys(done, id);
    }
  }

  lemma AttributeStep(done: map<AttributeCols, string>, x: AttributeCols, text: string, id: SongId)
    requires x !in done && ParseEvidenceOf(x.of.binding.source, x.of.digest).Some?
    requires forall y | y in done :: ParseEvidenceOf(y.of.binding.source, y.of.digest).Some?
    ensures
      var before, after := ReadAttributes(done, id), ReadAttributes(done[x := text], id);
      after == if x.of.binding.song == id then Attributed(before, AttributeKeyOf(x.of), x.name, text) else before
  {
    hide ParseEvidenceOf, AttributeKeyOf, AttributesAt, KeyOk;
    var key, song := AttributeKeyOf(x.of), x.of.binding.song;
    var before, after := ReadAttributes(done, id), ReadAttributes(done[x := text], id);
    assert AttributeKeys(done[x := text], id) == AttributeKeys(done, id) + if song == id then {key} else {};
    forall k | k in after
      ensures after[k]
              == if song == id && k == key then AttributesAt(done, id, k)[x.name := text] else AttributesAt(done, id, k)
    {
      var y :| y in done[x := text] && AttributeKeyOf(y.of) == k;
      ParsedKeyOk(y);
      AttributesAtStep(done, x, text, id, k);
    }
    if key !in before {
      ParsedKeyOk(x);
      NoAttributesYet(done, id, key);
    }
    hide AttributeKeys;
  }

  lemma KeyParses(source: SourceId, digest: string)
    requires ParseEvidenceKey(source, digest).Some?
    ensures
      var e := ParseEvidenceKey(source, digest).value;
      EvidenceKey(e) == digest && e.source == source && KeyOk(e)
  {
    SplitJoins(digest, ':');
  }

  lemma PacksAtStep(done: set<DqnRow>, r: DqnRow, name: TitleArtist, e: EvidenceId)
    requires r.name == name && ParseEvidenceKey(Dqn, r.digest).Some? && ParsePack(r).Some?
    requires KeyOk(e) && e.source == Dqn
    ensures PacksAt(done + {r}, name, EvidenceKey(e))
            == PacksAt(done, name, EvidenceKey(e))
               + if e == ParseEvidenceKey(Dqn, r.digest).value then {ParsePack(r).value} else {}
    ensures e !in PackedEvidence(done, name) ==> PacksAt(done, name, EvidenceKey(e)) == {}
  {
    KeyParses(Dqn, r.digest);
    EvidenceKeyParses(e);
    hide ParseEvidenceKey, EvidenceKey, ParsePack, KeyOk;
  }

  lemma PackStep(done: set<DqnRow>, r: DqnRow, name: TitleArtist)
    requires r.name == name && ParseEvidenceKey(Dqn, r.digest).Some? && ParsePack(r).Some?
    ensures ReadPacks(done + {r}, name)
            == Added(ReadPacks(done, name), ParseEvidenceKey(Dqn, r.digest).value, ParsePack(r).value)
  {
    hide PacksAt, ParsePack, Added, EvidenceKey, ParseEvidenceKey, KeyOk;
    var e := ParseEvidenceKey(Dqn, r.digest).value;
    var before, after := ReadPacks(done, name), ReadPacks(done + {r}, name);
    assert PackedEvidence(done + {r}, name) == PackedEvidence(done, name) + {e};
    forall f | f in after
      ensures after[f]
              == PacksAt(done, name, EvidenceKey(f)) + if f == e then {ParsePack(r).value} else {}
      ensures f !in before ==> PacksAt(done, name, EvidenceKey(f)) == {}
    {
      var y :| y in done + {r} && y.name == name && ParseEvidenceKey(Dqn, y.digest) == Some(f);
      KeyParses(Dqn, y.digest);
      PacksAtStep(done, r, name, f);
    }
    hide PackedEvidence;
    AddedIs(before, after, e, ParsePack(r).value);
  }

  // `SELECT ... WHERE title = ?1 AND artist = ?2`.
  function RowsOf(rows: set<DqnRow>, name: TitleArtist): set<DqnRow> {
    set r | r in rows && r.name == name
  }

  lemma OnlyItsRows(rows: set<DqnRow>, name: TitleArtist)
    ensures ReadPacks(RowsOf(rows, name), name) == ReadPacks(rows, name)
  {
    hide ParsePack, EvidenceKey, ParseEvidenceKey;
    assert PackedEvidence(RowsOf(rows, name), name) == PackedEvidence(rows, name);
    forall digest ensures PacksAt(RowsOf(rows, name), name, digest) == PacksAt(rows, name, digest) {}
    hide PackedEvidence, PacksAt;
  }

  function Sources(evidence: map<EvidenceCols, EvidenceRow>, authority: set<AuthorityRow>): EvidenceTables {
    EvidenceTables(evidence, authority, map[])
  }

  lemma KeyOfSource(k: EvidenceCols, row: EvidenceRow, fields: set<string>)
    requires ParseEvidence(k, row, fields).Some?
    ensures ParseCols(k).Some? && ColsOf(ParseCols(k).value) == k
  {
    SourceLabels();
  }

  lemma SourceHas(done: map<EvidenceCols, EvidenceRow>, authority: set<AuthorityRow>, id: EvidenceId)
    requires EvidenceReadable(Sources(done, authority))
    ensures
      var read := ReadEvidence(Sources(done, authority));
      (id in read <==> ColsOf(id) in done)
      && (id in read ==>
            ParseEvidence(ColsOf(id), done[ColsOf(id)], AuthorityOf(authority, ColsOf(id))) == Some(read[id]))
  {
    ColsParse(id);
    hide ParseEvidence, AuthorityOf, ParseCols, ColsOf;
  }

  lemma SourceStep(done: map<EvidenceCols, EvidenceRow>, authority: set<AuthorityRow>, k: EvidenceCols,
                   row: EvidenceRow)
    requires k !in done && EvidenceReadable(Sources(done, authority))
    requires ParseEvidence(k, row, AuthorityOf(authority, k)).Some?
    ensures ParseCols(k).Some? && EvidenceReadable(Sources(done[k := row], authority))
    ensures ReadEvidence(Sources(done[k := row], authority))
            == ReadEvidence(Sources(done, authority))
                 [ParseCols(k).value := ParseEvidence(k, row, AuthorityOf(authority, k)).value]
  {
    KeyOfSource(k, row, AuthorityOf(authority, k));
    hide ParseEvidence, AuthorityOf;
    assert EvidenceReadable(Sources(done[k := row], authority));
    hide EvidenceReadable, ReadEvidence, ParseCols, ColsOf;
    var e := ParseCols(k).value;
    var before, after := ReadEvidence(Sources(done, authority)), ReadEvidence(Sources(done[k := row], authority));
    forall id
      ensures id in after <==> id in before || id == e
      ensures id in before && id != e ==> after[id] == before[id]
      ensures id == e ==> after[id] == ParseEvidence(k, row, AuthorityOf(authority, k)).value
    {
      ColsParse(id);
      ColsParse(e);
      SourceHas(done, authority, id);
      SourceHas(done[k := row], authority, id);
    }
  }

  lemma LatestStep(done: map<string, LatestRow>, s: string, row: LatestRow)
    requires s !in done && ParseSource(s).Some?
    ensures ReadLatest(done[s := row])
            == ReadLatest(done)[ParseSource(s).value := EvidenceId(ParseSource(s).value, row.revision, row.sha)]
  {
    SourceLabels();
    hide ParseSource, SourceLabel;
    var x := ParseSource(s).value;
    var before, after := ReadLatest(done), ReadLatest(done[s := row]);
    forall y ensures y in after <==> y in before || y == x {
      if y in before { assert SourceLabel(y) in done; }
    }
    assert after.Keys == before.Keys + {x};
  }

  // The map of maps with one more entry under a key.
  function Attributed(m: map<AttributeKey, map<string, string>>, k: AttributeKey, name: string, text: string)
    : map<AttributeKey, map<string, string>>
  {
    m[k := (if k in m then m[k] else map[])[name := text]]
  }

  // ---------------------------------------------------------------- songs with some rows read

  // The songs as they were, with these title rows read into them; and so on for the other tables.
  ghost predicate TitlesIn(before: map<SongId, Song>, now: map<SongId, Song>, done: set<TitleRow>) {
    now.Keys == before.Keys
    && forall id | id in now :: now[id] == before[id].(titles := ReadTitles(done, id))
  }

  lemma NextTitle(before: map<SongId, Song>, now: map<SongId, Song>, done: set<TitleRow>, r: TitleRow)
    requires TitlesIn(before, now, done) && r.song in now && ParseTitle(r).Some?
    ensures
      var more := now[r.song].(titles := now[r.song].titles + {ParseTitle(r).value});
      TitlesIn(before, now[r.song := more], done + {r})
  {
    hide ReadTitles, ParseTitle;
    forall id ensures ReadTitles(done + {r}, id)
                      == ReadTitles(done, id) + if r.song == id then {ParseTitle(r).value} else {}
    {
      TitleStep(done, r, id);
    }
  }

  lemma FirstTitle(songs: map<SongId, Song>)
    requires forall id | id in songs :: songs[id].titles == {}
    ensures TitlesIn(songs, songs, {})
  {
    forall id ensures ReadTitles({}, id) == {} {}
  }

  function WithCharts(song: Song, charts: map<ChartKey, Chart>): Song {
    song.(sheet := song.sheet.(charts := charts))
  }

  ghost predicate ChartsIn(before: map<SongId, Song>, now: map<SongId, Song>, done: map<ChartCols, ChartRow>) {
    now.Keys == before.Keys
    && forall id | id in now :: now[id] == WithCharts(before[id], ReadCharts(done, id))
  }

  lemma NextChart(before: map<SongId, Song>, now: map<SongId, Song>, done: map<ChartCols, ChartRow>, x: ChartCols,
                  row: ChartRow)
    requires ChartsIn(before, now, done) && x !in done && x.song in now && ParseChartKey(x).Some?
    ensures
      var key, song := ParseChartKey(x).value, now[x.song];
      var more := WithCharts(song, song.sheet.charts[key := Chart(key, row.level, row.notes)]);
      ChartsIn(before, now[x.song := more], done[x := row])
  {
    hide ReadCharts, ParseChartKey;
    forall id
      ensures ReadCharts(done[x := row], id)
              == if x.song == id then
                   ReadCharts(done, id)[ParseChartKey(x).value := Chart(ParseChartKey(x).value, row.level, row.notes)]
                 else ReadCharts(done, id)
    {
      ChartStep(done, x, row, id);
    }
  }

  lemma FirstChart(songs: map<SongId, Song>)
    requires forall id | id in songs :: songs[id].sheet.charts == map[]
    ensures ChartsIn(songs, songs, map[])
  {
    forall id ensures ReadCharts(map[], id) == map[] {}
    hide ReadCharts;
  }

  function WithAssertions(song: Song, assertions: map<ChartKey, set<Assertion>>): Song {
    song.(sheet := song.sheet.(assertions := assertions))
  }

  ghost predicate AssertionsIn(before: map<SongId, Song>, now: map<SongId, Song>, done: map<AssertionCols, bool>,
                               products: set<ProductRow>) {
    now.Keys == before.Keys
    && forall id | id in now :: now[id] == WithAssertions(before[id], ReadAssertions(done, products, id))
  }

  // The assertion of a row.
  function AssertionRead(x: AssertionCols, primary: bool, products: set<ProductRow>): Assertion
    requires ParseEvidenceOf(x.source, x.digest).Some?
  {
    Assertion(x.chartId, VersionsOf(products, x), primary, ParseEvidenceOf(x.source, x.digest).value)
  }

  lemma NextAssertion(before: map<SongId, Song>, now: map<SongId, Song>, done: map<AssertionCols, bool>,
                      products: set<ProductRow>, x: AssertionCols, primary: bool)
    requires AssertionsIn(before, now, done, products) && x !in done && x.chart.song in now
    requires ParseChartKey(x.chart).Some? && ParseEvidenceOf(x.source, x.digest).Some?
    ensures
      var song := now[x.chart.song];
      var more := Added(song.sheet.assertions, ParseChartKey(x.chart).value, AssertionRead(x, primary, products));
      AssertionsIn(before, now[x.chart.song := WithAssertions(song, more)], done[x := primary], products)
  {
    hide ReadAssertions, ParseChartKey, ParseEvidenceOf, VersionsOf, Added;
    forall id
      ensures ReadAssertions(done[x := primary], products, id)
              == if x.chart.song == id then
                   Added(ReadAssertions(done, products, id), ParseChartKey(x.chart).value,
                         AssertionRead(x, primary, products))
                 else ReadAssertions(done, products, id)
    {
      AssertionStep(done, products, x, primary, id);
    }
  }

  lemma FirstAssertion(songs: map<SongId, Song>, products: set<ProductRow>)
    requires forall id | id in songs :: songs[id].sheet.assertions == map[]
    ensures AssertionsIn(songs, songs, map[], products)
  {
    forall id ensures ReadAssertions(map[], products, id) == map[] {}
    hide ReadAssertions;
  }

  function WithBindings(song: Song, bindings: map<SourceId, set<string>>): Song {
    song.(links := song.links.(bindings := bindings))
  }

  ghost predicate BindingsIn(before: map<SongId, Song>, now: map<SongId, Song>, done: set<BindingRow>) {
    now.Keys == before.Keys
    && forall id | id in now :: now[id] == WithBindings(before[id], ReadBindings(done, id))
  }

  lemma NextBinding(before: map<SongId, Song>, now: map<SongId, Song>, done: set<BindingRow>, r: BindingRow)
    requires BindingsIn(before, now, done) && r.song in now && ParseSource(r.source).Some?
    ensures
      var song := now[r.song];
      var more := Added(song.links.bindings, ParseSource(r.source).value, r.key);
      BindingsIn(before, now[r.song := WithBindings(song, more)], done + {r})
  {
    hide ReadBindings, ParseSource, Added;
    forall id
      ensures ReadBindings(done + {r}, id)
              == if r.song == id then Added(ReadBindings(done, id), ParseSource(r.source).value, r.key)
                 else ReadBindings(done, id)
    {
      BindingStep(done, r, id);
    }
  }

  lemma FirstBinding(songs: map<SongId, Song>)
    requires forall id | id in songs :: songs[id].links.bindings == map[]
    ensures BindingsIn(songs, songs, {})
  {
    forall id ensures ReadBindings({}, id) == map[] {}
    hide ReadBindings;
  }

  function WithEvidence(song: Song, evidence: map<BindingKey, set<EvidenceId>>): Song {
    song.(links := song.links.(evidence := evidence))
  }

  ghost predicate EvidenceIn(before: map<SongId, Song>, now: map<SongId, Song>, done: set<BindingEvidenceRow>) {
    now.Keys == before.Keys
    && forall id | id in now :: now[id] == WithEvidence(before[id], ReadBindingEvidence(done, id))
  }

  lemma NextEvidence(before: map<SongId, Song>, now: map<SongId, Song>, done: set<BindingEvidenceRow>,
                     r: BindingEvidenceRow)
    requires EvidenceIn(before, now, done) && r.binding.song in now
    requires ParseEvidenceOf(r.binding.source, r.digest).Some? && ParseSource(r.binding.source).Some?
    ensures
      var song := now[r.binding.song];
      var more := Added(song.links.evidence, BindingKeyOf(r.binding),
                        ParseEvidenceOf(r.binding.source, r.digest).value);
      EvidenceIn(before, now[r.binding.song := WithEvidence(song, more)], done + {r})
  {
    hide ReadBindingEvidence, ParseSource, ParseEvidenceOf, BindingKeyOf, Added;
    forall id
      ensures ReadBindingEvidence(done + {r}, id)
              == if r.binding.song == id then
                   Added(ReadBindingEvidence(done, id), BindingKeyOf(r.binding),
                         ParseEvidenceOf(r.binding.source, r.digest).value)
                 else ReadBindingEvidence(done, id)
    {
      EvidenceStep(done, r, id);
    }
  }

  lemma FirstEvidence(songs: map<SongId, Song>)
    requires forall id | id in songs :: songs[id].links.evidence == map[]
    ensures EvidenceIn(songs, songs, {})
  {
    forall id ensures ReadBindingEvidence({}, id) == map[] {}
    hide ReadBindingEvidence;
  }

  function WithAttributes(song: Song, attributes: map<AttributeKey, map<string, string>>): Song {
    song.(links := song.links.(attributes := attributes))
  }

  ghost predicate AttributesIn(before: map<SongId, Song>, now: map<SongId, Song>, done: map<AttributeCols, string>) {
    now.Keys == before.Keys
    && forall id | id in now :: now[id] == WithAttributes(before[id], ReadAttributes(done, id))
  }

  lemma NextAttribute(before: map<SongId, Song>, now: map<SongId, Song>, done: map<AttributeCols, string>,
                      x: AttributeCols, text: string)
    requires AttributesIn(before, now, done) && x !in done && x.of.binding.song in now
    requires ParseEvidenceOf(x.of.binding.source, x.of.digest).Some?
    requires forall y | y in done :: ParseEvidenceOf(y.of.binding.source, y.of.digest).Some?
    ensures
      var song := now[x.of.binding.song];
      var more := Attributed(song.links.attributes, AttributeKeyOf(x.of), x.name, text);
      AttributesIn(before, now[x.of.binding.song := WithAttributes(song, more)], done[x := text])
  {
    hide ReadAttributes, ParseEvidenceOf, AttributeKeyOf, Attributed;
    forall id
      ensures ReadAttributes(done[x := text], id)
              == if x.of.binding.song == id then
                   Attributed(ReadAttributes(done, id), AttributeKeyOf(x.of), x.name, text)
                 else ReadAttributes(done, id)
    {
      AttributeStep(done, x, text, id);
    }
  }

  lemma FirstAttribute(songs: map<SongId, Song>)
    requires forall id | id in songs :: songs[id].links.attributes == map[]
    ensures AttributesIn(songs, songs, map[])
  {
    forall id ensures ReadAttributes(map[], id) == map[] {}
    hide ReadAttributes;
  }

  // ---------------------------------------------------------------- the loops

  // A song before the rows of its parts are read.
  function Bare(id: SongId, r: SongRow): Song
    requires ParseStatus(r.status).Some?
  {
    Song(id, r.tachiId, r.artist, r.version, {}, Sheet(map[], map[]), Links(map[], map[], map[]),
         ParseStatus(r.status).value, r.primary)
  }

  // The rows that have been taken out of `rest`.
  ghost predicate Taken<K, V>(rows: map<K, V>, rest: set<K>, done: map<K, V>) {
    rest <= rows.Keys && done.Keys == rows.Keys - rest && forall k | k in done :: done[k] == rows[k]
  }

  lemma AllTaken<K, V>(rows: map<K, V>, done: map<K, V>)
    requires Taken(rows, {}, done)
    ensures done == rows
  {
  }

  class Reader {
    var songs: map<SongId, Song>
    var evidence: map<EvidenceId, Evidence>
    var latest: map<SourceId, EvidenceId>
    var dqn: map<TitleArtist, DqnBinding>

    constructor ()
      ensures songs == map[] && evidence == map[] && latest == map[] && dqn == map[]
    {
      songs, evidence, latest, dqn := map[], map[], map[], map[];
    }

    /** The evidence loop of `read_source_evidence`. */
    method ReadSourceEvidence(t: EvidenceTables) returns (ok: bool)
      requires evidence == map[]
      modifies `evidence
      ensures ok <==> EvidenceReadable(Sources(t.evidence, t.authority))
      ensures ok ==> evidence == ReadEvidence(Sources(t.evidence, t.authority))
    {
      hide ParseEvidence, AuthorityOf, ReadEvidence;
      var rest := t.evidence.Keys;
      ghost var done: map<EvidenceCols, EvidenceRow> := map[];
      NoSources(t.authority);
      while rest != {}
        invariant Taken(t.evidence, rest, done) && EvidenceReadable(Sources(done, t.authority))
        invariant evidence == ReadEvidence(Sources(done, t.authority))
        decreases |rest|
      {
        var k :| k in rest;
        var e := ParseEvidence(k, t.evidence[k], AuthorityOf(t.authority, k));
        if e.None? {
          assert EvidenceAt(Sources(t.evidence, t.authority), k).None?;
          return false;
        }
        SourceStep(done, t.authority, k, t.evidence[k]);
        evidence := evidence[ParseCols(k).value := e.value];
        done := done[k := t.evidence[k]];
        rest := rest - {k};
      }
      AllTaken(t.evidence, done);
      ok := true;
    }

    /** Its second loop. */
    method ReadLatestEvidence(rows: map<string, LatestRow>) returns (ok: bool)
      requires latest == map[]
      modifies `latest
      ensures ok <==> forall s | s in rows :: ParseSource(s).Some?
      ensures ok ==> latest == ReadLatest(rows)
    {
      hide ParseSource, ReadLatest;
      var rest := rows.Keys;
      ghost var done: map<string, LatestRow> := map[];
      NoLatest();
      while rest != {}
        invariant Taken(rows, rest, done) && forall s | s in done :: ParseSource(s).Some?
        invariant latest == ReadLatest(done)
        decreases |rest|
      {
        var s :| s in rest;
        var source := ParseSource(s);
        if source.None? {
          return false;
        }
        LatestStep(done, s, rows[s]);
        latest := latest[source.value := EvidenceId(source.value, rows[s].revision, rows[s].sha)];
        done := done[s := rows[s]];
        rest := rest - {s};
      }
      AllTaken(rows, done);
      ok := true;
    }

    /** The loop over `songs`. */
    method ReadSongRows(rows: map<SongId, SongRow>) returns (ok: bool)
      requires songs == map[]
      modifies `songs
      ensures ok <==> forall id | id in rows :: ParseStatus(rows[id].status).Some?
      ensures ok ==> songs.Keys == rows.Keys && forall id | id in rows :: songs[id] == Bare(id, rows[id])
    {
      hide ParseStatus, Bare;
      var rest := rows.Keys;
      while rest != {}
        invariant rest <= rows.Keys && songs.Keys == rows.Keys - rest
        invariant forall id | id in songs :: ParseStatus(rows[id].status).Some? && songs[id] == Bare(id, rows[id])
        decreases |rest|
      {
        var id :| id in rest;
        if ParseStatus(rows[id].status).None? {
          return false;
        }
        songs := songs[id := Bare(id, rows[id])];
        rest := rest - {id};
      }
      ok := true;
    }

    /** `read_title_variants`. */
    method ReadTitleRows(rows: set<TitleRow>) returns (ok: bool)
      requires TitlesIn(songs, songs, {})
      modifies `songs
      ensures ok <==> TitlesReadable(rows, old(songs).Keys)
      ensures ok ==> TitlesIn(old(songs), songs, rows)
    {
      var rest := rows;
      assert rows - rest == {};
      while rest != {}
        invariant rest <= rows && songs.Keys == old(songs).Keys
        invariant TitlesReadable(rows - rest, songs.Keys) && TitlesIn(old(songs), songs, rows - rest)
        decreases |rest|
      {
        hide ParseTitle, TitlesIn;
        var r :| r in rest;
        var title := ParseTitle(r);
        if r.song !in songs || title.None? {
          return false;
        }
        OneMoreDone(rows, rest, r);
        NextTitle(old(songs), songs, rows - rest, r);
        songs := songs[r.song := songs[r.song].(titles := songs[r.song].titles + {title.value})];
        rest := rest - {r};
      }
      assert rows - rest == rows;
      ok := true;
    }

    /** `read_charts`: the level and the note count must fit their columns. */
    method ReadChartRows(rows: map<ChartCols, ChartRow>) returns (ok: bool)
      requires ChartsIn(songs, songs, map[])
      modifies `songs
      ensures ok <==> ChartsReadable(rows, old(songs).Keys)
      ensures ok ==> ChartsIn(old(songs), songs, rows)
    {
      hide ParseChartKey, ChartsIn, WithCharts;
      var rest := rows.Keys;
      ghost var done: map<ChartCols, ChartRow> := map[];
      while rest != {}
        invariant Taken(rows, rest, done) && songs.Keys == old(songs).Keys
        invariant ChartsReadable(done, songs.Keys) && ChartsIn(old(songs), songs, done)
        decreases |rest|
      {
        var x :| x in rest;
        var key, row := ParseChartKey(x), rows[x];
        if x.song !in songs || key.None? || row.level > U8_MAX || row.notes > U32_MAX {
          return false;
        }
        NextChart(old(songs), songs, done, x, row);
        var song := songs[x.song];
        songs := songs[x.song :=
          WithCharts(song, song.sheet.charts[key.value := Chart(key.value, row.level, row.notes)])];
        done := done[x := row];
        rest := rest - {x};
      }
      AllTaken(rows, done);
      ok := true;
    }

    /** `read_chart_assertions`, with the query for the product versions of each. */
    method ReadAssertionRows(rows: map<AssertionCols, bool>, products: set<ProductRow>) returns (ok: bool)
      requires AssertionsIn(songs, songs, map[], products)
      modifies `songs
      ensures ok <==> AssertionsReadable(rows, old(songs).Keys)
      ensures ok ==> AssertionsIn(old(songs), songs, rows, products)
    {
      hide ParseChartKey, ParseEvidenceOf, AssertionsIn, WithAssertions, AssertionRead, Added;
      var rest := rows.Keys;
      ghost var done: map<AssertionCols, bool> := map[];
      while rest != {}
        invariant Taken(rows, rest, done) && songs.Keys == old(songs).Keys
        invariant AssertionsReadable(done, songs.Keys) && AssertionsIn(old(songs), songs, done, products)
        decreases |rest|
      {
        var x :| x in rest;
        var key, source := ParseChartKey(x.chart), ParseEvidenceOf(x.source, x.digest);
        if x.chart.song !in songs || key.None? || source.None? {
          return false;
        }
        NextAssertion(old(songs), songs, done, products, x, rows[x]);
        var song, assertion := songs[x.chart.song], AssertionRead(x, rows[x], products);
        songs := songs[x.chart.song := WithAssertions(song, Added(song.sheet.assertions, key.value, assertion))];
        done := done[x := rows[x]];
        rest := rest - {x};
      }
      AllTaken(rows, done);
      ok := true;
    }

    /** `read_source_bindings`. */
    method ReadBindingRows(rows: set<BindingRow>) returns (ok: bool)
      requires BindingsIn(songs, songs, {})
      modifies `songs
      ensures ok <==> forall r | r in rows :: r.song in old(songs) && ParseSource(r.source).Some?
      ensures ok ==> BindingsIn(old(songs), songs, rows)
    {
      hide ParseSource, BindingsIn, WithBindings, Added;
      var rest := rows;
      assert rows - rest == {};
      while rest != {}
        invariant rest <= rows && songs.Keys == old(songs).Keys && BindingsIn(old(songs), songs, rows - rest)
        invariant forall r | r in rows - rest :: r.song in songs && ParseSource(r.source).Some?
        decreases |rest|
      {
        var r :| r in rest;
        var source := ParseSource(r.source);
        if r.song !in songs || source.None? {
          return false;
        }
        OneMoreDone(rows, rest, r);
        NextBinding(old(songs), songs, rows - rest, r);
        var song := songs[r.song];
        songs := songs[r.song := WithBindings(song, Added(song.links.bindings, source.value, r.key))];
        rest := rest - {r};
      }
      assert rows - rest == rows;
      ok := true;
    }

    /** `read_binding_evidence`. */
    method ReadBindingEvidenceRows(rows: set<BindingEvidenceRow>) returns (ok: bool)
      requires EvidenceIn(songs, songs, {})
      modifies `songs
      ensures ok <==> forall r | r in rows ::
                        r.binding.song in old(songs) && ParseEvidenceOf(r.binding.source, r.digest).Some?
      ensures ok ==> EvidenceIn(old(songs), songs, rows)
    {
      hide ParseSource, ParseEvidenceKey, EvidenceIn, WithEvidence, Added;
      var rest := rows;
      assert rows - rest == {};
      while rest != {}
        invariant rest <= rows && songs.Keys == old(songs).Keys && EvidenceIn(old(songs), songs, rows - rest)
        invariant forall r | r in rows - rest ::
          r.binding.song in songs && ParseEvidenceOf(r.binding.source, r.digest).Some?
        decreases |rest|
      {
        var r :| r in rest;
        var e := ParseEvidenceOf(r.binding.source, r.digest);
        if r.binding.song !in songs || e.None? {
          return false;
        }
        OneMoreDone(rows, rest, r);
        NextEvidence(old(songs), songs, rows - rest, r);
        var song := songs[r.binding.song];
        var evidence := Added(song.links.evidence, BindingKeyOf(r.binding), e.value);
        songs := songs[r.binding.song := WithEvidence(song, evidence)];
        rest := rest - {r};
      }
      assert rows - rest == rows;
      ok := true;
    }

    /** `read_binding_attributes`. */
    method ReadAttributeRows(rows: map<AttributeCols, string>) returns (ok: bool)
      requires AttributesIn(songs, songs, map[])
      modifies `songs
      ensures ok <==> forall x | x in rows ::
                        x.of.binding.song in old(songs) && ParseEvidenceOf(x.of.binding.source, x.of.digest).Some?
      ensures ok ==> AttributesIn(old(songs), songs, rows)
    {
      hide ParseEvidenceOf, AttributeKeyOf, AttributesIn, WithAttributes, Attributed;
      var rest := rows.Keys;
      ghost var done: map<AttributeCols, string> := map[];
      while rest != {}
        invariant Taken(rows, rest, done) && songs.Keys == old(songs).Keys
        invariant AttributesIn(old(songs), songs, done)
        invariant forall x | x in done ::
          x.of.binding.song in songs && ParseEvidenceOf(x.of.binding.source, x.of.digest).Some?
        decreases |rest|
      {
        var x :| x in rest;
        if x.of.binding.song !in songs || ParseEvidenceOf(x.of.binding.source, x.of.digest).None? {
          return false;
        }
        NextAttribute(old(songs), songs, done, x, rows[x]);
        var song := songs[x.of.binding.song];
        songs := songs[x.of.binding.song :=
          WithAttributes(song, Attributed(song.links.attributes, AttributeKeyOf(x.of), x.name, rows[x]))];
        done := done[x := rows[x]];
        rest := rest - {x};
      }
      AllTaken(rows, done);
      ok := true;
    }

    /** `read_dqn_bindings`: for each name, its evidence rows. */
    method ReadDqnRows(t: DqnTables) returns (ok: bool)
      requires dqn == map[]
      modifies `dqn
      ensures ok <==> DqnReadable(t)
      ensures ok ==> dqn == ReadDqn(t)
    {
      hide ReadPacks, ParseEvidenceKey, ParsePack;
      var rest := t.bindings.Keys;
      while rest != {}
        invariant rest <= t.bindings.Keys && dqn.Keys == t.bindings.Keys - rest
        invariant forall r | r in t.evidence && r.name in dqn ::
          ParseEvidenceKey(Dqn, r.digest).Some? && ParsePack(r).Some?
        invariant forall name | name in dqn :: dqn[name] == DqnBinding(t.bindings[name], ReadPacks(t.evidence, name))
        decreases |rest|
      {
        var name :| name in rest;
        var readable, packs := PacksOf(t.evidence, name);
        if !readable {
          return false;
        }
        dqn := dqn[name := DqnBinding(t.bindings[name], packs)];
        rest := rest - {name};
      }
      ok := true;
    }
  }

  method PacksOf(rows: set<DqnRow>, name: TitleArtist)
    returns (ok: bool, packs: map<EvidenceId, set<Option<string>>>)
    ensures ok <==>
              forall r | r in rows && r.name == name :: ParseEvidenceKey(Dqn, r.digest).Some? && ParsePack(r).Some?
    ensures ok ==> packs == ReadPacks(rows, name)
  {
    hide ReadPacks, ParseEvidenceKey, ParsePack;
    packs := map[];
    var own := RowsOf(rows, name);
    var rest := own;
    assert own - rest == {};
    NoPacks(name);
    while rest != {}
      invariant rest <= own
      invariant forall r | r in own - rest :: ParseEvidenceKey(Dqn, r.digest).Some? && ParsePack(r).Some?
      invariant packs == ReadPacks(own - rest, name)
      decreases |rest|
    {
      var r :| r in rest;
      var e, pack := ParseEvidenceKey(Dqn, r.digest), ParsePack(r);
      if e.None? || pack.None? {
        return false, packs;
      }
      PackStep(own - rest, r, name);
      OneMoreDone(own, rest, r);
      packs := Added(packs, e.value, pack.value);
      rest := rest - {r};
    }
    assert own - rest == own;
    OnlyItsRows(rows, name);
    ok := true;
  }

  // ---------------------------------------------------------------- nothing read yet

  lemma NoSources(authority: set<AuthorityRow>)
    ensures ReadEvidence(Sources(map[], authority)) == map[]
  {
  }

  lemma NoLatest()
    ensures ReadLatest(map[]) == map[]
  {
  }

  lemma NoPacks(name: TitleArtist)
    ensures ReadPacks({}, name) == map[]
  {
  }

  // ---------------------------------------------------------------- the whole reader

  lemma SourcesRead(t: EvidenceTables)
    requires EvidenceReadable(t)
    ensures EvidenceReadable(Sources(t.evidence, t.authority))
    ensures ReadEvidence(Sources(t.evidence, t.authority)) == ReadEvidence(t)
  {
  }

  // The song once the first `n` of its six tables have been read.
  function Filled(t: Tables, id: SongId, n: nat): Song
    requires id in t.songs.songs && ParseStatus(t.songs.songs[id].status).Some?
  {
    var r := t.songs.songs[id];
    Song(id, r.tachiId, r.artist, r.version, if n >= 1 then ReadTitles(t.songs.titles, id) else {},
         Sheet(if n >= 2 then ReadCharts(t.songs.charts, id) else map[],
               if n >= 3 then ReadAssertions(t.songs.assertions, t.songs.products, id) else map[]),
         Links(if n >= 4 then ReadBindings(t.links.bindings, id) else map[],
               if n >= 5 then ReadBindingEvidence(t.links.evidence, id) else map[],
               if n >= 6 then ReadAttributes(t.links.attributes, id) else map[]),
         ParseStatus(r.status).value, r.primary)
  }

  ghost predicate AllFilled(t: Tables, songs: map<SongId, Song>, n: nat) {
    songs.Keys == t.songs.songs.Keys
    && forall id | id in songs :: ParseStatus(t.songs.songs[id].status).Some? && songs[id] == Filled(t, id, n)
  }

  lemma BareIsFilled(t: Tables, songs: map<SongId, Song>)
    requires forall id | id in t.songs.songs :: ParseStatus(t.songs.songs[id].status).Some?
    requires songs.Keys == t.songs.songs.Keys
    requires forall id | id in t.songs.songs :: songs[id] == Bare(id, t.songs.songs[id])
    ensures AllFilled(t, songs, 0) && TitlesIn(songs, songs, {})
  {
    hide ParseStatus;
    FirstTitle(songs);
  }

  lemma TitlesFilled(t: Tables, before: map<SongId, Song>, songs: map<SongId, Song>)
    requires AllFilled(t, before, 0) && TitlesIn(before, songs, t.songs.titles)
    ensures AllFilled(t, songs, 1) && ChartsIn(songs, songs, map[])
  {
    hide ParseStatus, ReadTitles;
    FirstChart(songs);
  }

  lemma ChartsFilled(t: Tables, before: map<SongId, Song>, songs: map<SongId, Song>)
    requires AllFilled(t, before, 1) && ChartsIn(before, songs, t.songs.charts)
    ensures AllFilled(t, songs, 2) && AssertionsIn(songs, songs, map[], t.songs.products)
  {
    hide ParseStatus, ReadTitles, ReadCharts;
    FirstAssertion(songs, t.songs.products);
  }

  lemma AssertionsFilled(t: Tables, before: map<SongId, Song>, songs: map<SongId, Song>)
    requires AllFilled(t, before, 2) && AssertionsIn(before, songs, t.songs.assertions, t.songs.products)
    ensures AllFilled(t, songs, 3) && BindingsIn(songs, songs, {})
  {
    hide ParseStatus, ReadTitles, ReadCharts, ReadAssertions;
    FirstBinding(songs);
  }

  lemma BindingsFilled(t: Tables, before: map<SongId, Song>, songs: map<SongId, Song>)
    requires AllFilled(t, before, 3) && BindingsIn(before, songs, t.links.bindings)
    ensures AllFilled(t, songs, 4) && EvidenceIn(songs, songs, {})
  {
    hide ParseStatus, ReadTitles, ReadCharts, ReadAssertions, ReadBindings;
    FirstEvidence(songs);
  }

  lemma EvidenceFilled(t: Tables, before: map<SongId, Song>, songs: map<SongId, Song>)
    requires AllFilled(t, before, 4) && EvidenceIn(before, songs, t.links.evidence)
    ensures AllFilled(t, songs, 5) && AttributesIn(songs, songs, map[])
  {
    hide ParseStatus, ReadTitles, ReadCharts, ReadAssertions, ReadBindings, ReadBindingEvidence;
    FirstAttribute(songs);
  }

  lemma AttributesFilled(t: Tables, before: map<SongId, Song>, songs: map<SongId, Song>)
    requires AllFilled(t, before, 5) && AttributesIn(before, songs, t.links.attributes)
    requires forall id | id in t.songs.songs :: ParseStatus(t.songs.songs[id].status).Some?
    ensures songs == ReadSongs(t)
  {
    hide ParseStatus, ReadTitles, ReadCharts, ReadAssertions, ReadBindings, ReadBindingEvidence, ReadAttributes;
  }

  /** `read_snapshot` before validation: the loops in their order give what the tables say, or refuse them. */
  method ReadTables(t: Tables) returns (c: Option<Catalog>)
    ensures c == Read(t)
  {
    hide ReadEvidence, ReadLatest, ReadSongs, ReadDqn, TitlesReadable, ChartsReadable, AssertionsReadable, DqnReadable;
    hide ParseStatus, ParseSource, ParseEvidenceOf, ParseEvidence, AllFilled, Bare;
    hide TitlesIn, ChartsIn, AssertionsIn, BindingsIn, EvidenceIn, AttributesIn;
    var reader := new Reader();
    var ok := reader.ReadSourceEvidence(t.evidence);
    if !ok { return None; }
    ok := reader.ReadLatestEvidence(t.evidence.latest);
    if !ok { return None; }
    SourcesRead(t.evidence);
    ok := reader.ReadSongRows(t.songs.songs);
    if !ok { return None; }
    BareIsFilled(t, reader.songs);
    c := ReadParts(t, reader);
  }

  lemma KeysIn(t: Tables, songs: map<SongId, Song>, n: nat)
    requires AllFilled(t, songs, n)
    ensures songs.Keys == t.songs.songs.Keys
  {
  }

  // The tables of the songs' parts, and the dqn bindings.
  method ReadParts(t: Tables, reader: Reader) returns (c: Option<Catalog>)
    requires AllFilled(t, reader.songs, 0) && TitlesIn(reader.songs, reader.songs, {})
    requires forall id | id in t.songs.songs :: ParseStatus(t.songs.songs[id].status).Some?
    requires EvidenceReadable(t.evidence) && reader.dqn == map[]
    requires reader.evidence == ReadEvidence(t.evidence) && reader.latest == ReadLatest(t.evidence.latest)
    modifies reader
    ensures c == Read(t)
  {
    hide ReadEvidence, ReadLatest, ReadSongs, ReadDqn, TitlesReadable, ChartsReadable, AssertionsReadable, DqnReadable;
    hide ParseStatus, ParseSource, ParseEvidenceOf, ParseEvidence, AllFilled, EvidenceReadable;
    hide TitlesIn, ChartsIn, AssertionsIn, BindingsIn, EvidenceIn, AttributesIn;
    ghost var songs := reader.songs;
    KeysIn(t, songs, 0);
    var ok := reader.ReadTitleRows(t.songs.titles);
    if !ok { return None; }
    TitlesFilled(t, songs, reader.songs);
    songs := reader.songs;
    KeysIn(t, songs, 1);
    ok := reader.ReadChartRows(t.songs.charts);
    if !ok { return None; }
    ChartsFilled(t, songs, reader.songs);
    songs := reader.songs;
    KeysIn(t, songs, 2);
    ok := reader.ReadAssertionRows(t.songs.assertions, t.songs.products);
    if !ok { return None; }
    AssertionsFilled(t, songs, reader.songs);
    songs := reader.songs;
    KeysIn(t, songs, 3);
    ok := reader.ReadBindingRows(t.links.bindings);
    if !ok { return None; }
    BindingsFilled(t, songs, reader.songs);
    songs := reader.songs;
    KeysIn(t, songs, 4);
    ok := reader.ReadBindingEvidenceRows(t.links.evidence);
    if !ok { return None; }
    EvidenceFilled(t, songs, reader.songs);
    songs := reader.songs;
    KeysIn(t, songs, 5);
    ok := reader.ReadAttributeRows(t.links.attributes);
    if !ok { return None; }
    AttributesFilled(t, songs, reader.songs);
    ok := reader.ReadDqnRows(t.dqn);
    if !ok { return None; }
    c := Some(Catalog(reader.songs, reader.evidence, reader.latest, reader.dqn));
  }

  /** `read_snapshot`. */
  method ReadFile(nfc: Nfc, t: Tables) returns (c: Option<Catalog>)
    ensures c == ReadSnapshot(nfc, t)
  {
    hide Read, Valid;
    c := ReadTables(t);
    if c.Some? {
      var valid := Validate(nfc, c.value);
      if !valid { c := None; }
    }
  }
}
