// Apart from the clash of assertion keys, every INSERT of the writer meets the constraints of its table.
module SnapshotConstraints {
  import opened Common
  import opened CatalogModel
  import opened SnapshotTables
  import opened SnapshotRoundTrip
  import opened SnapshotStore

  // ---------------------------------------------------------------- different entries have different rows

  lemma TitleRowsDiffer(c: Catalog, i: SongId, t: Title, j: SongId, u: Title)
    requires Consistent(c) && i in c.songs && t in c.songs[i].titles && j in c.songs && u in c.songs[j].titles
    ensures TitleRowOf(i, t) == TitleRowOf(j, u) ==> i == j && t == u
  {
    hide ConsistentEvidence, ConsistentPacks, KeyOk;
    assert ConsistentSong(i, c.songs[i]) && ConsistentSong(j, c.songs[j]);
    TitleParses(i, t);
    TitleParses(j, u);
    hide ParseTitle;
  }

  lemma ChartRowsDiffer(i: SongId, k: ChartKey, j: SongId, l: ChartKey)
    ensures ChartColsOf(i, k) == ChartColsOf(j, l) ==> i == j && k == l
  {
    ChartKeyParses(i, k);
    ChartKeyParses(j, l);
    hide ParseChartKey;
  }

  // Assertions with the same key columns are of one chart, and the same or a clash.
  lemma AssertionRowsDiffer(c: Catalog, i: SongId, k: ChartKey, a: Assertion, j: SongId, l: ChartKey, b: Assertion)
    requires Consistent(c) && Asserts(c, i, k, a) && Asserts(c, j, l, b)
    ensures AssertionColsOf(i, k, a) == AssertionColsOf(j, l, b) ==> i == j && k == l && (a == b || Clashes(a, b))
  {
    hide Consistent, KeyOk, AssertionColsOf;
    AssertedKeyOk(c, i, k, a);
    AssertedKeyOk(c, j, l, b);
    AssertionColsMatch(i, k, a, j, l, b);
  }

  lemma ProductRowsDiffer(c: Catalog, i: SongId, k: ChartKey, a: Assertion, v: string,
                          j: SongId, l: ChartKey, b: Assertion, w: string)
    requires Consistent(c) && Asserts(c, i, k, a) && Asserts(c, j, l, b)
    ensures ProductRow(AssertionColsOf(i, k, a), v) == ProductRow(AssertionColsOf(j, l, b), w) ==>
              i == j && k == l && v == w && (a == b || Clashes(a, b))
  {
    hide Consistent, AssertionColsOf, Clashes;
    AssertionRowsDiffer(c, i, k, a, j, l, b);
  }

  lemma BindingRowsDiffer(i: SongId, s: SourceId, key: string, j: SongId, t: SourceId, other: string)
    ensures BindingRowOf(i, s, key) == BindingRowOf(j, t, other) ==> i == j && s == t && key == other
  {
    SourceLabels();
    hide ParseSource, SourceLabel;
    assert ParseSource(SourceLabel(s)) == Some(s) && ParseSource(SourceLabel(t)) == Some(t);
  }

  lemma EvidenceRowsDiffer(c: Catalog, i: SongId, b: BindingKey, e: EvidenceId, j: SongId, d: BindingKey, f: EvidenceId)
    requires Consistent(c) && Evidences(c, i, b, e) && Evidences(c, j, d, f)
    ensures BindingEvidenceRowOf(i, b, e) == BindingEvidenceRowOf(j, d, f) ==> i == j && b == d && e == f
  {
    BindingEvidenceParses(c, i, b, e);
    BindingEvidenceParses(c, j, d, f);
    hide Consistent, ParseSource, ParseEvidenceOf, BindingKeyOf;
    assert BindingEvidenceRowOf(i, b, e).binding.song == i && BindingEvidenceRowOf(j, d, f).binding.song == j;
    hide BindingEvidenceRowOf;
  }

  lemma AttributeRowsDiffer(c: Catalog, i: SongId, k: AttributeKey, name: string, j: SongId, l: AttributeKey,
                            other: string)
    requires Consistent(c) && i in c.songs && k in c.songs[i].links.attributes
    requires j in c.songs && l in c.songs[j].links.attributes
    ensures AttributeColsOf(i, k, name) == AttributeColsOf(j, l, other) ==> i == j && k == l && name == other
  {
    AttributeParses(c, i, k, name);
    AttributeParses(c, j, l, other);
    hide Consistent, ParseEvidenceOf, AttributeKeyOf;
    assert AttributeColsOf(i, k, name).of.binding.song == i && AttributeColsOf(i, k, name).name == name;
    assert AttributeColsOf(j, l, other).of.binding.song == j && AttributeColsOf(j, l, other).name == other;
    hide AttributeColsOf;
  }

  lemma DqnRowsDiffer(c: Catalog, name: TitleArtist, e: EvidenceId, pack: Option<string>,
                      other: TitleArtist, f: EvidenceId, more: Option<string>)
    requires Consistent(c) && Packs(c, name, e, pack) && Packs(c, other, f, more)
    ensures DqnRowOf(name, e, pack) == DqnRowOf(other, f, more) ==> name == other && e == f && pack == more
  {
    PackParses(c, name, e, pack);
    PackParses(c, other, f, more);
    hide Consistent, ParsePack, ParseEvidenceKey, EvidenceKey, Packs;
  }

  lemma LatestRowsDiffer(s: SourceId, r: SourceId)
    ensures SourceLabel(s) == SourceLabel(r) ==> s == r
  {
    SourceLabels();
  }

  lemma AuthorityRowsDiffer(c: Catalog, e: EvidenceId, f: EvidenceId)
    requires ConsistentEvidence(c) && e in c.evidence && f in c.evidence
    ensures ColsOf(IdOf(c.evidence[e])) == ColsOf(IdOf(c.evidence[f])) ==> e == f
  {
    ColsParse(e);
    ColsParse(f);
    hide ParseCols, ColsOf;
  }

  // ---------------------------------------------------------------- UNIQUE and CHECK

  // `songs.tachi_source_id UNIQUE`: a song is bound to its own Tachi record, and nobody else is.
  lemma TachiIdsAreUnique(nfc: Nfc, c: Catalog, i: SongId, j: SongId)
    requires Valid(nfc, c) && i in c.songs && j in c.songs
    ensures c.songs[i].tachiId == c.songs[j].tachiId ==> i == j
  {
    hide TitlesOk, SheetOk, LinksOk, RequiredOk, PrimaryOk, DqnOk, EvidencesOk, ExpectedStatus;
    assert SongOk(i, c.songs[i], c.evidence.Keys) && SongOk(j, c.songs[j], c.evidence.Keys);
  }

  // `source_bindings UNIQUE (source_id, source_key)`.
  lemma BoundKeysAreUnique(nfc: Nfc, c: Catalog, r: BindingRow, q: BindingRow)
    requires Valid(nfc, c) && r in BindingTable(c) && q in BindingTable(c)
    ensures r.source == q.source && r.key == q.key ==> r == q
  {
    BindingRowShape(c, r);
    BindingRowShape(c, q);
    BoundInSong(c, r);
    BoundInSong(c, q);
    hide SongOk, DqnOk, EvidencesOk, ExpectedStatus, BindingTable, BindingRowOf, ParseSource, Binds;
  }

  lemma BoundInSong(c: Catalog, r: BindingRow)
    requires r in BindingTable(c)
    ensures r.song in c.songs && ParseSource(r.source).Some?
    ensures Binds(c.songs[r.song].links, ParseSource(r.source).value, r.key)
  {
    SourceLabels();
    hide ParseSource, SourceLabel;
  }

  // `CHECK`: no pack name for the base game, and one for every pack.
  lemma PacksMeetTheCheck(c: Catalog, r: DqnRow)
    requires Consistent(c) && r in DqnEvidenceTable(c)
    ensures (r.kind == "base" && r.pack == "") || (r.kind == "pack" && r.pack != "")
  {
    hide ConsistentEvidence, ConsistentSong, KeyOk, EvidenceKey;
    var name, e, pack :| name in c.dqn && e in c.dqn[name].packs && pack in c.dqn[name].packs[e]
      && r == DqnRowOf(name, e, pack);
    assert ConsistentPacks(c.dqn[name].packs);
  }

  // ---------------------------------------------------------------- all INSERTs together

  // One INSERT of the writer, by the entry of the catalog it is for.
  datatype Insert =
    | OfEvidence(e: EvidenceId)
    | OfAuthority(e: EvidenceId, field: string)
    | OfLatest(source: SourceId)
    | OfSong(song: SongId)
    | OfTitle(song: SongId, title: Title)
    | OfChart(song: SongId, chart: ChartKey)
    | OfAssertion(song: SongId, chart: ChartKey, assertion: Assertion)
    | OfProduct(song: SongId, chart: ChartKey, assertion: Assertion, version: string)
    | OfBinding(song: SongId, source: SourceId, key: string)
    | OfBindingEvidence(song: SongId, binding: BindingKey, e: EvidenceId)
    | OfAttribute(song: SongId, attribute: AttributeKey, name: string)
    | OfDqn(named: TitleArtist)
    | OfPack(named: TitleArtist, e: EvidenceId, pack: Option<string>)

  // A table with the primary key of one of its rows.
  datatype Key =
    | InEvidence(evidence: EvidenceCols)
    | InAuthority(authority: AuthorityRow)
    | InLatest(source: string)
    | InSongs(song: SongId)
    | InTitles(title: TitleRow)
    | InCharts(chart: ChartCols)
    | InAssertions(assertion: AssertionCols)
    | InProducts(product: ProductRow)
    | InBindings(binding: BindingRow)
    | InBindingEvidence(evidenced: BindingEvidenceRow)
    | InAttributes(attribute: AttributeCols)
    | InDqn(named: TitleArtist)
    | InPacks(pack: DqnRow)

  predicate Inserted(c: Catalog, x: Insert) {
    match x
    case OfEvidence(e) => e in c.evidence
    case OfAuthority(e, f) => e in c.evidence && f in c.evidence[e].policy.authority
    case OfLatest(s) => s in c.latest
    case OfSong(i) => i in c.songs
    case OfTitle(i, t) => i in c.songs && t in c.songs[i].titles
    case OfChart(i, k) => i in c.songs && k in c.songs[i].sheet.charts
    case OfAssertion(i, k, a) => Asserts(c, i, k, a)
    case OfProduct(i, k, a, v) => Asserts(c, i, k, a) && v in a.versions
    case OfBinding(i, s, key) =>
      i in c.songs && s in c.songs[i].links.bindings && key in c.songs[i].links.bindings[s]
    case OfBindingEvidence(i, b, e) => Evidences(c, i, b, e)
    case OfAttribute(i, k, name) =>
      i in c.songs && k in c.songs[i].links.attributes && name in c.songs[i].links.attributes[k]
    case OfDqn(named) => named in c.dqn
    case OfPack(named, e, pack) => Packs(c, named, e, pack)
  }

  // The evidence is written under the id in its own columns.
  function KeyOfInsert(c: Catalog, x: Insert): Key
    requires Inserted(c, x)
  {
    match x
    case OfEvidence(e) => InEvidence(ColsOf(IdOf(c.evidence[e])))
    case OfAuthority(e, f) => InAuthority(AuthorityRow(ColsOf(IdOf(c.evidence[e])), f))
    case OfLatest(s) => InLatest(SourceLabel(s))
    case OfSong(i) => InSongs(i)
    case OfTitle(i, t) => InTitles(TitleRowOf(i, t))
    case OfChart(i, k) => InCharts(ChartColsOf(i, k))
    case OfAssertion(i, k, a) => InAssertions(AssertionColsOf(i, k, a))
    case OfProduct(i, k, a, v) => InProducts(ProductRow(AssertionColsOf(i, k, a), v))
    case OfBinding(i, s, key) => InBindings(BindingRowOf(i, s, key))
    case OfBindingEvidence(i, b, e) => InBindingEvidence(BindingEvidenceRowOf(i, b, e))
    case OfAttribute(i, k, name) => InAttributes(AttributeColsOf(i, k, name))
    case OfDqn(named) => InDqn(named)
    case OfPack(named, e, pack) => InPacks(DqnRowOf(named, e, pack))
  }

  // The rows of two clashing assertions, or of one version of theirs.
  predicate ClashingInserts(x: Insert, y: Insert) {
    || (x.OfAssertion? && y.OfAssertion? && x.song == y.song && x.chart == y.chart && Clashes(x.assertion, y.assertion))
    || (x.OfProduct? && y.OfProduct? && x.song == y.song && x.chart == y.chart && x.version == y.version
        && Clashes(x.assertion, y.assertion))
  }

  lemma SharedKey(c: Catalog, x: Insert, y: Insert)
    requires Consistent(c) && Inserted(c, x) && Inserted(c, y) && KeyOfInsert(c, x) == KeyOfInsert(c, y)
    ensures x == y || ClashingInserts(x, y)
  {
    hide Consistent, TitleRowOf, ChartColsOf, AssertionColsOf, BindingRowOf, BindingEvidenceRowOf, AttributeColsOf;
    hide DqnRowOf, ColsOf, IdOf, SourceLabel, Clashes;
    match x
    case OfEvidence(e) => EvidenceIsConsistent(c); AuthorityRowsDiffer(c, e, y.e);
    case OfAuthority(e, _) => EvidenceIsConsistent(c); AuthorityRowsDiffer(c, e, y.e);
    case OfLatest(s) => LatestRowsDiffer(s, y.source);
    case OfSong(_) =>
    case OfTitle(i, t) => TitleRowsDiffer(c, i, t, y.song, y.title);
    case OfChart(i, k) => ChartRowsDiffer(i, k, y.song, y.chart);
    case OfAssertion(i, k, a) => AssertionRowsDiffer(c, i, k, a, y.song, y.chart, y.assertion);
    case OfProduct(i, k, a, v) => ProductRowsDiffer(c, i, k, a, v, y.song, y.chart, y.assertion, y.version);
    case OfBinding(i, s, key) => BindingRowsDiffer(i, s, key, y.song, y.source, y.key);
    case OfBindingEvidence(i, b, e) => EvidenceRowsDiffer(c, i, b, e, y.song, y.binding, y.e);
    case OfAttribute(i, k, name) => AttributeRowsDiffer(c, i, k, name, y.song, y.attribute, y.name);
    case OfDqn(_) =>
    case OfPack(named, e, pack) => DqnRowsDiffer(c, named, e, pack, y.named, y.e, y.pack);
  }

  lemma EvidenceIsConsistent(c: Catalog)
    requires Consistent(c)
    ensures ConsistentEvidence(c)
  {
  }

  // Two different entries of the catalog are inserted into one table under one primary key.
  ghost predicate KeyRepeats(c: Catalog) {
    exists x, y ::
      Inserted(c, x) && Inserted(c, y) && x != y && KeyOfInsert(c, x) == KeyOfInsert(c, y)
  }

  lemma ClashRepeatsKey(c: Catalog)
    requires Clash(c)
    ensures KeyRepeats(c)
  {
    hide AssertionColsOf;
    ClashIsCollision(c);
    var p, q :| p in SongItems(c, c.songs.Keys) && q in SongItems(c, c.songs.Keys) && p != q
      && ColsOfItem(p) == ColsOfItem(q);
    var x, y := OfAssertion(p.song, p.key, p.assertion), OfAssertion(q.song, q.key, q.assertion);
    assert Inserted(c, x) && Inserted(c, y) && KeyOfInsert(c, x) == KeyOfInsert(c, y);
  }

  lemma ClashingInsertsClash(c: Catalog, x: Insert, y: Insert)
    requires Inserted(c, x) && Inserted(c, y) && ClashingInserts(x, y)
    ensures Clash(c)
  {
    assert Asserts(c, x.song, x.chart, x.assertion) && Asserts(c, x.song, x.chart, y.assertion);
    hide Clashes;
  }

  /** Of all the rows a valid catalog is written as, only the key of an assertion can be taken: by a different assertion
      of the chart with the same evidence and chart id, and exactly when the catalog has two such assertions. */
  lemma KeyRepeatsExactly(nfc: Nfc, c: Catalog)
    requires Valid(nfc, c) && Widths(c)
    ensures forall x, y |
              Inserted(c, x) && Inserted(c, y) && x != y && KeyOfInsert(c, x) == KeyOfInsert(c, y) ::
              ClashingInserts(x, y)
    ensures KeyRepeats(c) <==> Clash(c)
  {
    ValidIsConsistent(nfc, c);
    hide Valid, Consistent, Full, Clash, Inserted, KeyOfInsert, ClashingInserts;
    forall x, y | Inserted(c, x) && Inserted(c, y) && x != y && KeyOfInsert(c, x) == KeyOfInsert(c, y)
      ensures ClashingInserts(x, y)
    {
      SharedKey(c, x, y);
    }
    if KeyRepeats(c) {
      var x, y :| Inserted(c, x) && Inserted(c, y) && x != y && KeyOfInsert(c, x) == KeyOfInsert(c, y);
      ClashingInsertsClash(c, x, y);
    }
    if Clash(c) {
      ClashRepeatsKey(c);
    }
  }

  lemma ClashIsSharedKey(c: Catalog)
    requires Consistent(c)
    ensures Clash(c) <==> Collision(SongItems(c, c.songs.Keys))
  {
    hide Consistent, Clash, Collision, SongItems;
    if Clash(c) {
      ClashIsCollision(c);
    }
    if Collision(SongItems(c, c.songs.Keys)) {
      CollisionIsClash(c);
    }
  }

  predicate UniqueTachiIds(c: Catalog) {
    forall i, j | i in c.songs && j in c.songs && c.songs[i].tachiId == c.songs[j].tachiId :: i == j
  }

  predicate UniqueBoundKeys(rows: set<BindingRow>) {
    forall r, q | r in rows && q in rows && r.source == q.source && r.key == q.key :: r == q
  }

  predicate PacksChecked(rows: set<DqnRow>) {
    forall r | r in rows :: (r.kind == "base" && r.pack == "") || (r.kind == "pack" && r.pack != "")
  }

  /** Of the UNIQUE and CHECK constraints a valid catalog violates none, and the primary key of the assertions exactly
      when two assertions share its columns. */
  lemma OnlyAssertionsClash(nfc: Nfc, c: Catalog)
    requires Valid(nfc, c) && Widths(c)
    ensures UniqueTachiIds(c) && UniqueBoundKeys(BindingTable(c)) && PacksChecked(DqnEvidenceTable(c))
    ensures Clash(c) <==> Collision(SongItems(c, c.songs.Keys))
  {
    ValidIsConsistent(nfc, c);
    hide Valid, Consistent, Full, Clash, Collision, SongItems, BindingTable, DqnEvidenceTable;
    ClashIsSharedKey(c);
    forall i, j | i in c.songs && j in c.songs && c.songs[i].tachiId == c.songs[j].tachiId ensures i == j {
      TachiIdsAreUnique(nfc, c, i, j);
    }
    BoundKeysAllUnique(nfc, c);
    PacksAllChecked(c);
  }

  lemma BoundKeysAllUnique(nfc: Nfc, c: Catalog)
    requires Valid(nfc, c)
    ensures UniqueBoundKeys(BindingTable(c))
  {
    hide Valid, BindingTable;
    forall r, q | r in BindingTable(c) && q in BindingTable(c) && r.source == q.source && r.key == q.key
      ensures r == q
    {
      BoundKeysAreUnique(nfc, c, r, q);
    }
  }

  lemma PacksAllChecked(c: Catalog)
    requires Consistent(c)
    ensures PacksChecked(DqnEvidenceTable(c))
  {
    hide Consistent, DqnEvidenceTable;
    forall r | r in DqnEvidenceTable(c)
      ensures (r.kind == "base" && r.pack == "") || (r.kind == "pack" && r.pack != "")
    {
      PacksMeetTheCheck(c, r);
    }
  }
}
