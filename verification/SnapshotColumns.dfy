// What the written tables say, column by column: every row stands for one fact of the catalog in the texts of the
// file format, and every fact has its row.
module SnapshotColumns {
  import opened Common
  import opened CatalogModel
  import opened SnapshotTables
  import opened SnapshotRoundTrip
  import opened SnapshotStore

  // ---------------------------------------------------------------- the texts of the file format

  predicate NamesSource(text: string, x: SourceId) {
    (x.Tachi? && text == "tachi") || (x.Textage? && text == "textage") || (x.Dqn? && text == "dqn_iidxapi")
  }

  predicate NamesChart(play: string, difficulty: string, k: ChartKey) {
    && ((k.play.Single? && play == "single") || (k.play.Double? && play == "double"))
    && (|| (k.difficulty.Beginner? && difficulty == "beginner") || (k.difficulty.Normal? && difficulty == "normal")
        || (k.difficulty.Hyper? && difficulty == "hyper") || (k.difficulty.Another? && difficulty == "another")
        || (k.difficulty.Leggendaria? && difficulty == "leggendaria"))
  }

  predicate NamesKind(text: string, x: TitleKind) {
    || (x.InGameDisplay? && text == "in_game_display") || (x.OfficialDisplay? && text == "official_display")
    || (x.EamusementCsv? && text == "eamusement_csv") || (x.AlternateDisplay? && text == "alternate_display")
    || (x.SearchTerm? && text == "search_term")
  }

  predicate NamesStatus(text: string, x: Status) {
    || (x.ConfirmedPresent? && text == "confirmed_present") || (x.Unknown? && text == "unknown")
    || (x.Conflicted? && text == "conflicted")
  }

  predicate NamesPolicy(lineage: string, strategy: string, p: Policy) {
    && (|| (p.lineage.GameMdb? && lineage == "game_mdb") || (p.lineage.TextageLineage? && lineage == "textage")
        || (p.lineage.OfficialInfinitasHtml? && lineage == "official_infinitas_html"))
    && ((p.strategy.GitCommit? && strategy == "git_commit")
        || (p.strategy.ContentSha256? && strategy == "content_sha256"))
  }

  // The digest column joins the revision and the digest of an evidence.
  predicate NamesEvidence(digest: string, e: EvidenceId) {
    digest == e.revision + ":" + e.sha
  }

  // ---------------------------------------------------------------- rows and facts

  predicate RowIs<K(==), V(==)>(rows: map<K, V>, key: K, row: V) {
    key in rows && rows[key] == row
  }

  predicate StandsForTitle(r: TitleRow, t: Title) {
    NamesSource(r.source, t.source) && NamesEvidence(r.digest, t.evidence) && NamesKind(r.kind, t.kind)
    && r.value == t.value
  }

  predicate StandsForChart(x: ChartCols, id: SongId, k: ChartKey) {
    x.song == id && NamesChart(x.play, x.difficulty, k)
  }

  predicate StandsForAssertion(x: AssertionCols, id: SongId, k: ChartKey, a: Assertion) {
    StandsForChart(x.chart, id, k) && NamesSource(x.source, a.evidence.source) && NamesEvidence(x.digest, a.evidence)
    && x.chartId == a.chartId
  }

  predicate StandsForBinding(r: BindingRow, id: SongId, b: BindingKey) {
    r.song == id && NamesSource(r.source, b.source) && r.key == b.key
  }

  predicate StandsForCitation(r: BindingEvidenceRow, id: SongId, b: BindingKey, e: EvidenceId) {
    StandsForBinding(r.binding, id, b) && NamesEvidence(r.digest, e)
  }

  predicate StandsForEvidence(k: EvidenceCols, id: EvidenceId) {
    NamesSource(k.source, id.source) && k.revision == id.revision && k.sha == id.sha
  }

  predicate StandsForPack(r: DqnRow, e: EvidenceId, pack: Option<string>) {
    && NamesEvidence(r.digest, e)
    && match pack
       case None => r.kind == "base" && r.pack == ""
       case Some(text) => r.kind == "pack" && r.pack == text
  }

  // ---------------------------------------------------------------- songs

  ghost predicate SongsWritten(c: Catalog, t: SongTables) {
    && t.songs.Keys == c.songs.Keys
    && (forall id | id in c.songs ::
          && t.songs[id].tachiId == c.songs[id].tachiId && t.songs[id].artist == c.songs[id].artist
          && t.songs[id].version == c.songs[id].version && t.songs[id].primary == c.songs[id].primary
          && NamesStatus(t.songs[id].status, c.songs[id].status))
  }

  ghost predicate TitlesWritten(c: Catalog, rows: set<TitleRow>) {
    forall r :: r in rows <==> exists t :: r.song in c.songs && t in c.songs[r.song].titles && StandsForTitle(r, t)
  }

  ghost predicate ChartsWritten(c: Catalog, rows: map<ChartCols, ChartRow>) {
    && (forall x :: x in rows <==>
          exists k :: x.song in c.songs && k in c.songs[x.song].sheet.charts && StandsForChart(x, x.song, k))
    && (forall x, k |
          x in rows && x.song in c.songs && k in c.songs[x.song].sheet.charts && StandsForChart(x, x.song, k) ::
          && rows[x].level == c.songs[x.song].sheet.charts[k].level
          && rows[x].notes == c.songs[x.song].sheet.charts[k].notes)
  }

  lemma SongRows(c: Catalog)
    ensures SongsWritten(c, Rows(c).songs)
  {
    hide EvidenceTable, AuthorityTable, LatestTable, TitleTable, ChartTable, AssertionTable, ProductTable;
    hide BindingTable, BindingEvidenceTable, SnapshotTables.AttributeTable, DqnEvidenceTable;
  }

  lemma TitleStands(r: TitleRow, t: Title)
    ensures StandsForTitle(r, t) <==> r == TitleRowOf(r.song, t)
  {
  }

  lemma TitleRows(c: Catalog)
    ensures TitlesWritten(c, TitleTable(c))
  {
    hide StandsForTitle, TitleRowOf;
    forall r
      ensures r in TitleTable(c) <==>
                exists t :: r.song in c.songs && t in c.songs[r.song].titles && StandsForTitle(r, t)
    {
      if r in TitleTable(c) {
        var id, t :| id in c.songs && t in c.songs[id].titles && r == TitleRowOf(id, t);
        RowSong(id, t);
        TitleStands(r, t);
      }
      if t :| r.song in c.songs && t in c.songs[r.song].titles && StandsForTitle(r, t) {
        TitleStands(r, t);
      }
    }
  }

  lemma RowSong(id: SongId, t: Title)
    ensures TitleRowOf(id, t).song == id
  {
  }

  lemma ChartStands(x: ChartCols, k: ChartKey)
    ensures StandsForChart(x, x.song, k) <==> x == ChartColsOf(x.song, k)
  {
  }

  lemma ChartRows(c: Catalog)
    ensures ChartsWritten(c, ChartTable(c))
  {
    forall x
      ensures x in ChartTable(c) <==>
                exists k :: x.song in c.songs && k in c.songs[x.song].sheet.charts && StandsForChart(x, x.song, k)
    {
      if x in ChartTable(c) {
        ChartColsParse(x);
        ChartStands(x, ParseChartKey(x).value);
      }
      if k :| x.song in c.songs && k in c.songs[x.song].sheet.charts && StandsForChart(x, x.song, k) {
        ChartStands(x, k);
        ChartTableHas(c, x.song, k);
      }
    }
    hide ChartTable, StandsForChart, ChartColsOf;
    forall x, k |
      x in ChartTable(c) && x.song in c.songs && k in c.songs[x.song].sheet.charts && StandsForChart(x, x.song, k)
      ensures
        && ChartTable(c)[x].level == c.songs[x.song].sheet.charts[k].level
        && ChartTable(c)[x].notes == c.songs[x.song].sheet.charts[k].notes
    {
      ChartStands(x, k);
      ChartTableHas(c, x.song, k);
    }
  }

  // ---------------------------------------------------------------- assertions

  // The row stands for some assertion of the catalog.
  ghost predicate StandsForSome(c: Catalog, x: AssertionCols) {
    exists id, k, a :: Asserts(c, id, k, a) && StandsForAssertion(x, id, k, a)
  }

  ghost predicate AssertionsWritten(c: Catalog, rows: map<AssertionCols, bool>) {
    && (forall x :: x in rows <==> StandsForSome(c, x))
    && (forall x, id, k, a | x in rows && Asserts(c, id, k, a) && StandsForAssertion(x, id, k, a) ::
          rows[x] == a.primary)
  }

  ghost predicate ProductsWritten(c: Catalog, rows: set<ProductRow>) {
    forall r :: r in rows <==>
      exists id, k, a :: Asserts(c, id, k, a) && StandsForAssertion(r.of, id, k, a) && r.version in a.versions
  }

  lemma AssertionStands(x: AssertionCols, id: SongId, k: ChartKey, a: Assertion)
    ensures StandsForAssertion(x, id, k, a) <==> x == AssertionColsOf(id, k, a)
  {
  }

  lemma AssertionRowsStand(c: Catalog)
    requires Consistent(c) && !Clash(c)
    ensures AssertionsWritten(c, SnapshotTables.AssertionTable(c))
  {
    hide Consistent, Clash, StandsForAssertion, SnapshotTables.AssertionTable, AssertionColsOf, PrimaryAt, Asserts;
    forall x ensures x in AssertionTable(c) <==> StandsForSome(c, x) {
      AssertionTableHas(c, x);
      if id, k, a :| Asserts(c, id, k, a) && x == AssertionColsOf(id, k, a) {
        AssertionStands(x, id, k, a);
      }
      if id, k, a :| Asserts(c, id, k, a) && StandsForAssertion(x, id, k, a) {
        AssertionStands(x, id, k, a);
      }
    }
    forall x, id, k, a | x in AssertionTable(c) && Asserts(c, id, k, a) && StandsForAssertion(x, id, k, a)
      ensures AssertionTable(c)[x] == a.primary
    {
      AssertionStands(x, id, k, a);
      PrimaryRead(c, id, k, a);
      AssertedValue(c, x);
    }
  }

  lemma AssertedValue(c: Catalog, x: AssertionCols)
    requires x in AssertionTable(c)
    ensures AssertionTable(c)[x] == PrimaryAt(c, x)
  {
    hide AssertionRows, PrimaryAt;
  }

  lemma ProductRows(c: Catalog)
    ensures ProductsWritten(c, ProductTable(c))
  {
    hide StandsForAssertion, AssertionColsOf;
    forall r
      ensures r in ProductTable(c) <==>
                exists id, k, a ::
                  Asserts(c, id, k, a) && StandsForAssertion(r.of, id, k, a) && r.version in a.versions
    {
      if r in ProductTable(c) {
        var id, k, a, v :| Asserts(c, id, k, a) && v in a.versions && r == ProductRow(AssertionColsOf(id, k, a), v);
        AssertionStands(r.of, id, k, a);
      }
      if id, k, a :| Asserts(c, id, k, a) && StandsForAssertion(r.of, id, k, a) && r.version in a.versions {
        AssertionStands(r.of, id, k, a);
        assert r == ProductRow(AssertionColsOf(id, k, a), r.version);
      }
    }
  }

  // ---------------------------------------------------------------- links

  ghost predicate BindingsWritten(c: Catalog, rows: set<BindingRow>) {
    forall r :: r in rows <==>
      exists b: BindingKey ::
        r.song in c.songs && Binds(c.songs[r.song].links, b.source, b.key) && StandsForBinding(r, r.song, b)
  }

  predicate Cites(c: Catalog, id: SongId, b: BindingKey, e: EvidenceId) {
    id in c.songs && b in c.songs[id].links.evidence && e in c.songs[id].links.evidence[b]
  }

  ghost predicate CitationsWritten(c: Catalog, rows: set<BindingEvidenceRow>) {
    forall r :: r in rows <==>
      exists b, e :: Cites(c, r.binding.song, b, e) && StandsForCitation(r, r.binding.song, b, e)
  }

  predicate Says(c: Catalog, id: SongId, k: AttributeKey, name: string, value: string) {
    && id in c.songs && k in c.songs[id].links.attributes
    && name in c.songs[id].links.attributes[k] && c.songs[id].links.attributes[k][name] == value
  }

  ghost predicate AttributesWritten(c: Catalog, rows: map<AttributeCols, string>) {
    forall x, value :: RowIs(rows, x, value) <==>
      exists k ::
        && Says(c, x.of.binding.song, k, x.name, value)
        && StandsForCitation(x.of, x.of.binding.song, BindingKey(k.source, k.key), k.evidence)
  }

  lemma BindingStands(r: BindingRow, b: BindingKey)
    ensures StandsForBinding(r, r.song, b) <==> r == BindingRowOf(r.song, b.source, b.key)
  {
  }

  lemma BindingColumns(id: SongId, b: BindingKey)
    ensures BindingRowOf(id, b.source, b.key).song == id
  {
  }

  lemma BindingRows(c: Catalog)
    ensures BindingsWritten(c, BindingTable(c))
  {
    hide StandsForBinding;
    forall r
      ensures r in BindingTable(c) <==>
                exists b: BindingKey ::
                  r.song in c.songs && Binds(c.songs[r.song].links, b.source, b.key) && StandsForBinding(r, r.song, b)
    {
      if r in BindingTable(c) {
        var id, s, key :| id in c.songs && Binds(c.songs[id].links, s, key) && r == BindingRowOf(id, s, key);
        var b := BindingKey(s, key);
        BindingColumns(id, b);
        BindingStands(r, b);
        assert r.song == id && Binds(c.songs[r.song].links, b.source, b.key) && StandsForBinding(r, r.song, b);
      }
      if b: BindingKey :|
        r.song in c.songs && Binds(c.songs[r.song].links, b.source, b.key) && StandsForBinding(r, r.song, b) {
        BindingStands(r, b);
        assert r == BindingRowOf(r.song, b.source, b.key) && b.key in c.songs[r.song].links.bindings[b.source];
      }
    }
  }

  lemma CitationStands(r: BindingEvidenceRow, b: BindingKey, e: EvidenceId)
    ensures StandsForCitation(r, r.binding.song, b, e) <==> r == BindingEvidenceRowOf(r.binding.song, b, e)
  {
  }

  lemma CitationColumns(id: SongId, b: BindingKey, e: EvidenceId)
    ensures BindingEvidenceRowOf(id, b, e).binding.song == id
  {
  }

  lemma CitationRows(c: Catalog)
    ensures CitationsWritten(c, BindingEvidenceTable(c))
  {
    hide StandsForCitation;
    forall r
      ensures r in BindingEvidenceTable(c) <==>
                exists b, e :: Cites(c, r.binding.song, b, e) && StandsForCitation(r, r.binding.song, b, e)
    {
      if r in BindingEvidenceTable(c) {
        var id, b, e :| Cites(c, id, b, e) && r == BindingEvidenceRowOf(id, b, e);
        CitationColumns(id, b, e);
        CitationStands(r, b, e);
        assert r.binding.song == id && Cites(c, r.binding.song, b, e);
      }
      if b, e :| Cites(c, r.binding.song, b, e) && StandsForCitation(r, r.binding.song, b, e) {
        CitationStands(r, b, e);
        assert r == BindingEvidenceRowOf(r.binding.song, b, e) && e in c.songs[r.binding.song].links.evidence[b];
      }
    }
  }

  // The row of an attribute's key and evidence, under its name.
  lemma AttributeStands(x: AttributeCols, k: AttributeKey)
    ensures StandsForCitation(x.of, x.of.binding.song, BindingKey(k.source, k.key), k.evidence)
            <==> x == AttributeColsOf(x.of.binding.song, k, x.name)
  {
    CitationStands(x.of, BindingKey(k.source, k.key), k.evidence);
    hide StandsForCitation;
  }

  lemma AttributeRow(c: Catalog, x: AttributeCols, k: AttributeKey)
    requires Consistent(c) && x == AttributeColsOf(x.of.binding.song, k, x.name)
    requires Attributes(c, x.of.binding.song, k, x.name)
    ensures x in SnapshotTables.AttributeTable(c)
    ensures Says(c, x.of.binding.song, k, x.name, SnapshotTables.AttributeTable(c)[x])
  {
    AttributeTableHas(c, x);
    AttributeParses(c, x.of.binding.song, k, x.name);
    hide SnapshotTables.AttributeTable, Consistent, ParseEvidenceOf;
  }

  lemma AttributeRowsStand(c: Catalog)
    requires Consistent(c)
    ensures AttributesWritten(c, SnapshotTables.AttributeTable(c))
  {
    var rows := SnapshotTables.AttributeTable(c);
    hide SnapshotTables.AttributeTable, Consistent, StandsForCitation, AttributeColsOf, AttributeWritten;
    forall x, value
      ensures RowIs(rows, x, value) <==>
        exists k ::
          && Says(c, x.of.binding.song, k, x.name, value)
          && StandsForCitation(x.of, x.of.binding.song, BindingKey(k.source, k.key), k.evidence)
    {
      if RowIs(rows, x, value) {
        AttributeTableHas(c, x);
        var id, k, name :| Attributes(c, id, k, name) && x == AttributeColsOf(id, k, name);
        AttributeColumns(id, k, name);
        AttributeRow(c, x, k);
        AttributeStands(x, k);
      }
      if k :| && Says(c, x.of.binding.song, k, x.name, value)
              && StandsForCitation(x.of, x.of.binding.song, BindingKey(k.source, k.key), k.evidence) {
        AttributeStands(x, k);
        AttributeRow(c, x, k);
      }
    }
  }

  lemma AttributeColumns(id: SongId, k: AttributeKey, name: string)
    ensures AttributeColsOf(id, k, name).of.binding.song == id && AttributeColsOf(id, k, name).name == name
  {
  }

  // ---------------------------------------------------------------- evidence

  ghost predicate EvidenceWritten(c: Catalog, rows: map<EvidenceCols, EvidenceRow>) {
    && (forall k :: k in rows <==> exists id :: id in c.evidence && StandsForEvidence(k, id))
    && (forall k, id | k in rows && id in c.evidence && StandsForEvidence(k, id) ::
          EvidenceSays(rows[k], c.evidence[id]))
  }

  predicate EvidenceSays(r: EvidenceRow, e: Evidence) {
    && NamesPolicy(r.lineage, r.strategy, e.policy) && r.bytes == e.bytes && r.records == e.records
    && r.parser == e.policy.parser && r.scope == e.policy.scope && r.freshness == e.policy.freshness
    && r.rights == e.policy.rights
  }

  ghost predicate AuthorityWritten(c: Catalog, rows: set<AuthorityRow>) {
    forall r :: r in rows <==>
      exists id :: id in c.evidence && StandsForEvidence(r.of, id) && r.field in c.evidence[id].policy.authority
  }

  ghost predicate LatestWritten(c: Catalog, rows: map<string, LatestRow>) {
    forall source, row :: RowIs(rows, source, row) <==>
      exists x :: && x in c.latest && NamesSource(source, x)
                  && row.revision == c.latest[x].revision && row.sha == c.latest[x].sha
  }

  lemma EvidenceStands(k: EvidenceCols, id: EvidenceId)
    ensures StandsForEvidence(k, id) <==> k == ColsOf(id)
  {
  }

  lemma EvidenceRowsStand(c: Catalog)
    requires ConsistentEvidence(c)
    ensures EvidenceWritten(c, EvidenceTable(c))
  {
    hide EvidenceTable, StandsForEvidence, ColsOf, EvidenceSays, ParseCols, EvidenceRowOf;
    forall k ensures k in EvidenceTable(c) <==> exists id :: id in c.evidence && StandsForEvidence(k, id) {
      EvidenceTableHas(c, k);
      if id :| id in c.evidence && k == ColsOf(id) {
        EvidenceStands(k, id);
      }
      if id :| id in c.evidence && StandsForEvidence(k, id) {
        EvidenceStands(k, id);
      }
    }
    forall k, id | k in EvidenceTable(c) && id in c.evidence && StandsForEvidence(k, id)
      ensures EvidenceSays(EvidenceTable(c)[k], c.evidence[id])
    {
      EvidenceTableHas(c, k);
      EvidenceStands(k, id);
      ColsParse(id);
      RowSays(c.evidence[id]);
    }
  }

  lemma RowSays(e: Evidence)
    ensures EvidenceSays(EvidenceRowOf(e), e)
  {
  }

  lemma AuthorityRowsStand(c: Catalog)
    requires ConsistentEvidence(c)
    ensures AuthorityWritten(c, AuthorityTable(c))
  {
    hide StandsForEvidence, ColsOf;
    forall r
      ensures r in AuthorityTable(c) <==>
        exists id :: id in c.evidence && StandsForEvidence(r.of, id) && r.field in c.evidence[id].policy.authority
    {
      if r in AuthorityTable(c) {
        var id, f :| id in c.evidence && f in c.evidence[id].policy.authority
          && r == AuthorityRow(ColsOf(IdOf(c.evidence[id])), f);
        EvidenceStands(r.of, id);
      }
      if id :| id in c.evidence && StandsForEvidence(r.of, id) && r.field in c.evidence[id].policy.authority {
        EvidenceStands(r.of, id);
        assert r == AuthorityRow(ColsOf(IdOf(c.evidence[id])), r.field);
      }
    }
  }

  lemma SourceNamed(text: string, x: SourceId)
    ensures NamesSource(text, x) <==> text == SourceLabel(x)
  {
  }

  lemma LatestRowsStand(c: Catalog)
    ensures LatestWritten(c, LatestTable(c))
  {
    hide LatestTable, NamesSource, SourceLabel;
    forall source, row
      ensures RowIs(LatestTable(c), source, row) <==>
        exists x :: && x in c.latest && NamesSource(source, x)
                    && row.revision == c.latest[x].revision && row.sha == c.latest[x].sha
    {
      if RowIs(LatestTable(c), source, row) {
        var x := LatestSource(c, source);
        SourceNamed(source, x);
        LatestTableHas(c, x);
      }
      if x :| && x in c.latest && NamesSource(source, x)
              && row.revision == c.latest[x].revision && row.sha == c.latest[x].sha {
        SourceNamed(source, x);
        LatestTableHas(c, x);
      }
    }
  }

  lemma LatestSource(c: Catalog, source: string) returns (x: SourceId)
    requires source in LatestTable(c)
    ensures x in c.latest && source == SourceLabel(x)
  {
    x :| x in c.latest && source == SourceLabel(x);
  }

  // ---------------------------------------------------------------- dqn names

  ghost predicate NamesWritten(c: Catalog, t: DqnTables) {
    && t.bindings.Keys == c.dqn.Keys && (forall name | name in c.dqn :: t.bindings[name] == c.dqn[name].song)
    && (forall r :: r in t.evidence <==>
          exists e, pack ::
            && r.name in c.dqn && e in c.dqn[r.name].packs && pack in c.dqn[r.name].packs[e]
            && StandsForPack(r, e, pack))
  }

  lemma PackStands(r: DqnRow, e: EvidenceId, pack: Option<string>)
    ensures StandsForPack(r, e, pack) <==> r == DqnRowOf(r.name, e, pack)
  {
  }

  lemma NameRows(c: Catalog)
    ensures NamesWritten(c, DqnTables(DqnTable(c), DqnEvidenceTable(c)))
  {
    hide StandsForPack;
    forall r
      ensures r in DqnEvidenceTable(c) <==>
        exists e, pack ::
          && r.name in c.dqn && e in c.dqn[r.name].packs && pack in c.dqn[r.name].packs[e]
          && StandsForPack(r, e, pack)
    {
      if r in DqnEvidenceTable(c) {
        var name, e, pack :| name in c.dqn && e in c.dqn[name].packs && pack in c.dqn[name].packs[e]
          && r == DqnRowOf(name, e, pack);
        PackStands(r, e, pack);
      }
      if e, pack :| && r.name in c.dqn && e in c.dqn[r.name].packs && pack in c.dqn[r.name].packs[e]
                    && StandsForPack(r, e, pack) {
        PackStands(r, e, pack);
      }
    }
  }

  // ---------------------------------------------------------------- the whole file

  /** A catalog is written exactly when it is valid and no two assertions clash, and then every table holds one row for
      every fact and no other, in the texts of the file format. */
  lemma FileSaysTheCatalog(nfc: Nfc, c: Catalog)
    requires Widths(c)
    ensures Write(nfc, c).Ok? <==> Valid(nfc, c) && !Clash(c)
    ensures
      Write(nfc, c).Ok? ==>
        var t := Write(nfc, c).value;
        && SongsWritten(c, t.songs) && TitlesWritten(c, t.songs.titles) && ChartsWritten(c, t.songs.charts)
        && AssertionsWritten(c, t.songs.assertions) && ProductsWritten(c, t.songs.products)
        && BindingsWritten(c, t.links.bindings) && CitationsWritten(c, t.links.evidence)
        && AttributesWritten(c, t.links.attributes)
        && EvidenceWritten(c, t.evidence.evidence) && AuthorityWritten(c, t.evidence.authority)
        && LatestWritten(c, t.evidence.latest) && NamesWritten(c, t.dqn)
  {
    if Valid(nfc, c) && !Clash(c) {
      ValidIsConsistent(nfc, c);
      assert ConsistentEvidence(c);
      hide Valid, Clash, Consistent, Widths, ConsistentEvidence;
      SongRows(c);
      TitleRows(c);
      ChartRows(c);
      AssertionRowsStand(c);
      ProductRows(c);
      BindingRows(c);
      CitationRows(c);
      AttributeRowsStand(c);
      EvidenceRowsStand(c);
      AuthorityRowsStand(c);
      LatestRowsStand(c);
      NameRows(c);
      hide SongsWritten, TitlesWritten, ChartsWritten, AssertionsWritten, ProductsWritten, BindingsWritten;
      hide CitationsWritten, AttributesWritten, EvidenceWritten, AuthorityWritten, LatestWritten, NamesWritten;
    }
    hide Valid, Clash;
  }
}
