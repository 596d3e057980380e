// The catalog as the rows of its snapshot tables: every row the publisher writes, and every row the reader accepts.
module SnapshotTables {
  import opened Common
  import opened CatalogModel

  // ---------------------------------------------------------------- labels

  function SourceLabel(x: SourceId): string {
    match x case Tachi => "tachi" case Textage => "textage" case Dqn => "dqn_iidxapi"
  }

  function ParseSource(s: string): Option<SourceId> {
    if s == "tachi" then Some(Tachi)
    else if s == "textage" then Some(Textage)
    else if s == "dqn_iidxapi" then Some(Dqn)
    else None
  }

  function LineageLabel(x: Lineage): string {
    match x
    case GameMdb => "game_mdb"
    case TextageLineage => "textage"
    case OfficialInfinitasHtml => "official_infinitas_html"
  }

  function ParseLineage(s: string): Option<Lineage> {
    if s == "game_mdb" then Some(GameMdb)
    else if s == "textage" then Some(TextageLineage)
    else if s == "official_infinitas_html" then Some(OfficialInfinitasHtml)
    else None
  }

  function StrategyLabel(x: Strategy): string {
    match x case GitCommit => "git_commit" case ContentSha256 => "content_sha256"
  }

  function ParseStrategy(s: string): Option<Strategy> {
    if s == "git_commit" then Some(GitCommit) else if s == "content_sha256" then Some(ContentSha256) else None
  }

  function PlayLabel(x: PlayType): string {
    match x case Single => "single" case Double => "double"
  }

  function ParsePlay(s: string): Option<PlayType> {
    if s == "single" then Some(Single) else if s == "double" then Some(Double) else None
  }

  function DifficultyLabel(x: Difficulty): string {
    match x
    case Beginner => "beginner"
    case Normal => "normal"
    case Hyper => "hyper"
    case Another => "another"
    case Leggendaria => "leggendaria"
  }

  function ParseDifficulty(s: string): Option<Difficulty> {
    if s == "beginner" then Some(Beginner)
    else if s == "normal" then Some(Normal)
    else if s == "hyper" then Some(Hyper)
    else if s == "another" then Some(Another)
    else if s == "leggendaria" then Some(Leggendaria)
    else None
  }

  function KindLabel(x: TitleKind): string {
    match x
    case InGameDisplay => "in_game_display"
    case OfficialDisplay => "official_display"
    case EamusementCsv => "eamusement_csv"
    case AlternateDisplay => "alternate_display"
    case SearchTerm => "search_term"
  }

  function ParseKind(s: string): Option<TitleKind> {
    if s == "in_game_display" then Some(InGameDisplay)
    else if s == "official_display" then Some(OfficialDisplay)
    else if s == "eamusement_csv" then Some(EamusementCsv)
    else if s == "alternate_display" then Some(AlternateDisplay)
    else if s == "search_term" then Some(SearchTerm)
    else None
  }

  function StatusLabel(x: Status): string {
    match x
    case ConfirmedPresent => "confirmed_present"
    case Unknown => "unknown"
    case Conflicted => "conflicted"
  }

  function ParseStatus(s: string): Option<Status> {
    if s == "confirmed_present" then Some(ConfirmedPresent)
    else if s == "unknown" then Some(Unknown)
    else if s == "conflicted" then Some(Conflicted)
    else None
  }

  // ---------------------------------------------------------------- evidence keys

  function EvidenceKey(e: EvidenceId): string {
    e.revision + ":" + e.sha
  }

  // The text before and after the first `c`.
  function SplitOnce(s: string, c: char): Option<(string, string)> {
    if s == [] then None
    else if s[0] == c then Some(("", s[1..]))
    else
      match SplitOnce(s[1..], c)
      case None => None
      case Some((before, after)) => Some(([s[0]] + before, after))
  }

  function RevisionLength(source: SourceId): nat {
    match PolicyFor(source).strategy case GitCommit => 40 case ContentSha256 => 64
  }

  function ParseEvidenceKey(source: SourceId, key: string): Option<EvidenceId> {
    match SplitOnce(key, ':')
    case None => None
    case Some((revision, sha)) =>
      if IsLowerHex(revision, RevisionLength(source)) && IsLowerHex(sha, 64) then
        Some(EvidenceId(source, revision, sha))
      else None
  }

  // ---------------------------------------------------------------- rows

  datatype EvidenceCols = EvidenceCols(source: string, revision: string, sha: string)

  datatype EvidenceRow = EvidenceRow(
    lineage: string,
    strategy: string,
    bytes: nat,
    records: nat,
    parser: string,
    scope: string,
    freshness: string,
    rights: string)

  datatype AuthorityRow = AuthorityRow(of: EvidenceCols, field: string)

  datatype LatestRow = LatestRow(revision: string, sha: string)

  datatype SongRow = SongRow(tachiId: string, artist: string, version: string, status: string, primary: bool)

  datatype TitleRow = TitleRow(song: SongId, source: string, digest: string, kind: string, value: string)

  datatype ChartCols = ChartCols(song: SongId, play: string, difficulty: string)

  datatype ChartRow = ChartRow(level: nat, notes: nat)

  datatype AssertionCols = AssertionCols(chart: ChartCols, source: string, digest: string, chartId: string)

  datatype ProductRow = ProductRow(of: AssertionCols, version: string)

  datatype BindingRow = BindingRow(song: SongId, source: string, key: string)

  datatype BindingEvidenceRow = BindingEvidenceRow(binding: BindingRow, digest: string)

  datatype AttributeCols = AttributeCols(of: BindingEvidenceRow, name: string)

  datatype DqnRow = DqnRow(name: TitleArtist, digest: string, kind: string, pack: string)

  // Tables whose key is the whole row are sets; the others map their key to the other columns.
  datatype EvidenceTables = EvidenceTables(
    evidence: map<EvidenceCols, EvidenceRow>,
    authority: set<AuthorityRow>,
    latest: map<string, LatestRow>)

  datatype SongTables = SongTables(
    songs: map<SongId, SongRow>,
    titles: set<TitleRow>,
    charts: map<ChartCols, ChartRow>,
    assertions: map<AssertionCols, bool>,
    products: set<ProductRow>)

  datatype LinkTables = LinkTables(
    bindings: set<BindingRow>,
    evidence: set<BindingEvidenceRow>,
    attributes: map<AttributeCols, string>)

  datatype DqnTables = DqnTables(bindings: map<TitleArtist, SongId>, evidence: set<DqnRow>)

  datatype Tables = Tables(evidence: EvidenceTables, songs: SongTables, links: LinkTables, dqn: DqnTables)

  // ---------------------------------------------------------------- writing

  function ColsOf(id: EvidenceId): EvidenceCols {
    EvidenceCols(SourceLabel(id.source), id.revision, id.sha)
  }

  function EvidenceRowOf(e: Evidence): EvidenceRow {
    EvidenceRow(LineageLabel(e.policy.lineage), StrategyLabel(e.policy.strategy), e.bytes, e.records, e.policy.parser,
                e.policy.scope, e.policy.freshness, e.policy.rights)
  }

  function ParseCols(k: EvidenceCols): Option<EvidenceId> {
    match ParseSource(k.source)
    case None => None
    case Some(source) => Some(EvidenceId(source, k.revision, k.sha))
  }

  // The rows are written under the evidence's own id.
  function EvidenceTable(c: Catalog): map<EvidenceCols, EvidenceRow> {
    map k | k in (set id | id in c.evidence :: ColsOf(IdOf(c.evidence[id]))) && ParseCols(k).Some?
            && ParseCols(k).value in c.evidence :: EvidenceRowOf(c.evidence[ParseCols(k).value])
  }

  function AuthorityTable(c: Catalog): set<AuthorityRow> {
    set id, f | id in c.evidence && f in c.evidence[id].policy.authority ::
      AuthorityRow(ColsOf(IdOf(c.evidence[id])), f)
  }

  function LatestRowOf(e: EvidenceId): LatestRow {
    LatestRow(e.revision, e.sha)
  }

  function LatestTable(c: Catalog): map<string, LatestRow> {
    map s | s in (set x | x in c.latest :: SourceLabel(x)) && ParseSource(s).Some?
            && ParseSource(s).value in c.latest ::
      LatestRowOf(c.latest[ParseSource(s).value])
  }

  function SongRowOf(song: Song): SongRow {
    SongRow(song.tachiId, song.artist, song.version, StatusLabel(song.status), song.primary)
  }

  function TitleRowOf(id: SongId, t: Title): TitleRow {
    TitleRow(id, SourceLabel(t.source), EvidenceKey(t.evidence), KindLabel(t.kind), t.value)
  }

  function ChartColsOf(id: SongId, k: ChartKey): ChartCols {
    ChartCols(id, PlayLabel(k.play), DifficultyLabel(k.difficulty))
  }

  function AssertionColsOf(id: SongId, k: ChartKey, a: Assertion): AssertionCols {
    AssertionCols(ChartColsOf(id, k), SourceLabel(a.evidence.source), EvidenceKey(a.evidence), a.chartId)
  }

  function BindingRowOf(id: SongId, s: SourceId, key: string): BindingRow {
    BindingRow(id, SourceLabel(s), key)
  }

  function BindingEvidenceRowOf(id: SongId, b: BindingKey, e: EvidenceId): BindingEvidenceRow {
    BindingEvidenceRow(BindingRowOf(id, b.source, b.key), EvidenceKey(e))
  }

  function AttributeColsOf(id: SongId, k: AttributeKey, name: string): AttributeCols {
    AttributeCols(BindingEvidenceRow(BindingRowOf(id, k.source, k.key), EvidenceKey(k.evidence)), name)
  }

  function DqnRowOf(name: TitleArtist, e: EvidenceId, pack: Option<string>): DqnRow {
    DqnRow(name, EvidenceKey(e), if pack.Some? then "pack" else "base", if pack.Some? then pack.value else "")
  }

  // Two assertions of one chart differ only in columns outside the primary key.
  predicate Clashes(a: Assertion, b: Assertion) {
    a != b && a.evidence == b.evidence && a.chartId == b.chartId
  }

  predicate Clash(c: Catalog) {
    exists id | id in c.songs :: exists k | k in c.songs[id].sheet.assertions ::
      exists a, b | a in c.songs[id].sheet.assertions[k] && b in c.songs[id].sheet.assertions[k] :: Clashes(a, b)
  }

  function AssertionRows(c: Catalog): set<AssertionCols> {
    set id, k, a | id in c.songs && k in c.songs[id].sheet.assertions && a in c.songs[id].sheet.assertions[k] ::
      AssertionColsOf(id, k, a)
  }

  // The assertion behind the row says that the chart is primary.
  predicate PrimaryAt(c: Catalog, x: AssertionCols) {
    x.chart.song in c.songs
    && var all := c.songs[x.chart.song].sheet.assertions;
       exists k | k in all :: exists a | a in all[k] :: AssertionColsOf(x.chart.song, k, a) == x && a.primary
  }

  function SongTable(c: Catalog): map<SongId, SongRow> {
    map id | id in c.songs :: SongRowOf(c.songs[id])
  }

  function TitleTable(c: Catalog): set<TitleRow> {
    set id, t | id in c.songs && t in c.songs[id].titles :: TitleRowOf(id, t)
  }

  function ChartRowOf(chart: Chart): ChartRow {
    ChartRow(chart.level, chart.notes)
  }

  function ChartTable(c: Catalog): map<ChartCols, ChartRow> {
    map x | x in (set id, k | id in c.songs && k in c.songs[id].sheet.charts :: ChartColsOf(id, k))
            && x.song in c.songs && ParseChartKey(x).Some?
            && ParseChartKey(x).value in c.songs[x.song].sheet.charts ::
      ChartRowOf(c.songs[x.song].sheet.charts[ParseChartKey(x).value])
  }

  function AssertionTable(c: Catalog): map<AssertionCols, bool> {
    map x | x in AssertionRows(c) :: PrimaryAt(c, x)
  }

  function ProductTable(c: Catalog): set<ProductRow> {
    set id, k, a, v | id in c.songs && k in c.songs[id].sheet.assertions && a in c.songs[id].sheet.assertions[k]
                      && v in a.versions :: ProductRow(AssertionColsOf(id, k, a), v)
  }

  function BindingTable(c: Catalog): set<BindingRow> {
    set id, s, key | id in c.songs && s in c.songs[id].links.bindings && key in c.songs[id].links.bindings[s] ::
      BindingRowOf(id, s, key)
  }

  function BindingEvidenceTable(c: Catalog): set<BindingEvidenceRow> {
    set id, b, e | id in c.songs && b in c.songs[id].links.evidence && e in c.songs[id].links.evidence[b] ::
      BindingEvidenceRowOf(id, b, e)
  }

  function AttributeTable(c: Catalog): map<AttributeCols, string> {
    map x | x in (set id, k, name | id in c.songs && k in c.songs[id].links.attributes
                                    && name in c.songs[id].links.attributes[k] :: AttributeColsOf(id, k, name))
            && AttributeWritten(c, x) ::
      c.songs[x.of.binding.song].links.attributes[AttributeKeyOf(x.of)][x.name]
  }

  predicate AttributeWritten(c: Catalog, x: AttributeCols) {
    && x.of.binding.song in c.songs
    && ParseEvidenceOf(x.of.binding.source, x.of.digest).Some?
    && AttributeKeyOf(x.of) in c.songs[x.of.binding.song].links.attributes
    && x.name in c.songs[x.of.binding.song].links.attributes[AttributeKeyOf(x.of)]
  }

  function DqnTable(c: Catalog): map<TitleArtist, SongId> {
    map name | name in c.dqn :: c.dqn[name].song
  }

  function DqnEvidenceTable(c: Catalog): set<DqnRow> {
    set name, e, pack | name in c.dqn && e in c.dqn[name].packs && pack in c.dqn[name].packs[e] ::
      DqnRowOf(name, e, pack)
  }

  // The rows of a catalog that validation accepts.
  function Rows(c: Catalog): Tables {
    Tables(
      EvidenceTables(EvidenceTable(c), AuthorityTable(c), LatestTable(c)),
      SongTables(SongTable(c), TitleTable(c), ChartTable(c), AssertionTable(c), ProductTable(c)),
      LinkTables(BindingTable(c), BindingEvidenceTable(c), AttributeTable(c)),
      DqnTables(DqnTable(c), DqnEvidenceTable(c)))
  }

  // ---------------------------------------------------------------- reading one row

  function ParseChartKey(k: ChartCols): Option<ChartKey> {
    match ParsePlay(k.play)
    case None => None
    case Some(play) =>
      match ParseDifficulty(k.difficulty)
      case None => None
      case Some(difficulty) => Some(ChartKey(play, difficulty))
  }

  function ParseEvidenceOf(source: string, digest: string): Option<EvidenceId> {
    match ParseSource(source)
    case None => None
    case Some(s) => ParseEvidenceKey(s, digest)
  }

  function ParseTitle(r: TitleRow): Option<Title> {
    match ParseEvidenceOf(r.source, r.digest)
    case None => None
    case Some(e) =>
      match ParseKind(r.kind)
      case None => None
      case Some(kind) => Some(Title(r.value, e.source, kind, e))
  }

  function ParsePack(r: DqnRow): Option<Option<string>> {
    if r.kind == "base" && r.pack == "" then Some(None)
    else if r.kind == "pack" && r.pack != "" then Some(Some(r.pack))
    else None
  }

  function ParseEvidence(k: EvidenceCols, r: EvidenceRow, authority: set<string>): Option<Evidence> {
    match ParseSource(k.source)
    case None => None
    case Some(s) =>
      match ParseLineage(r.lineage)
      case None => None
      case Some(lineage) =>
        match ParseStrategy(r.strategy)
        case None => None
        case Some(strategy) =>
          Some(Evidence(s, k.revision, k.sha, r.bytes, r.records,
                        Policy(s, lineage, strategy, r.parser, r.scope, authority, r.freshness, r.rights)))
  }

  const U8_MAX := 255
  const U32_MAX := 4294967295

  // ---------------------------------------------------------------- reading the tables

  function AuthorityOf(authority: set<AuthorityRow>, k: EvidenceCols): set<string> {
    set r | r in authority && r.of == k :: r.field
  }

  function EvidenceAt(t: EvidenceTables, k: EvidenceCols): Option<Evidence>
    requires k in t.evidence
  {
    ParseEvidence(k, t.evidence[k], AuthorityOf(t.authority, k))
  }

  predicate EvidenceReadable(t: EvidenceTables) {
    && (forall k | k in t.evidence :: EvidenceAt(t, k).Some?)
    && (forall s | s in t.latest :: ParseSource(s).Some?)
  }

  function ReadEvidence(t: EvidenceTables): map<EvidenceId, Evidence>
    requires EvidenceReadable(t)
  {
    map id | id in (set k | k in t.evidence && ParseCols(k).Some? :: ParseCols(k).value) && ColsOf(id) in t.evidence ::
      EvidenceAt(t, ColsOf(id)).value
  }

  function ReadLatest(latest: map<string, LatestRow>): map<SourceId, EvidenceId> {
    map x | x in (set s | s in latest && ParseSource(s).Some? :: ParseSource(s).value) && SourceLabel(x) in latest ::
      EvidenceId(x, latest[SourceLabel(x)].revision, latest[SourceLabel(x)].sha)
  }

  predicate TitlesReadable(titles: set<TitleRow>, songs: set<SongId>) {
    forall r | r in titles :: r.song in songs && ParseTitle(r).Some?
  }

  predicate ChartsReadable(charts: map<ChartCols, ChartRow>, songs: set<SongId>) {
    forall k | k in charts ::
      k.song in songs && ParseChartKey(k).Some? && charts[k].level <= U8_MAX && charts[k].notes <= U32_MAX
  }

  predicate AssertionsReadable(assertions: map<AssertionCols, bool>, songs: set<SongId>) {
    forall k | k in assertions ::
      k.chart.song in songs && ParseChartKey(k.chart).Some? && ParseEvidenceOf(k.source, k.digest).Some?
  }

  predicate SongsReadable(t: SongTables) {
    && (forall id | id in t.songs :: ParseStatus(t.songs[id].status).Some?)
    && TitlesReadable(t.titles, t.songs.Keys)
    && ChartsReadable(t.charts, t.songs.Keys)
    && AssertionsReadable(t.assertions, t.songs.Keys)
  }

  function ReadTitles(titles: set<TitleRow>, id: SongId): set<Title> {
    set r | r in titles && r.song == id && ParseTitle(r).Some? :: ParseTitle(r).value
  }

  function ReadCharts(charts: map<ChartCols, ChartRow>, id: SongId): map<ChartKey, Chart> {
    map k | k in (set x | x in charts && x.song == id && ParseChartKey(x).Some? :: ParseChartKey(x).value)
            && ChartColsOf(id, k) in charts ::
      Chart(k, charts[ChartColsOf(id, k)].level, charts[ChartColsOf(id, k)].notes)
  }

  function VersionsOf(products: set<ProductRow>, x: AssertionCols): set<string> {
    set p | p in products && p.of == x :: p.version
  }

  function ReadAssertion(assertions: map<AssertionCols, bool>, products: set<ProductRow>, x: AssertionCols): Assertion
    requires x in assertions && ParseEvidenceOf(x.source, x.digest).Some?
  {
    Assertion(x.chartId, VersionsOf(products, x), assertions[x], ParseEvidenceOf(x.source, x.digest).value)
  }

  function AssertedKeys(assertions: map<AssertionCols, bool>, id: SongId): set<ChartKey> {
    set x | x in assertions && x.chart.song == id && ParseChartKey(x.chart).Some? :: ParseChartKey(x.chart).value
  }

  function AssertionsAt(assertions: map<AssertionCols, bool>, products: set<ProductRow>, chart: ChartCols)
    : set<Assertion>
  {
    set x | x in assertions && x.chart == chart && ParseEvidenceOf(x.source, x.digest).Some? ::
      ReadAssertion(assertions, products, x)
  }

  function ReadAssertions(assertions: map<AssertionCols, bool>, products: set<ProductRow>, id: SongId)
    : map<ChartKey, set<Assertion>>
  {
    map k | k in AssertedKeys(assertions, id) :: AssertionsAt(assertions, products, ChartColsOf(id, k))
  }

  predicate LinksReadable(t: LinkTables, songs: set<SongId>) {
    && (forall r | r in t.bindings :: r.song in songs && ParseSource(r.source).Some?)
    && (forall r | r in t.evidence ::
          r.binding.song in songs && ParseEvidenceOf(r.binding.source, r.digest).Some?)
    && (forall k | k in t.attributes ::
          k.of.binding.song in songs && ParseEvidenceOf(k.of.binding.source, k.of.digest).Some?)
  }

  function BoundSources(bindings: set<BindingRow>, id: SongId): set<SourceId> {
    set r | r in bindings && r.song == id && ParseSource(r.source).Some? :: ParseSource(r.source).value
  }

  function KeysAt(bindings: set<BindingRow>, id: SongId, s: SourceId): set<string> {
    set r | r in bindings && r.song == id && r.source == SourceLabel(s) :: r.key
  }

  function ReadBindings(bindings: set<BindingRow>, id: SongId): map<SourceId, set<string>> {
    map s | s in BoundSources(bindings, id) :: KeysAt(bindings, id, s)
  }

  function BindingKeyOf(r: BindingRow): BindingKey
    requires ParseSource(r.source).Some?
  {
    BindingKey(ParseSource(r.source).value, r.key)
  }

  function EvidencedKeys(rows: set<BindingEvidenceRow>, id: SongId): set<BindingKey> {
    set r | r in rows && r.binding.song == id && ParseSource(r.binding.source).Some? :: BindingKeyOf(r.binding)
  }

  function EvidencesAt(rows: set<BindingEvidenceRow>, binding: BindingRow): set<EvidenceId> {
    set r | r in rows && r.binding == binding && ParseEvidenceOf(r.binding.source, r.digest).Some? ::
      ParseEvidenceOf(r.binding.source, r.digest).value
  }

  function ReadBindingEvidence(rows: set<BindingEvidenceRow>, id: SongId): map<BindingKey, set<EvidenceId>> {
    map b | b in EvidencedKeys(rows, id) :: EvidencesAt(rows, BindingRowOf(id, b.source, b.key))
  }

  function AttributeKeyOf(r: BindingEvidenceRow): AttributeKey
    requires ParseEvidenceOf(r.binding.source, r.digest).Some?
  {
    var e := ParseEvidenceOf(r.binding.source, r.digest).value;
    AttributeKey(e.source, r.binding.key, e)
  }

  function AttributeKeys(attributes: map<AttributeCols, string>, id: SongId): set<AttributeKey> {
    set x | x in attributes && x.of.binding.song == id && ParseEvidenceOf(x.of.binding.source, x.of.digest).Some? ::
      AttributeKeyOf(x.of)
  }

  function AttributesAt(attributes: map<AttributeCols, string>, id: SongId, k: AttributeKey): map<string, string> {
    map name | name in (set x | x in attributes :: x.name) && AttributeColsOf(id, k, name) in attributes ::
      attributes[AttributeColsOf(id, k, name)]
  }

  function ReadAttributes(attributes: map<AttributeCols, string>, id: SongId)
    : map<AttributeKey, map<string, string>>
  {
    map k | k in AttributeKeys(attributes, id) :: AttributesAt(attributes, id, k)
  }

  function ReadSong(t: Tables, id: SongId): Song
    requires id in t.songs.songs && ParseStatus(t.songs.songs[id].status).Some?
  {
    var r := t.songs.songs[id];
    Song(id, r.tachiId, r.artist, r.version, ReadTitles(t.songs.titles, id),
         Sheet(ReadCharts(t.songs.charts, id), ReadAssertions(t.songs.assertions, t.songs.products, id)),
         Links(ReadBindings(t.links.bindings, id), ReadBindingEvidence(t.links.evidence, id),
               ReadAttributes(t.links.attributes, id)),
         ParseStatus(r.status).value, r.primary)
  }

  // Only the evidence rows of a listed name are looked at.
  predicate DqnReadable(t: DqnTables) {
    forall r | r in t.evidence && r.name in t.bindings ::
      ParseEvidenceKey(Dqn, r.digest).Some? && ParsePack(r).Some?
  }

  function PackedEvidence(rows: set<DqnRow>, name: TitleArtist): set<EvidenceId> {
    set r | r in rows && r.name == name && ParseEvidenceKey(Dqn, r.digest).Some? ::
      ParseEvidenceKey(Dqn, r.digest).value
  }

  function PacksAt(rows: set<DqnRow>, name: TitleArtist, digest: string): set<Option<string>> {
    set r | r in rows && r.name == name && r.digest == digest && ParsePack(r).Some? :: ParsePack(r).value
  }

  function ReadPacks(rows: set<DqnRow>, name: TitleArtist): map<EvidenceId, set<Option<string>>> {
    map e | e in PackedEvidence(rows, name) :: PacksAt(rows, name, EvidenceKey(e))
  }

  predicate Readable(t: Tables) {
    && EvidenceReadable(t.evidence) && SongsReadable(t.songs)
    && LinksReadable(t.links, t.songs.songs.Keys) && DqnReadable(t.dqn)
  }

  function ReadSongs(t: Tables): map<SongId, Song>
    requires forall id | id in t.songs.songs :: ParseStatus(t.songs.songs[id].status).Some?
  {
    map id | id in t.songs.songs :: ReadSong(t, id)
  }

  function ReadDqn(t: DqnTables): map<TitleArtist, DqnBinding> {
    map name | name in t.bindings :: DqnBinding(t.bindings[name], ReadPacks(t.evidence, name))
  }

  // What the reader makes of the tables before it validates them; nothing when some row is malformed.
  function Read(t: Tables): Option<Catalog> {
    if !Readable(t) then None
    else Some(Catalog(ReadSongs(t), ReadEvidence(t.evidence), ReadLatest(t.evidence.latest), ReadDqn(t.dqn)))
  }
}
