// The catalog of songs and what `Catalog::validate` demands of it.
module CatalogModel {
  import opened Common
  import opened Text

  // ---------------------------------------------------------------- sources

  datatype SourceId = Tachi | Textage | Dqn

  datatype Lineage = GameMdb | TextageLineage | OfficialInfinitasHtml

  datatype Strategy = GitCommit | ContentSha256

  datatype Policy = Policy(
    source: SourceId,
    lineage: Lineage,
    strategy: Strategy,
    parser: string,
    scope: string,
    authority: set<string>,
    freshness: string,
    rights: string)

  // The admission policy of a source.
  function PolicyFor(source: SourceId): Policy {
    match source
    case Tachi =>
      Policy(Tachi, GameMdb, GitCommit, "scorepeek-tachi-live-json-parser-v1", "general_iidx_identity_and_charts",
             {"source_song_id", "title", "title_kind", "artist", "version", "charts", "source_chart_id",
              "product_versions", "chart_primary", "primary_infinitas"},
             "pinned_git_commit_at_sync", "tachi_iidx_seeds_local_snapshot")
    case Textage =>
      Policy(Textage, TextageLineage, ContentSha256, "scorepeek-textage-live-js-parser-v1",
             "metadata_display_and_chart_corroboration",
             {"source_song_id", "title", "title_kind", "artist", "version", "charts", "source_chart_id",
              "product_versions", "chart_primary", "bpm_min", "bpm_max", "infinitas_flag_corroboration"},
             "mutable_http_bytes_pinned_by_sha256", "textage_local_snapshot_no_redistribution")
    case Dqn =>
      Policy(Dqn, OfficialInfinitasHtml, ContentSha256, "scorepeek-dqn-live-json-parser-v1",
             "positive_infinitas_roster_signal", {"title", "artist", "pack"},
             "mutable_http_bytes_pinned_by_sha256", "dqn_iidxapi_official_page_derived_local_snapshot")
  }

  datatype EvidenceId = EvidenceId(source: SourceId, revision: string, sha: string)

  datatype Evidence = Evidence(
    source: SourceId,
    revision: string,
    sha: string,
    bytes: nat,
    records: nat,
    policy: Policy)

  function IdOf(e: Evidence): EvidenceId {
    EvidenceId(e.source, e.revision, e.sha)
  }

  // ---------------------------------------------------------------- songs

  datatype PlayType = Single | Double

  datatype Difficulty = Beginner | Normal | Hyper | Another | Leggendaria

  datatype ChartKey = ChartKey(play: PlayType, difficulty: Difficulty)

  datatype Chart = Chart(key: ChartKey, level: nat, notes: nat)

  // The identifier derived from a Tachi id; the derivation is taken to be injective.
  datatype SongId = SongId(tachi: string)

  function FromTachi(id: string): SongId {
    SongId(id)
  }

  datatype TitleKind = InGameDisplay | OfficialDisplay | EamusementCsv | AlternateDisplay | SearchTerm

  datatype Title = Title(value: string, source: SourceId, kind: TitleKind, evidence: EvidenceId)

  datatype Assertion = Assertion(chartId: string, versions: set<string>, primary: bool, evidence: EvidenceId)

  datatype Status = ConfirmedPresent | Unknown | Conflicted

  datatype Sheet = Sheet(charts: map<ChartKey, Chart>, assertions: map<ChartKey, set<Assertion>>)

  datatype BindingKey = BindingKey(source: SourceId, key: string)

  datatype AttributeKey = AttributeKey(source: SourceId, key: string, evidence: EvidenceId)

  datatype Links = Links(
    bindings: map<SourceId, set<string>>,
    evidence: map<BindingKey, set<EvidenceId>>,
    attributes: map<AttributeKey, map<string, string>>)

  datatype Song = Song(
    id: SongId,
    tachiId: string,
    artist: string,
    version: string,
    titles: set<Title>,
    sheet: Sheet,
    links: Links,
    status: Status,
    primary: bool)

  datatype TitleArtist = TitleArtist(title: string, artist: string)

  datatype DqnBinding = DqnBinding(song: SongId, packs: map<EvidenceId, set<Option<string>>>)

  datatype Catalog = Catalog(
    songs: map<SongId, Song>,
    evidence: map<EvidenceId, Evidence>,
    latest: map<SourceId, EvidenceId>,
    dqn: map<TitleArtist, DqnBinding>)

  // Normalisation is any idempotent function on text.
  type Nfc = f: string -> string | forall s :: f(f(s)) == f(s) witness ((s: string) => s)

  // ---------------------------------------------------------------- texts

  function Utf8Size(c: char): nat {
    if c < '\U{80}' then 1 else if c < '\U{800}' then 2 else if c < '\U{10000}' then 3 else 4
  }

  function Utf8Length(s: string): nat {
    if s == [] then 0 else Utf8Length(s[..|s| - 1]) + Utf8Size(s[|s| - 1])
  }

  predicate IsControl(c: char) {
    c < '\U{20}' || '\U{7F}' <= c <= '\U{9F}'
  }

  predicate CatalogText(s: string) {
    s != [] && Utf8Length(s) <= 512 && forall c | c in s :: !IsControl(c)
  }

  predicate IsLowerHex(s: string, length: nat) {
    |s| == length && forall c | c in s :: '0' <= c <= '9' || 'a' <= c <= 'f'
  }

  function BoolText(b: bool): string {
    if b then "true" else "false"
  }

  function ParseBool(s: string): Option<bool> {
    if s == "true" then Some(true) else if s == "false" then Some(false) else None
  }

  function ParseU16(s: string): Option<nat> {
    match ParseUnsigned(s)
    case None => None
    case Some(n) => if n <= 65535 then Some(n) else None
  }

  // ---------------------------------------------------------------- validation

  predicate EvidenceOk(id: EvidenceId, e: Evidence) {
    && IdOf(e) == id
    && e.records > 0
    && e.policy == PolicyFor(e.source)
    && IsLowerHex(e.sha, 64)
    && IsLowerHex(e.revision, match e.policy.strategy case GitCommit => 40 case ContentSha256 => 64)
    && (e.policy.strategy.ContentSha256? ==> e.revision == e.sha)
  }

  predicate EvidencesOk(evidence: map<EvidenceId, Evidence>, latest: map<SourceId, EvidenceId>) {
    && (forall id | id in evidence :: EvidenceOk(id, evidence[id]))
    && (forall s | s in latest :: latest[s].source == s && latest[s] in evidence)
  }

  predicate Bound(links: Links, source: SourceId) {
    source in links.bindings && links.bindings[source] != {}
  }

  predicate Binds(links: Links, source: SourceId, key: string) {
    source in links.bindings && key in links.bindings[source]
  }

  predicate IdentityOk(id: SongId, song: Song) {
    && song.id == id && FromTachi(song.tachiId) == id
    && CatalogText(song.tachiId) && CatalogText(song.artist) && CatalogText(song.version)
    && Tachi in song.links.bindings && song.links.bindings[Tachi] == {song.tachiId}
  }

  predicate TitleOk(t: Title, links: Links, known: set<EvidenceId>) {
    CatalogText(t.value) && t.evidence.source == t.source && t.evidence in known && Bound(links, t.source)
  }

  predicate TitlesOk(song: Song, known: set<EvidenceId>) {
    song.titles != {} && forall t | t in song.titles :: TitleOk(t, song.links, known)
  }

  predicate AssertionOk(a: Assertion, links: Links, known: set<EvidenceId>) {
    a.chartId != [] && a.versions != {} && a.evidence in known && Bound(links, a.evidence.source)
  }

  predicate ChartOk(key: ChartKey, chart: Chart) {
    chart.key == key && 1 <= chart.level <= 12 && chart.notes > 0
  }

  predicate SheetOk(sheet: Sheet, links: Links, known: set<EvidenceId>) {
    && (forall k | k in sheet.charts ::
          && ChartOk(k, sheet.charts[k])
          && k in sheet.assertions && sheet.assertions[k] != {}
          && forall a | a in sheet.assertions[k] :: AssertionOk(a, links, known))
    && (forall k | k in sheet.assertions :: k in sheet.charts)
  }

  predicate ProvenanceOk(links: Links, source: SourceId, key: string, known: set<EvidenceId>) {
    var b := BindingKey(source, key);
    && b in links.evidence && links.evidence[b] != {}
    && forall e | e in links.evidence[b] :: e.source == source && e in known
  }

  predicate AttributesOk(links: Links, k: AttributeKey) {
    && k in links.attributes
    && k.evidence.source == k.source
    && links.attributes[k] != map[]
    && BindingKey(k.source, k.key) in links.evidence
    && k.evidence in links.evidence[BindingKey(k.source, k.key)]
    && forall name | name in links.attributes[k] :: CatalogText(name) && CatalogText(links.attributes[k][name])
  }

  predicate LinksOk(links: Links, known: set<EvidenceId>) {
    && (forall s | s in links.bindings :: links.bindings[s] != {})
    && (forall s, key | s in links.bindings && key in links.bindings[s] ::
          CatalogText(key) && ProvenanceOk(links, s, key, known))
    && (forall b | b in links.evidence :: Binds(links, b.source, b.key))
    && (forall k | k in links.attributes :: AttributesOk(links, k))
  }

  predicate TachiAttributesOk(attributes: map<string, string>) {
    && |attributes| == 1
    && "primary_infinitas" in attributes && ParseBool(attributes["primary_infinitas"]).Some?
  }

  predicate TextageAttributesOk(attributes: map<string, string>) {
    && |attributes| == 3
    && "infinitas_flag" in attributes && ParseBool(attributes["infinitas_flag"]).Some?
    && "bpm_min" in attributes && ParseU16(attributes["bpm_min"]).Some?
    && "bpm_max" in attributes && ParseU16(attributes["bpm_max"]).Some?
    && BpmOk(ParseU16(attributes["bpm_min"]).value, ParseU16(attributes["bpm_max"]).value)
  }

  predicate BpmOk(minimum: nat, maximum: nat) {
    (minimum == 0 <==> maximum == 0) && minimum <= maximum
  }

  predicate RequiredOk(links: Links) {
    forall b, e | b in links.evidence && e in links.evidence[b] ::
      var k := AttributeKey(b.source, b.key, e);
      && k in links.attributes
      && match b.source
         case Tachi => TachiAttributesOk(links.attributes[k])
         case Textage => TextageAttributesOk(links.attributes[k])
         case Dqn => false
  }

  // Some Tachi record bound to the song says that the song is in INFINITAS.
  predicate SaysPrimary(links: Links, tachiId: string, e: EvidenceId) {
    var b := BindingKey(Tachi, tachiId);
    var k := AttributeKey(Tachi, tachiId, e);
    && b in links.evidence && e in links.evidence[b]
    && k in links.attributes && "primary_infinitas" in links.attributes[k]
    && ParseBool(links.attributes[k]["primary_infinitas"]) == Some(true)
  }

  ghost predicate PrimaryOk(song: Song) {
    song.primary <==> exists e :: SaysPrimary(song.links, song.tachiId, e)
  }

  ghost predicate SongOk(id: SongId, song: Song, known: set<EvidenceId>) {
    && IdentityOk(id, song)
    && TitlesOk(song, known)
    && SheetOk(song.sheet, song.links, known)
    && LinksOk(song.links, known)
    && RequiredOk(song.links)
    && PrimaryOk(song)
  }

  // A source record is bound to at most one song.
  ghost predicate UniqueBindings(songs: map<SongId, Song>) {
    forall i, j, s, key | i in songs && j in songs && Binds(songs[i].links, s, key) && Binds(songs[j].links, s, key) ::
      i == j
  }

  predicate IdentityTitle(t: Title) {
    !t.kind.SearchTerm?
  }

  // The song has this title and artist, compared after normalisation.
  predicate NamedBy(nfc: Nfc, song: Song, name: TitleArtist) {
    nfc(song.artist) == name.artist
    && exists t | t in song.titles :: IdentityTitle(t) && nfc(t.value) == name.title
  }

  predicate PacksOk(packs: map<EvidenceId, set<Option<string>>>, known: set<EvidenceId>) {
    && packs != map[]
    && forall e | e in packs ::
         && e.source.Dqn? && e in known && packs[e] != {}
         && forall p | p in packs[e] :: p.Some? ==> CatalogText(p.value)
  }

  predicate DqnOk(nfc: Nfc, songs: map<SongId, Song>, name: TitleArtist, b: DqnBinding, known: set<EvidenceId>) {
    && b.song in songs
    && name.title == nfc(name.title) && name.artist == nfc(name.artist)
    && NamedBy(nfc, songs[b.song], name)
    && PacksOk(b.packs, known)
  }

  // The songs that some dqn record names.
  function DqnSongs(dqn: map<TitleArtist, DqnBinding>): set<SongId> {
    set name | name in dqn :: dqn[name].song
  }

  function ExpectedStatus(song: Song, listed: set<SongId>): Status {
    if song.primary || song.id in listed then ConfirmedPresent else Unknown
  }

  // Everything but the availability recorded in the songs, with evidence known in advance.
  ghost predicate Sound(nfc: Nfc, c: Catalog, known: set<EvidenceId>) {
    && (forall id | id in c.songs :: SongOk(id, c.songs[id], known))
    && UniqueBindings(c.songs)
    && (forall name | name in c.dqn :: DqnOk(nfc, c.songs, name, c.dqn[name], known))
  }

  ghost predicate Valid(nfc: Nfc, c: Catalog) {
    && EvidencesOk(c.evidence, c.latest)
    && Sound(nfc, c, c.evidence.Keys)
    && (forall id | id in c.songs :: c.songs[id].status == ExpectedStatus(c.songs[id], DqnSongs(c.dqn)))
  }
}
