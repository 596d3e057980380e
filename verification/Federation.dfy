// What federating source snapshots into a catalog computes: the songs, bindings and evidence after each source, and
// the records set aside.
module Federation {
  import opened Common
  import opened Text
  import opened CatalogModel

  // ---------------------------------------------------------------- observations

  datatype ChartRecord = ChartRecord(chart: Chart, chartId: string, versions: set<string>, primary: bool)

  datatype TitleRecord = TitleRecord(value: string, kind: TitleKind)

  datatype TachiRecord = TachiRecord(
    id: string,
    titles: set<TitleRecord>,
    artist: string,
    version: string,
    charts: seq<ChartRecord>,
    primary: bool)

  datatype TextageRecord = TextageRecord(
    id: string,
    title: string,
    artist: string,
    version: string,
    kind: TitleKind,
    charts: seq<ChartRecord>,
    flag: bool,
    bpmMin: nat,
    bpmMax: nat)

  datatype DqnRecord = DqnRecord(title: string, artist: string, pack: Option<string>)

  datatype Observation = OfTachi(tachi: TachiRecord) | OfTextage(textage: TextageRecord) | OfDqn(dqn: DqnRecord)

  datatype Snapshot = Snapshot(policy: Policy, evidence: Evidence, observations: seq<Observation>)

  datatype Input = Input(tachi: Option<Snapshot>, textage: Option<Snapshot>, dqn: Option<Snapshot>)

  datatype Reason =
    | SourcePolicyMismatch | ProvisionalWithoutTachiAnchor | AmbiguousIdentity | ExistingIdentityBridge
    | ConflictingChart | CriticalConflict | DqnBindingRegression | SourceHealthRegression

  datatype Entry = Entry(source: SourceId, key: string, reason: Reason)

  // The catalog being built and the entries set aside so far.
  datatype Ledger = Ledger(catalog: Catalog, quarantine: seq<Entry>)

  // The quarantine is sorted before it is returned, so only its contents matter.
  datatype Output = Output(catalog: Catalog, quarantine: multiset<Entry>)

  function SetAside(l: Ledger, entry: Entry): Ledger {
    l.(quarantine := l.quarantine + [entry])
  }

  function WithSong(c: Catalog, id: SongId, song: Song): Catalog {
    c.(songs := c.songs[id := song])
  }

  // ---------------------------------------------------------------- choosing and ordering records

  function TachiRecords(observations: seq<Observation>): seq<TachiRecord> {
    if observations == [] then []
    else (if observations[0].OfTachi? then [observations[0].tachi] else []) + TachiRecords(observations[1..])
  }

  function TextageRecords(observations: seq<Observation>): seq<TextageRecord> {
    if observations == [] then []
    else (if observations[0].OfTextage? then [observations[0].textage] else []) + TextageRecords(observations[1..])
  }

  function DqnRecords(observations: seq<Observation>): seq<DqnRecord> {
    if observations == [] then []
    else (if observations[0].OfDqn? then [observations[0].dqn] else []) + DqnRecords(observations[1..])
  }

  function Inserted<T>(x: T, sorted: seq<T>, key: T -> string): (r: seq<T>)
    ensures multiset(r) == multiset(sorted) + multiset{x}
  {
    if sorted == [] || Less(key(x), key(sorted[0])) then [x] + sorted
    else
      assert sorted == [sorted[0]] + sorted[1..];
      [sorted[0]] + Inserted(x, sorted[1..], key)
  }

  // Stable sorting by a text key.
  function Sorted<T>(records: seq<T>, key: T -> string): (r: seq<T>)
    ensures multiset(r) == multiset(records)
  {
    if records == [] then []
    else
      assert records == records[..|records| - 1] + [records[|records| - 1]];
      Inserted(records[|records| - 1], Sorted(records[..|records| - 1], key), key)
  }

  // ---------------------------------------------------------------- additions to one song

  predicate Titled(song: Song, source: SourceId, value: string, kind: TitleKind) {
    exists t | t in song.titles :: t.source == source && t.kind == kind && t.value == value
  }

  function WithTitle(song: Song, source: SourceId, value: string, kind: TitleKind, ev: EvidenceId): Song {
    if Titled(song, source, value, kind) then song
    else song.(titles := song.titles + {Title(value, source, kind, ev)})
  }

  // Every Tachi title the song does not assert yet is added.
  function WithTachiTitles(song: Song, titles: set<TitleRecord>, ev: EvidenceId): Song {
    song.(titles := song.titles
            + set t | t in titles && !Titled(song, Tachi, t.value, t.kind) :: Title(t.value, Tachi, t.kind, ev))
  }

  predicate Attributed(links: Links, b: BindingKey, attributes: map<string, string>) {
    b in links.evidence
    && exists e | e in links.evidence[b] ::
         AttributeKey(b.source, b.key, e) in links.attributes
         && links.attributes[AttributeKey(b.source, b.key, e)] == attributes
  }

  // The attributes are recorded under the new evidence unless some evidence already says the same.
  function WithAttributes(links: Links, b: BindingKey, attributes: map<string, string>, ev: EvidenceId): Links {
    if Attributed(links, b, attributes) then links
    else
      var before := if b in links.evidence then links.evidence[b] else {};
      links.(evidence := links.evidence[b := before + {ev}],
             attributes := links.attributes[AttributeKey(b.source, b.key, ev) := attributes])
  }

  function WithBinding(links: Links, b: BindingKey): Links {
    var before := if b.source in links.bindings then links.bindings[b.source] else {};
    links.(bindings := links.bindings[b.source := before + {b.key}])
  }

  function AssertionOf(r: ChartRecord, ev: EvidenceId): Assertion {
    Assertion(r.chartId, r.versions, r.primary, ev)
  }

  predicate Asserted(known: set<Assertion>, r: ChartRecord, source: SourceId) {
    exists a | a in known ::
      a.evidence.source == source && a.chartId == r.chartId && a.versions == r.versions && a.primary == r.primary
  }

  function WithChart(sheet: Sheet, r: ChartRecord, ev: EvidenceId): Sheet {
    var k := r.chart.key;
    var known := if k in sheet.assertions then sheet.assertions[k] else {};
    Sheet(if k in sheet.charts then sheet.charts else sheet.charts[k := r.chart],
          sheet.assertions[k := if Asserted(known, r, ev.source) then known else known + {AssertionOf(r, ev)}])
  }

  function WithCharts(sheet: Sheet, charts: seq<ChartRecord>, ev: EvidenceId): Sheet {
    if charts == [] then sheet
    else WithChart(WithCharts(sheet, charts[..|charts| - 1], ev), charts[|charts| - 1], ev)
  }

  // A record describes a chart the song already has, differently.
  predicate ChartConflict(song: Song, charts: seq<ChartRecord>) {
    exists r | r in charts :: r.chart.key in song.sheet.charts && song.sheet.charts[r.chart.key] != r.chart
  }

  // ---------------------------------------------------------------- Tachi

  function TachiAttributes(r: TachiRecord): map<string, string> {
    map["primary_infinitas" := BoolText(r.primary)]
  }

  function TachiKey(r: TachiRecord): BindingKey {
    BindingKey(Tachi, r.id)
  }

  function NewSong(r: TachiRecord, ev: EvidenceId): Song {
    Song(
      FromTachi(r.id), r.id, r.artist, r.version,
      set t | t in r.titles :: Title(t.value, Tachi, t.kind, ev),
      Sheet(map x | x in r.charts :: x.chart.key := ChartAt(r.charts, x.chart.key),
            map x | x in r.charts :: x.chart.key := {AssertionOf(RecordAt(r.charts, x.chart.key), ev)}),
      Links(map[Tachi := {r.id}],
            map[TachiKey(r) := {ev}],
            map[AttributeKey(Tachi, r.id, ev) := TachiAttributes(r)]),
      Unknown, r.primary)
  }

  // The last record of a chart: collecting into a map keeps the last value of a key.
  function RecordAt(charts: seq<ChartRecord>, key: ChartKey): (r: ChartRecord)
    requires exists x | x in charts :: x.chart.key == key
    ensures r in charts && r.chart.key == key
  {
    if charts[|charts| - 1].chart.key == key then charts[|charts| - 1]
    else RecordAt(charts[..|charts| - 1], key)
  }

  function ChartAt(charts: seq<ChartRecord>, key: ChartKey): Chart
    requires exists x | x in charts :: x.chart.key == key
  {
    RecordAt(charts, key).chart
  }

  function MergedTachi(song: Song, r: TachiRecord, ev: EvidenceId): Song {
    WithTachiTitles(song, r.titles, ev).(
      links := WithAttributes(song.links, TachiKey(r), TachiAttributes(r), ev),
      sheet := WithCharts(song.sheet, r.charts, ev),
      primary := song.primary || r.primary)
  }

  // Why a Tachi record is not taken, if it is not.
  function TachiRefusal(songs: map<SongId, Song>, r: TachiRecord): Option<Reason> {
    var id := FromTachi(r.id);
    if id !in songs then None
    else if songs[id].artist != r.artist || songs[id].version != r.version then Some(CriticalConflict)
    else if ChartConflict(songs[id], r.charts) then Some(ConflictingChart)
    else None
  }

  function TachiSong(songs: map<SongId, Song>, r: TachiRecord, ev: EvidenceId): Song {
    var id := FromTachi(r.id);
    if id in songs then MergedTachi(songs[id], r, ev) else NewSong(r, ev)
  }

  function TachiStep(l: Ledger, r: TachiRecord, ev: EvidenceId): Ledger {
    match TachiRefusal(l.catalog.songs, r)
    case Some(reason) => SetAside(l, Entry(Tachi, r.id, reason))
    case None => l.(catalog := WithSong(l.catalog, FromTachi(r.id), TachiSong(l.catalog.songs, r, ev)))
  }

  function TachiFold(l: Ledger, records: seq<TachiRecord>, ev: EvidenceId): Ledger {
    if records == [] then l
    else TachiStep(TachiFold(l, records[..|records| - 1], ev), records[|records| - 1], ev)
  }

  // ---------------------------------------------------------------- admission of a snapshot

  predicate Healthy(c: Catalog, s: Snapshot) {
    && s.evidence.records > 0
    && (s.policy.source in c.latest && c.latest[s.policy.source] in c.evidence ==>
          s.evidence.records >= c.evidence[c.latest[s.policy.source]].records)
  }

  // Why a snapshot is not looked at, if it is not.
  function SnapshotRefusal(c: Catalog, s: Snapshot, source: SourceId): Option<Reason> {
    if s.policy != PolicyFor(source) then Some(SourcePolicyMismatch)
    else if !Healthy(c, s) then Some(SourceHealthRegression)
    else None
  }

  function Refused(l: Ledger, s: Snapshot, reason: Reason): Ledger {
    SetAside(l, Entry(s.policy.source, s.evidence.revision, reason))
  }

  // The snapshot's evidence becomes the latest of its source.
  function Recorded(c: Catalog, e: Evidence, source: SourceId): Catalog {
    c.(evidence := c.evidence[IdOf(e) := e], latest := c.latest[source := IdOf(e)])
  }

  function TachiKeyOf(r: TachiRecord): string {
    r.id
  }

  function ApplyTachi(l: Ledger, snapshot: Option<Snapshot>): Ledger {
    match snapshot
    case None => l
    case Some(s) =>
      match SnapshotRefusal(l.catalog, s, Tachi)
      case Some(reason) => Refused(l, s, reason)
      case None =>
        var after := TachiFold(l, Sorted(TachiRecords(s.observations), TachiKeyOf), IdOf(s.evidence));
        after.(catalog := Recorded(after.catalog, s.evidence, Tachi))
  }

  // ---------------------------------------------------------------- Textage

  function MatchingCharts(song: Song, charts: seq<ChartRecord>): nat {
    if charts == [] then 0
    else
      var r := charts[|charts| - 1];
      MatchingCharts(song, charts[..|charts| - 1])
      + if r.chart.key in song.sheet.charts && song.sheet.charts[r.chart.key].notes == r.chart.notes then 1 else 0
  }

  predicate TextageMatch(nfc: Nfc, song: Song, r: TextageRecord) {
    && nfc(song.artist) == nfc(r.artist) && nfc(song.version) == nfc(r.version)
    && (exists t | t in song.titles :: t.source == Tachi && IdentityTitle(t) && nfc(t.value) == nfc(r.title))
    && MatchingCharts(song, r.charts) >= 2
  }

  function TextageMatches(nfc: Nfc, songs: map<SongId, Song>, r: TextageRecord): set<SongId> {
    set id | id in songs && TextageMatch(nfc, songs[id], r)
  }

  // The songs a source record is bound to; a valid catalog has at most one.
  function BoundSongs(songs: map<SongId, Song>, b: BindingKey): set<SongId> {
    set id | id in songs && Binds(songs[id].links, b.source, b.key)
  }

  ghost function Only(s: set<SongId>): SongId
    requires s != {}
  {
    var id :| id in s; id
  }

  function TextageKey(r: TextageRecord): BindingKey {
    BindingKey(Textage, r.id)
  }

  // The song a Textage record belongs to, or why there is none.
  ghost function TextageIdentity(nfc: Nfc, songs: map<SongId, Song>, r: TextageRecord): (x: Result<SongId, Reason>)
    ensures x.Ok? ==> x.value in songs
  {
    var bound := BoundSongs(songs, TextageKey(r));
    var matches := TextageMatches(nfc, songs, r);
    if bound != {} then
      if exists m :: m in matches && m != Only(bound) then Err(ExistingIdentityBridge) else Ok(Only(bound))
    else if |matches| == 1 then Ok(Only(matches))
    else if matches == {} then Err(ProvisionalWithoutTachiAnchor)
    else Err(AmbiguousIdentity)
  }

  ghost function TextageTarget(nfc: Nfc, songs: map<SongId, Song>, r: TextageRecord): (x: Result<SongId, Reason>)
    ensures x.Ok? ==> x.value in songs
  {
    match TextageIdentity(nfc, songs, r)
    case Err(reason) => Err(reason)
    case Ok(id) => if ChartConflict(songs[id], r.charts) then Err(ConflictingChart) else Ok(id)
  }

  function TextageAttributes(r: TextageRecord): map<string, string> {
    map["infinitas_flag" := BoolText(r.flag), "bpm_min" := Decimal(r.bpmMin), "bpm_max" := Decimal(r.bpmMax)]
  }

  function MergedTextage(song: Song, r: TextageRecord, ev: EvidenceId): Song {
    WithTitle(song, Textage, r.title, r.kind, ev).(
      links := WithAttributes(WithBinding(song.links, TextageKey(r)), TextageKey(r), TextageAttributes(r), ev),
      sheet := WithCharts(song.sheet, r.charts, ev))
  }

  ghost function TextageStep(nfc: Nfc, l: Ledger, r: TextageRecord, ev: EvidenceId): Ledger {
    match TextageTarget(nfc, l.catalog.songs, r)
    case Err(reason) => SetAside(l, Entry(Textage, r.id, reason))
    case Ok(id) => l.(catalog := WithSong(l.catalog, id, MergedTextage(l.catalog.songs[id], r, ev)))
  }

  ghost function TextageFold(nfc: Nfc, l: Ledger, records: seq<TextageRecord>, ev: EvidenceId): Ledger {
    if records == [] then l
    else TextageStep(nfc, TextageFold(nfc, l, records[..|records| - 1], ev), records[|records| - 1], ev)
  }

  function TextageKeyOf(r: TextageRecord): string {
    r.id
  }

  ghost function ApplyTextage(nfc: Nfc, l: Ledger, snapshot: Option<Snapshot>): Ledger {
    match snapshot
    case None => l
    case Some(s) =>
      match SnapshotRefusal(l.catalog, s, Textage)
      case Some(reason) => Refused(l, s, reason)
      case None =>
        var after := TextageFold(nfc, l, Sorted(TextageRecords(s.observations), TextageKeyOf), IdOf(s.evidence));
        after.(catalog := Recorded(after.catalog, s.evidence, Textage))
  }

  // ---------------------------------------------------------------- dqn

  function NameOf(nfc: Nfc, r: DqnRecord): TitleArtist {
    TitleArtist(nfc(r.title), nfc(r.artist))
  }

  function NameMatches(nfc: Nfc, songs: map<SongId, Song>, name: TitleArtist): set<SongId> {
    set id | id in songs && NamedBy(nfc, songs[id], name)
  }

  // Some earlier binding is no longer listed, or no longer names its song and no other.
  predicate Regressed(nfc: Nfc, previous: Catalog, songs: map<SongId, Song>, records: seq<DqnRecord>) {
    exists name | name in previous.dqn ::
      || (forall r | r in records :: NameOf(nfc, r) != name)
      || NameMatches(nfc, songs, name) != {previous.dqn[name].song}
  }

  function DqnEntry(r: DqnRecord, reason: Reason): Entry {
    Entry(Dqn, r.title + "\0" + r.artist, reason)
  }

  function DqnRegressions(records: seq<DqnRecord>): seq<Entry> {
    seq(|records|, i requires 0 <= i < |records| => DqnEntry(records[i], DqnBindingRegression))
  }

  // Records that do not name exactly one song.
  function DqnUnmatched(nfc: Nfc, songs: map<SongId, Song>, records: seq<DqnRecord>): seq<Entry> {
    if records == [] then []
    else
      var r := records[|records| - 1];
      var matches := NameMatches(nfc, songs, NameOf(nfc, r));
      DqnUnmatched(nfc, songs, records[..|records| - 1])
      + (if |matches| == 1 then []
         else [DqnEntry(r, if matches == {} then ProvisionalWithoutTachiAnchor else AmbiguousIdentity)])
  }

  function WithPack(dqn: map<TitleArtist, DqnBinding>, name: TitleArtist, song: SongId, ev: EvidenceId,
                    pack: Option<string>): map<TitleArtist, DqnBinding> {
    var b := if name in dqn then dqn[name] else DqnBinding(song, map[]);
    var packs := if ev in b.packs then b.packs[ev] else {};
    dqn[name := b.(packs := b.packs[ev := packs + {pack}])]
  }

  ghost function DqnFold(nfc: Nfc, songs: map<SongId, Song>, dqn: map<TitleArtist, DqnBinding>, records: seq<DqnRecord>,
                         ev: EvidenceId): map<TitleArtist, DqnBinding> {
    if records == [] then dqn
    else
      var r := records[|records| - 1];
      var before := DqnFold(nfc, songs, dqn, records[..|records| - 1], ev);
      var matches := NameMatches(nfc, songs, NameOf(nfc, r));
      if |matches| == 1 then WithPack(before, NameOf(nfc, r), Only(matches), ev, r.pack) else before
  }

  ghost function ApplyDqn(nfc: Nfc, previous: Catalog, l: Ledger, snapshot: Option<Snapshot>): Ledger {
    match snapshot
    case None => l
    case Some(s) =>
      match SnapshotRefusal(l.catalog, s, Dqn)
      case Some(reason) => Refused(l, s, reason)
      case None =>
        var records := DqnRecords(s.observations);
        var songs := l.catalog.songs;
        if Regressed(nfc, previous, songs, records) then l.(quarantine := l.quarantine + DqnRegressions(records))
        else
          var bound := l.catalog.(dqn := DqnFold(nfc, songs, l.catalog.dqn, records, IdOf(s.evidence)));
          Ledger(Recorded(bound, s.evidence, Dqn), l.quarantine + DqnUnmatched(nfc, songs, records))
  }

  // ---------------------------------------------------------------- the end of a federation

  function Refreshed(c: Catalog): Catalog {
    c.(songs := map id | id in c.songs :: c.songs[id].(status := ExpectedStatus(c.songs[id], DqnSongs(c.dqn))))
  }

  ghost predicate ReferencedBySong(song: Song, e: EvidenceId) {
    || (exists t :: t in song.titles && t.evidence == e)
    || (exists k, a :: k in song.sheet.assertions && a in song.sheet.assertions[k] && a.evidence == e)
    || (exists b :: b in song.links.evidence && e in song.links.evidence[b])
  }

  ghost predicate Referenced(c: Catalog, e: EvidenceId) {
    || (exists s :: s in c.latest && c.latest[s] == e)
    || (exists id :: id in c.songs && ReferencedBySong(c.songs[id], e))
    || (exists name :: name in c.dqn && e in c.dqn[name].packs)
  }

  ghost function Pruned(c: Catalog): Catalog {
    c.(evidence := map e | e in c.evidence && Referenced(c, e) :: c.evidence[e])
  }

  ghost function Applied(nfc: Nfc, c: Catalog, input: Input): Ledger {
    ApplyDqn(nfc, c, ApplyTextage(nfc, ApplyTachi(Ledger(c, []), input.tachi), input.textage), input.dqn)
  }

  ghost function Federate(nfc: Nfc, c: Catalog, input: Input): Output {
    var l := Applied(nfc, c, input);
    Output(Pruned(Refreshed(l.catalog)), multiset(l.quarantine))
  }

  // ---------------------------------------------------------------- what the source adapters guarantee

  predicate ChartRecordOk(r: ChartRecord) {
    ChartOk(r.chart.key, r.chart) && r.chartId != [] && r.versions != {}
  }

  predicate ChartRecordsOk(charts: seq<ChartRecord>) {
    && (forall r | r in charts :: ChartRecordOk(r))
    && (forall i, j | 0 <= i < j < |charts| :: charts[i].chart.key != charts[j].chart.key)
  }

  predicate TachiRecordOk(r: TachiRecord) {
    && CatalogText(r.id) && CatalogText(r.artist) && CatalogText(r.version)
    && r.titles != {} && (forall t | t in r.titles :: CatalogText(t.value))
    && ChartRecordsOk(r.charts)
  }

  predicate TextageRecordOk(r: TextageRecord) {
    && CatalogText(r.id) && CatalogText(r.title)
    && ChartRecordsOk(r.charts)
    && r.bpmMin <= 65535 && r.bpmMax <= 65535 && BpmOk(r.bpmMin, r.bpmMax)
  }

  predicate DqnRecordOk(r: DqnRecord) {
    r.pack.Some? ==> CatalogText(r.pack.value)
  }

  predicate TachiRecordsOk(records: seq<TachiRecord>) {
    && (forall r | r in records :: TachiRecordOk(r))
    && (forall i, j | 0 <= i < j < |records| :: records[i].id != records[j].id)
  }

  predicate TextageRecordsOk(records: seq<TextageRecord>) {
    && (forall r | r in records :: TextageRecordOk(r))
    && (forall i, j | 0 <= i < j < |records| :: records[i].id != records[j].id)
  }

  // The evidence belongs to the source, and to an admitted revision of it.
  predicate SnapshotEvidenceOk(s: Snapshot, source: SourceId) {
    s.policy == PolicyFor(source) ==> s.evidence.source == source && EvidenceOk(IdOf(s.evidence), s.evidence)
  }

  // An evidence id determines its observations: a song that already cites this evidence cites what it says.
  predicate EvidenceDetermines(c: Catalog, records: seq<TachiRecord>, ev: EvidenceId) {
    forall r | r in records ::
      FromTachi(r.id) in c.songs && AttributeKey(Tachi, r.id, ev) in c.songs[FromTachi(r.id)].links.attributes ==>
        c.songs[FromTachi(r.id)].links.attributes[AttributeKey(Tachi, r.id, ev)] == TachiAttributes(r)
  }

  predicate TachiOk(c: Catalog, snapshot: Option<Snapshot>) {
    snapshot.Some? ==>
      && SnapshotEvidenceOk(snapshot.value, Tachi)
      && TachiRecordsOk(TachiRecords(snapshot.value.observations))
      && EvidenceDetermines(c, TachiRecords(snapshot.value.observations), IdOf(snapshot.value.evidence))
  }

  predicate TextageOk(snapshot: Option<Snapshot>) {
    snapshot.Some? ==>
      SnapshotEvidenceOk(snapshot.value, Textage) && TextageRecordsOk(TextageRecords(snapshot.value.observations))
  }

  predicate DqnInputOk(snapshot: Option<Snapshot>) {
    snapshot.Some? ==>
      && SnapshotEvidenceOk(snapshot.value, Dqn)
      && forall r | r in DqnRecords(snapshot.value.observations) :: DqnRecordOk(r)
  }

  predicate InputOk(c: Catalog, input: Input) {
    TachiOk(c, input.tachi) && TextageOk(input.textage) && DqnInputOk(input.dqn)
  }
}
