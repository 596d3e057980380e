// Federating the same Tachi and dqn snapshots a second time changes neither the catalog nor the quarantine.
module FederationRepeat {
  import opened Common
  import opened CatalogModel
  import opened Federation
  import opened FederationSongs
  import opened FederationValid
  import opened FederationAccounting

  // The latest evidence of Tachi is not filed under an id of dqn.
  predicate FiledApart(c: Catalog) {
    Tachi in c.latest ==> !c.latest[Tachi].source.Dqn?
  }

  lemma ValidIsFiledApart(nfc: Nfc, c: Catalog)
    requires Valid(nfc, c)
    ensures FiledApart(c)
  {
  }

  // The catalogs' songs differ at most in their availability.
  predicate SameButStatus(a: map<SongId, Song>, b: map<SongId, Song>) {
    && a.Keys == b.Keys
    && forall id | id in a :: b[id] == a[id].(status := b[id].status)
  }

  // ---------------------------------------------------------------- one Tachi record twice

  // Merging the record into the song changes nothing.
  predicate Absorbs(song: Song, r: TachiRecord, source: SourceId) {
    && song.artist == r.artist && song.version == r.version
    && (forall t | t in r.titles :: Titled(song, Tachi, t.value, t.kind))
    && Attributed(song.links, TachiKey(r), TachiAttributes(r))
    && ChartsTaken(song.sheet, r.charts, source)
    && (r.primary ==> song.primary)
  }

  lemma {:induction false} ChartsTwice(sheet: Sheet, charts: seq<ChartRecord>, ev: EvidenceId)
    requires ChartsTaken(sheet, charts, ev.source)
    ensures WithCharts(sheet, charts, ev) == sheet
  {
    if charts != [] {
      var n := |charts| - 1;
      assert forall x | x in charts[..n] :: x in charts;
      ChartsTwice(sheet, charts[..n], ev);
      assert charts[n] in charts;
    }
  }

  lemma AbsorbedTwice(song: Song, r: TachiRecord, ev: EvidenceId)
    requires Absorbs(song, r, ev.source)
    ensures MergedTachi(song, r, ev) == song
    ensures !ChartConflict(song, r.charts)
  {
    ChartsTwice(song.sheet, r.charts, ev);
    assert WithTachiTitles(song, r.titles, ev).titles == song.titles;
  }

  lemma MergedAbsorbs(song: Song, r: TachiRecord, ev: EvidenceId)
    requires song.artist == r.artist && song.version == r.version && !ChartConflict(song, r.charts)
    requires forall i, j | 0 <= i < j < |r.charts| :: r.charts[i].chart.key != r.charts[j].chart.key
    ensures Absorbs(MergedTachi(song, r, ev), r, ev.source)
  {
    var after := MergedTachi(song, r, ev);
    hide TachiAttributes;
    AttributesTaken(song.links, TachiKey(r), TachiAttributes(r), ev);
    WithChartsTakes(song.sheet, r.charts, ev);
    hide WithCharts, WithAttributes, Attributed, ChartsTaken;
    forall t | t in r.titles ensures Titled(after, Tachi, t.value, t.kind) {
      if !Titled(song, Tachi, t.value, t.kind) {
        assert Title(t.value, Tachi, t.kind, ev) in after.titles;
      }
    }
  }

  lemma NewSongAbsorbs(r: TachiRecord, ev: EvidenceId)
    requires forall i, j | 0 <= i < j < |r.charts| :: r.charts[i].chart.key != r.charts[j].chart.key
    ensures Absorbs(NewSong(r, ev), r, ev.source)
  {
    var after := NewSong(r, ev);
    hide TachiAttributes;
    forall t | t in r.titles ensures Titled(after, Tachi, t.value, t.kind) {
      assert Title(t.value, Tachi, t.kind, ev) in after.titles;
    }
    assert Attributed(after.links, TachiKey(r), TachiAttributes(r)) by {
      assert ev in after.links.evidence[TachiKey(r)];
    }
    NewSheetTakes(r, ev);
    hide Attributed, ChartsTaken, RecordAt, ChartAt;
  }

  lemma NewSheetTakes(r: TachiRecord, ev: EvidenceId)
    requires forall i, j | 0 <= i < j < |r.charts| :: r.charts[i].chart.key != r.charts[j].chart.key
    ensures ChartsTaken(NewSong(r, ev).sheet, r.charts, ev.source)
  {
    hide TachiAttributes;
    var sheet := NewSong(r, ev).sheet;
    forall x | x in r.charts
      ensures x.chart.key in sheet.charts && sheet.charts[x.chart.key] == x.chart
      ensures x.chart.key in sheet.assertions && Asserted(sheet.assertions[x.chart.key], x, ev.source)
    {
      var y := RecordAt(r.charts, x.chart.key);
      var i :| 0 <= i < |r.charts| && r.charts[i] == x;
      var j :| 0 <= j < |r.charts| && r.charts[j] == y;
      assert i == j;
      assert sheet.assertions[x.chart.key] == {AssertionOf(x, ev)};
      assert AssertionOf(x, ev) in sheet.assertions[x.chart.key];
    }
  }

  lemma AbsorbsWithAnyStatus(song: Song, status: Status, r: TachiRecord, source: SourceId)
    requires Absorbs(song, r, source)
    ensures Absorbs(song.(status := status), r, source)
  {
    hide Attributed, ChartsTaken, TachiAttributes;
    forall t | t in r.titles ensures Titled(song.(status := status), Tachi, t.value, t.kind) {
      assert Titled(song, Tachi, t.value, t.kind);
    }
  }

  // ---------------------------------------------------------------- the Tachi fold twice

  // The records name different songs, and each describes a chart once.
  predicate Separate(records: seq<TachiRecord>) {
    && (forall i, j | 0 <= i < j < |records| :: records[i].id != records[j].id)
    && (forall x | x in records :: ChartRecordsOk(x.charts))
  }

  // The entries of the records refused, judged by the songs before the fold.
  function TachiRefusals(songs: map<SongId, Song>, records: seq<TachiRecord>): seq<Entry> {
    if records == [] then []
    else
      var r := records[|records| - 1];
      TachiRefusals(songs, records[..|records| - 1])
      + match TachiRefusal(songs, r)
        case None => []
        case Some(reason) => [Entry(Tachi, r.id, reason)]
  }

  lemma SameSongSameRefusal(a: map<SongId, Song>, b: map<SongId, Song>, r: TachiRecord)
    requires FromTachi(r.id) in a <==> FromTachi(r.id) in b
    requires FromTachi(r.id) in a ==> a[FromTachi(r.id)] == b[FromTachi(r.id)]
    ensures TachiRefusal(a, r) == TachiRefusal(b, r)
  {
    hide ChartConflict;
  }

  lemma TachiStepRefuses(l: Ledger, r: TachiRecord, ev: EvidenceId)
    ensures TachiStep(l, r, ev).quarantine ==
            l.quarantine + match TachiRefusal(l.catalog.songs, r)
                           case None => []
                           case Some(reason) => [Entry(Tachi, r.id, reason)]
  {
    hide TachiRefusal, TachiSong;
  }

  // Records judge only the song they name, so distinct records do not affect each other's verdict.
  lemma {:induction false} TachiFoldRefuses(l: Ledger, records: seq<TachiRecord>, ev: EvidenceId)
    requires Separate(records)
    ensures TachiFold(l, records, ev).quarantine == l.quarantine + TachiRefusals(l.catalog.songs, records)
  {
    hide TachiSong, TachiRefusal, TachiStep, ChartRecordsOk;
    if records != [] {
      var n := |records| - 1;
      assert forall r | r in records[..n] :: r in records;
      TachiFoldRefuses(l, records[..n], ev);
      assert forall r | r in records[..n] :: r.id != records[n].id;
      hide Separate;
      TachiFoldFrame(l, records[..n], ev, FromTachi(records[n].id));
      var front := TachiFold(l, records[..n], ev);
      SameSongSameRefusal(front.catalog.songs, l.catalog.songs, records[n]);
      TachiStepRefuses(front, records[n], ev);
    }
  }

  lemma TachiStepFrame(l: Ledger, r: TachiRecord, ev: EvidenceId, id: SongId)
    requires id != FromTachi(r.id)
    ensures
      var before, after := l.catalog.songs, TachiStep(l, r, ev).catalog.songs;
      (id in after <==> id in before) && (id in before ==> after[id] == before[id])
  {
    hide TachiRefusal, TachiSong;
  }

  lemma TachiStepSettles(l: Ledger, r: TachiRecord, ev: EvidenceId)
    requires ChartRecordsOk(r.charts)
    ensures
      var before, after := l.catalog.songs, TachiStep(l, r, ev).catalog.songs;
      var id := FromTachi(r.id);
      if TachiRefusal(before, r).Some? then id in before && id in after && after[id] == before[id]
      else id in after && Absorbs(after[id], r, ev.source)
  {
    hide ChartConflict, Absorbs, ChartRecordOk, MergedTachi, NewSong;
    if TachiRefusal(l.catalog.songs, r).None? {
      if FromTachi(r.id) in l.catalog.songs {
        MergedAbsorbs(l.catalog.songs[FromTachi(r.id)], r, ev);
      } else {
        NewSongAbsorbs(r, ev);
      }
    }
  }

  // After the fold, every record is either refused as before or absorbed by its song.
  lemma {:induction false} TachiFoldSettles(l: Ledger, records: seq<TachiRecord>, ev: EvidenceId, r: TachiRecord)
    requires Separate(records)
    requires r in records
    ensures
      var before, after := l.catalog.songs, TachiFold(l, records, ev).catalog.songs;
      var id := FromTachi(r.id);
      if TachiRefusal(before, r).Some? then id in before && id in after && after[id] == before[id]
      else id in after && Absorbs(after[id], r, ev.source)
  {
    hide TachiStep, TachiRefusal, Absorbs, ChartRecordsOk;
    var n := |records| - 1;
    var front, last := records[..n], records[n];
    assert forall x | x in front :: x in records && x.id != last.id;
    if r == last {
      TachiFoldFrame(l, front, ev, FromTachi(r.id));
      var met := TachiFold(l, front, ev);
      SameSongSameRefusal(met.catalog.songs, l.catalog.songs, r);
      TachiStepSettles(met, r, ev);
    } else {
      assert r in front;
      TachiFoldSettles(l, front, ev, r);
      TachiStepFrame(TachiFold(l, front, ev), last, ev, FromTachi(r.id));
    }
  }

  // The record is refused, or its song has it already.
  predicate Spent(songs: map<SongId, Song>, r: TachiRecord, source: SourceId) {
    FromTachi(r.id) in songs && (TachiRefusal(songs, r).Some? || Absorbs(songs[FromTachi(r.id)], r, source))
  }

  // Once every record is refused as before or absorbed, the fold leaves the catalog alone.
  lemma {:induction false} SettledFold(l: Ledger, records: seq<TachiRecord>, ev: EvidenceId)
    requires forall r | r in records :: Spent(l.catalog.songs, r, ev.source)
    ensures TachiFold(l, records, ev).catalog == l.catalog
  {
    hide Absorbs, ChartConflict, MergedTachi, NewSong;
    if records != [] {
      var n := |records| - 1;
      var r := records[n];
      assert forall x | x in records[..n] :: x in records;
      SettledFold(l, records[..n], ev);
      assert r in records;
      if TachiRefusal(l.catalog.songs, r).None? {
        AbsorbedTwice(l.catalog.songs[FromTachi(r.id)], r, ev);
        assert l.catalog.songs[FromTachi(r.id) := l.catalog.songs[FromTachi(r.id)]] == l.catalog.songs;
      }
    }
  }

  // A record is judged alike before the first fold and before the second.
  lemma SameVerdict(before: map<SongId, Song>, after: map<SongId, Song>, r: TachiRecord, source: SourceId)
    requires
      var id := FromTachi(r.id);
      id in after
      && if TachiRefusal(before, r).Some? then id in before && after[id] == before[id].(status := after[id].status)
         else Absorbs(after[id], r, source)
    ensures TachiRefusal(after, r) == TachiRefusal(before, r)
  {
    if TachiRefusal(before, r).None? {
      AbsorbedTwice(after[FromTachi(r.id)], r, EvidenceId(source, "", ""));
    }
  }

  lemma {:induction false} SameRefusals(a: map<SongId, Song>, b: map<SongId, Song>, records: seq<TachiRecord>)
    requires forall r | r in records :: TachiRefusal(a, r) == TachiRefusal(b, r)
    ensures TachiRefusals(a, records) == TachiRefusals(b, records)
  {
    hide TachiRefusal;
    if records != [] {
      assert forall x | x in records[..|records| - 1] :: x in records;
      SameRefusals(a, b, records[..|records| - 1]);
      assert records[|records| - 1] in records;
    }
  }

  // Under the outcome of the fold, with whatever availability it was given, the record is judged as before.
  lemma RecordTwice(l: Ledger, songs: map<SongId, Song>, records: seq<TachiRecord>, ev: EvidenceId, r: TachiRecord)
    requires Separate(records)
    requires SameButStatus(TachiFold(l, records, ev).catalog.songs, songs)
    requires r in records
    ensures TachiRefusal(songs, r) == TachiRefusal(l.catalog.songs, r) && Spent(songs, r, ev.source)
  {
    TachiFoldSettles(l, records, ev, r);
    hide TachiFold, TachiRefusal, Absorbs, ChartRecordsOk;
    var id := FromTachi(r.id);
    var once := TachiFold(l, records, ev).catalog.songs;
    assert songs[id] == once[id].(status := songs[id].status);
    if TachiRefusal(l.catalog.songs, r).None? {
      AbsorbsWithAnyStatus(once[id], songs[id].status, r, ev.source);
    }
    SameVerdict(l.catalog.songs, songs, r, ev.source);
  }

  lemma AllSpent(l: Ledger, songs: map<SongId, Song>, records: seq<TachiRecord>, ev: EvidenceId)
    requires Separate(records) && SameButStatus(TachiFold(l, records, ev).catalog.songs, songs)
    ensures forall r | r in records :: TachiRefusal(songs, r) == TachiRefusal(l.catalog.songs, r)
    ensures forall r | r in records :: Spent(songs, r, ev.source)
  {
    hide TachiFold, TachiRefusal, Spent, SameButStatus, Separate;
    forall r | r in records
      ensures TachiRefusal(songs, r) == TachiRefusal(l.catalog.songs, r) && Spent(songs, r, ev.source)
    {
      RecordTwice(l, songs, records, ev, r);
    }
  }

  lemma RefusalsTwice(l: Ledger, songs: map<SongId, Song>, records: seq<TachiRecord>, ev: EvidenceId)
    requires Separate(records) && SameButStatus(TachiFold(l, records, ev).catalog.songs, songs)
    ensures TachiRefusals(songs, records) == TachiRefusals(l.catalog.songs, records)
  {
    hide TachiFold, TachiRefusal, Spent, SameButStatus, TachiRefusals, Separate;
    AllSpent(l, songs, records, ev);
    SameRefusals(songs, l.catalog.songs, records);
  }

  lemma CatalogTwice(l: Ledger, again: Ledger, records: seq<TachiRecord>, ev: EvidenceId)
    requires Separate(records) && SameButStatus(TachiFold(l, records, ev).catalog.songs, again.catalog.songs)
    ensures TachiFold(again, records, ev).catalog == again.catalog
  {
    hide TachiFold, TachiRefusal, Spent, SameButStatus, TachiRefusals, Separate;
    AllSpent(l, again.catalog.songs, records, ev);
    SettledFold(again, records, ev);
  }

  // The second fold adds the same entries and nothing else.
  lemma TachiFoldTwice(l: Ledger, again: Ledger, records: seq<TachiRecord>, ev: EvidenceId)
    requires Separate(records) && SameButStatus(TachiFold(l, records, ev).catalog.songs, again.catalog.songs)
    ensures TachiFold(again, records, ev).catalog == again.catalog
    ensures TachiFold(again, records, ev).quarantine == again.quarantine + TachiRefusals(l.catalog.songs, records)
  {
    hide TachiFold, SameButStatus, TachiRefusals, Separate;
    CatalogTwice(l, again, records, ev);
    RefusalsTwice(l, again.catalog.songs, records, ev);
    TachiFoldRefuses(again, records, ev);
  }

  // ---------------------------------------------------------------- dqn twice

  lemma SameNames(nfc: Nfc, a: map<SongId, Song>, b: map<SongId, Song>, name: TitleArtist)
    requires SameButStatus(a, b)
    ensures NameMatches(nfc, a, name) == NameMatches(nfc, b, name)
  {
    forall id | id in a ensures NamedBy(nfc, a[id], name) <==> NamedBy(nfc, b[id], name) {
      assert b[id] == a[id].(status := b[id].status);
    }
  }

  // The record's binding and pack are there.
  predicate Holds(nfc: Nfc, dqn: map<TitleArtist, DqnBinding>, r: DqnRecord, ev: EvidenceId) {
    var name := NameOf(nfc, r);
    name in dqn && ev in dqn[name].packs && r.pack in dqn[name].packs[ev]
  }

  predicate Matched(nfc: Nfc, songs: map<SongId, Song>, r: DqnRecord) {
    |NameMatches(nfc, songs, NameOf(nfc, r))| == 1
  }

  lemma {:induction false} DqnFoldHolds(nfc: Nfc, songs: map<SongId, Song>, dqn: map<TitleArtist, DqnBinding>,
                                        records: seq<DqnRecord>, ev: EvidenceId, r: DqnRecord)
    requires r in records && Matched(nfc, songs, r)
    ensures Holds(nfc, DqnFold(nfc, songs, dqn, records, ev), r, ev)
  {
    hide NameMatches;
    var n := |records| - 1;
    if r != records[n] {
      assert r in records[..n];
      DqnFoldHolds(nfc, songs, dqn, records[..n], ev, r);
    }
  }

  lemma {:induction false} HeldFold(nfc: Nfc, songs: map<SongId, Song>, dqn: map<TitleArtist, DqnBinding>,
                                    records: seq<DqnRecord>, ev: EvidenceId)
    requires forall r | r in records :: Matched(nfc, songs, r) ==> Holds(nfc, dqn, r, ev)
    ensures DqnFold(nfc, songs, dqn, records, ev) == dqn
  {
    hide NameMatches;
    if records != [] {
      var n := |records| - 1;
      assert forall x | x in records[..n] :: x in records;
      HeldFold(nfc, songs, dqn, records[..n], ev);
      assert records[n] in records;
      if Matched(nfc, songs, records[n]) {
        var name := NameOf(nfc, records[n]);
        var b := dqn[name];
        assert b.packs[ev] + {records[n].pack} == b.packs[ev];
        assert b.packs[ev := b.packs[ev]] == b.packs;
        assert dqn[name := b] == dqn;
      }
    }
  }

  // A name bound by the fold was bound before, or is the name of a listed record that names its song alone.
  lemma {:induction false} DqnFoldOrigin(nfc: Nfc, songs: map<SongId, Song>, dqn: map<TitleArtist, DqnBinding>,
                                         records: seq<DqnRecord>, ev: EvidenceId, name: TitleArtist)
    requires name in DqnFold(nfc, songs, dqn, records, ev)
    ensures
      var b := DqnFold(nfc, songs, dqn, records, ev)[name];
      || (name in dqn && b.song == dqn[name].song)
      || (name !in dqn && (exists r :: r in records && NameOf(nfc, r) == name)
          && NameMatches(nfc, songs, name) == {b.song})
  {
    hide NameMatches;
    var n := |records| - 1;
    if records != [] {
      var before := DqnFold(nfc, songs, dqn, records[..n], ev);
      var here := NameOf(nfc, records[n]);
      if name in before {
        DqnFoldOrigin(nfc, songs, dqn, records[..n], ev, name);
        assert forall x | x in records[..n] :: x in records;
      } else {
        assert name == here && records[n] in records;
        SoleMatch(NameMatches(nfc, songs, here));
        BoundStays(nfc, songs, dqn, records[..n], ev, name);
      }
    }
  }

  lemma SoleMatch(s: set<SongId>)
    requires |s| == 1
    ensures s == {Only(s)}
  {
    assert |s - {Only(s)}| == 0;
  }

  lemma {:induction false} BoundStays(nfc: Nfc, songs: map<SongId, Song>, dqn: map<TitleArtist, DqnBinding>,
                                      records: seq<DqnRecord>, ev: EvidenceId, name: TitleArtist)
    ensures name in dqn ==> name in DqnFold(nfc, songs, dqn, records, ev)
  {
    hide NameMatches;
    if records != [] {
      BoundStays(nfc, songs, dqn, records[..|records| - 1], ev, name);
    }
  }

  // Bindings made in a run that did not regress do not regress in the next.
  lemma NoNewRegression(nfc: Nfc, c: Catalog, d: Catalog, songs: map<SongId, Song>, records: seq<DqnRecord>,
                        ev: EvidenceId)
    requires !Regressed(nfc, c, songs, records)
    requires d.dqn == DqnFold(nfc, songs, c.dqn, records, ev)
    ensures !Regressed(nfc, d, songs, records)
  {
    hide NameMatches, DqnFold;
    forall name | name in d.dqn
      ensures exists r :: r in records && NameOf(nfc, r) == name
      ensures NameMatches(nfc, songs, name) == {d.dqn[name].song}
    {
      DqnFoldOrigin(nfc, songs, c.dqn, records, ev, name);
      if name in c.dqn {
        assert !(forall r | r in records :: NameOf(nfc, r) != name);
      }
    }
  }

  lemma SameRegression(nfc: Nfc, c: Catalog, a: map<SongId, Song>, b: map<SongId, Song>, records: seq<DqnRecord>)
    requires SameButStatus(a, b)
    ensures Regressed(nfc, c, a, records) <==> Regressed(nfc, c, b, records)
  {
    hide NameMatches, SameButStatus;
    forall name | name in c.dqn ensures NameMatches(nfc, a, name) == NameMatches(nfc, b, name) {
      SameNames(nfc, a, b, name);
    }
  }

  lemma {:induction false} SameUnmatched(nfc: Nfc, a: map<SongId, Song>, b: map<SongId, Song>, records: seq<DqnRecord>)
    requires SameButStatus(a, b)
    ensures DqnUnmatched(nfc, a, records) == DqnUnmatched(nfc, b, records)
  {
    hide NameMatches, SameButStatus;
    if records != [] {
      SameUnmatched(nfc, a, b, records[..|records| - 1]);
      SameNames(nfc, a, b, NameOf(nfc, records[|records| - 1]));
    }
  }

  lemma {:induction false} SameFold(nfc: Nfc, a: map<SongId, Song>, b: map<SongId, Song>,
                                    dqn: map<TitleArtist, DqnBinding>, records: seq<DqnRecord>, ev: EvidenceId)
    requires SameButStatus(a, b)
    ensures DqnFold(nfc, a, dqn, records, ev) == DqnFold(nfc, b, dqn, records, ev)
  {
    hide NameMatches, SameButStatus;
    if records != [] {
      SameFold(nfc, a, b, dqn, records[..|records| - 1], ev);
      SameNames(nfc, a, b, NameOf(nfc, records[|records| - 1]));
    }
  }

  // ---------------------------------------------------------------- a whole federation twice

  // What the adapters guarantee of the snapshots; no Textage snapshot.
  predicate RepeatOk(input: Input) {
    && input.textage.None?
    && (input.tachi.Some? ==>
          && SnapshotEvidenceOk(input.tachi.value, Tachi)
          && TachiRecordsOk(TachiRecords(input.tachi.value.observations)))
    && (input.dqn.Some? ==> SnapshotEvidenceOk(input.dqn.value, Dqn))
  }

  // The latest evidence of the source is the snapshot's.
  predicate Latest(c: Catalog, e: Evidence, source: SourceId) {
    source in c.latest && c.latest[source] == IdOf(e) && IdOf(e) in c.evidence && c.evidence[IdOf(e)] == e
  }

  // The two catalogs agree on the latest evidence of the source.
  predicate SameLatest(c: Catalog, d: Catalog, source: SourceId) {
    && (source in c.latest <==> source in d.latest)
    && (source in c.latest ==>
          && d.latest[source] == c.latest[source]
          && (c.latest[source] in c.evidence <==> c.latest[source] in d.evidence)
          && (c.latest[source] in c.evidence ==> d.evidence[c.latest[source]] == c.evidence[c.latest[source]]))
  }

  lemma PolicySource(source: SourceId)
    ensures PolicyFor(source).source == source
  {
  }

  predicate TakesTachi(c: Catalog, input: Input) {
    input.tachi.Some? && SnapshotRefusal(c, input.tachi.value, Tachi).None?
  }

  // The second run refuses the Tachi snapshot for the reason the first did.
  predicate JudgedAlike(c: Catalog, d: Catalog, input: Input) {
    input.tachi.Some? ==> SnapshotRefusal(d, input.tachi.value, Tachi) == SnapshotRefusal(c, input.tachi.value, Tachi)
  }

  lemma RecordedAgain(d: Catalog, e: Evidence, source: SourceId)
    requires Latest(d, e, source)
    ensures Recorded(d, e, source) == d
  {
    assert d.evidence[IdOf(e) := e] == d.evidence && d.latest[source := IdOf(e)] == d.latest;
  }

  lemma TachiAgain(c: Catalog, d: Catalog, input: Input)
    requires RepeatOk(input)
    requires SameButStatus(ApplyTachi(Ledger(c, []), input.tachi).catalog.songs, d.songs)
    requires if TakesTachi(c, input) then Latest(d, input.tachi.value.evidence, Tachi) else JudgedAlike(c, d, input)
    ensures ApplyTachi(Ledger(d, []), input.tachi) == Ledger(d, ApplyTachi(Ledger(c, []), input.tachi).quarantine)
  {
    hide TachiFold, SameButStatus, PolicyFor, TachiRefusals;
    PolicySource(Tachi);
    if TakesTachi(c, input) {
      var s := input.tachi.value;
      var records := Sorted(TachiRecords(s.observations), TachiKeyOf);
      var ev := IdOf(s.evidence);
      SortedTachi(TachiRecords(s.observations));
      assert Healthy(d, s);
      hide Healthy, Sorted, Latest;
      TachiFoldTwice(Ledger(c, []), Ledger(d, []), records, ev);
      TachiFoldRefuses(Ledger(c, []), records, ev);
      RecordedAgain(d, s.evidence, Tachi);
    }
  }

  predicate TakesDqn(nfc: Nfc, previous: Catalog, c: Catalog, input: Input) {
    && input.dqn.Some? && SnapshotRefusal(c, input.dqn.value, Dqn).None?
    && !Regressed(nfc, previous, c.songs, DqnRecords(input.dqn.value.observations))
  }

  lemma DqnAgain(nfc: Nfc, previous: Catalog, l: Ledger, d: Catalog, q: seq<Entry>, input: Input)
    requires RepeatOk(input) && previous.dqn == l.catalog.dqn && q == l.quarantine
    requires SameButStatus(l.catalog.songs, d.songs)
    requires d.dqn == ApplyDqn(nfc, previous, l, input.dqn).catalog.dqn
    requires if TakesDqn(nfc, previous, l.catalog, input) then Latest(d, input.dqn.value.evidence, Dqn)
             else SameLatest(l.catalog, d, Dqn)
    ensures ApplyDqn(nfc, d, Ledger(d, q), input.dqn)
            == Ledger(d, ApplyDqn(nfc, previous, l, input.dqn).quarantine)
  {
    hide DqnFold, SameButStatus, PolicyFor, Regressed, DqnUnmatched, DqnRegressions, NameMatches;
    PolicySource(Dqn);
    if input.dqn.Some? && SnapshotRefusal(l.catalog, input.dqn.value, Dqn).None? {
      var s := input.dqn.value;
      var records := DqnRecords(s.observations);
      var ev := IdOf(s.evidence);
      assert Healthy(d, s);
      SameRegression(nfc, previous, l.catalog.songs, d.songs, records);
      if Regressed(nfc, previous, l.catalog.songs, records) {
        SameDqnRegression(nfc, previous, d, d.songs, records);
      } else {
        SameFold(nfc, l.catalog.songs, d.songs, previous.dqn, records, ev);
        NoNewRegression(nfc, previous, d, d.songs, records, ev);
        forall r | r in records && Matched(nfc, d.songs, r) ensures Holds(nfc, d.dqn, r, ev) {
          DqnFoldHolds(nfc, d.songs, previous.dqn, records, ev, r);
        }
        HeldFold(nfc, d.songs, d.dqn, records, ev);
        SameUnmatched(nfc, l.catalog.songs, d.songs, records);
        RecordedAgain(d, s.evidence, Dqn);
      }
    }
  }

  lemma SameDqnRegression(nfc: Nfc, a: Catalog, b: Catalog, songs: map<SongId, Song>, records: seq<DqnRecord>)
    requires a.dqn == b.dqn
    ensures Regressed(nfc, a, songs, records) <==> Regressed(nfc, b, songs, records)
  {
    hide NameMatches, NameOf;
  }

  lemma TachiRecorded(c: Catalog, input: Input)
    ensures
      var d := ApplyTachi(Ledger(c, []), input.tachi).catalog;
      if TakesTachi(c, input) then
        var e := input.tachi.value.evidence;
        d.latest == c.latest[Tachi := IdOf(e)] && d.evidence == c.evidence[IdOf(e) := e]
      else d.latest == c.latest && d.evidence == c.evidence
  {
    hide TachiFold, PolicyFor, Healthy, Sorted;
    if TakesTachi(c, input) {
      var s := input.tachi.value;
      TachiFoldKeepsRest(Ledger(c, []), Sorted(TachiRecords(s.observations), TachiKeyOf), IdOf(s.evidence));
    }
  }

  lemma DqnRecorded(nfc: Nfc, previous: Catalog, l: Ledger, input: Input)
    ensures
      var d := ApplyDqn(nfc, previous, l, input.dqn).catalog;
      if TakesDqn(nfc, previous, l.catalog, input) then
        var e := input.dqn.value.evidence;
        d.latest == l.catalog.latest[Dqn := IdOf(e)] && d.evidence == l.catalog.evidence[IdOf(e) := e]
      else d.latest == l.catalog.latest && d.evidence == l.catalog.evidence
  {
    hide DqnFold, PolicyFor, Healthy, Regressed, DqnUnmatched, DqnRegressions;
  }

  lemma FinishKeepsLatest(c: Catalog, source: SourceId)
    ensures SameLatest(c, Pruned(Refreshed(c)), source)
  {
    hide ReferencedBySong, ExpectedStatus;
    var r := Refreshed(c);
    assert source in c.latest ==> Referenced(r, c.latest[source]);
  }

  // The Tachi snapshot was refused for its size, held against evidence that the dqn snapshot then replaces by evidence
  // the Tachi snapshot measures up to.
  predicate Diverges(nfc: Nfc, c: Catalog, input: Input) {
    && input.tachi.Some? && input.dqn.Some?
    && SnapshotRefusal(c, input.tachi.value, Tachi) == Some(SourceHealthRegression)
    && TakesDqn(nfc, c, c, input)
    && Tachi in c.latest && c.latest[Tachi] == IdOf(input.dqn.value.evidence)
    && 0 < input.tachi.value.evidence.records
    && input.dqn.value.evidence.records <= input.tachi.value.evidence.records
  }

  lemma RefusedTachiKeeps(c: Catalog, input: Input)
    requires !TakesTachi(c, input)
    ensures ApplyTachi(Ledger(c, []), input.tachi).catalog == c
  {
    hide PolicyFor, Healthy, TachiFold, Sorted;
  }

  // Only a dqn snapshot that replaces the evidence Tachi is held to changes the verdict on a Tachi snapshot.
  lemma JudgedAgain(nfc: Nfc, c: Catalog, m: Catalog, d: Catalog, input: Input)
    requires input.tachi.Some? && !TakesTachi(c, input)
    requires
      if TakesDqn(nfc, c, c, input) then
        var e := input.dqn.value.evidence;
        m.latest == c.latest[Dqn := IdOf(e)] && m.evidence == c.evidence[IdOf(e) := e]
      else m.latest == c.latest && m.evidence == c.evidence
    requires SameLatest(m, d, Tachi)
    ensures JudgedAlike(c, d, input) <==> !Diverges(nfc, c, input)
  {
    hide Regressed;
    PolicySource(Tachi);
    hide PolicyFor;
  }

  // The latest evidence after the run, source by source.
  lemma LatestAfter(nfc: Nfc, c: Catalog, input: Input)
    requires RepeatOk(input)
    ensures
      var l := ApplyTachi(Ledger(c, []), input.tachi);
      var d := Federate(nfc, c, input).catalog;
      && (if TakesTachi(c, input) then Latest(d, input.tachi.value.evidence, Tachi)
          else JudgedAlike(c, d, input) <==> !Diverges(nfc, c, input))
      && (if TakesDqn(nfc, c, l.catalog, input) then Latest(d, input.dqn.value.evidence, Dqn)
          else SameLatest(l.catalog, d, Dqn))
  {
    hide ApplyTachi, ApplyDqn, Refreshed, Pruned, PolicyFor, Regressed, EvidenceOk, TachiRecordsOk, Healthy;
    var l1 := ApplyTachi(Ledger(c, []), input.tachi);
    var l3 := ApplyDqn(nfc, c, l1, input.dqn);
    TachiRecorded(c, input);
    DqnRecorded(nfc, c, l1, input);
    FinishKeepsLatest(l3.catalog, Tachi);
    FinishKeepsLatest(l3.catalog, Dqn);
    if !TakesTachi(c, input) && input.tachi.Some? {
      assert l1.catalog == c by { RefusedTachiKeeps(c, input); }
      JudgedAgain(nfc, c, l3.catalog, Federate(nfc, c, input).catalog, input);
    }
  }

  lemma RefreshKeepsSongs(c: Catalog)
    ensures SameButStatus(c.songs, Refreshed(c).songs)
  {
    hide ExpectedStatus;
  }

  // Refreshing and pruning what has been refreshed and pruned changes nothing.
  lemma FinishTwice(c: Catalog)
    ensures Refreshed(Pruned(Refreshed(c))) == Pruned(Refreshed(c))
    ensures Pruned(Pruned(Refreshed(c))) == Pruned(Refreshed(c))
  {
    hide ReferencedBySong;
    var r := Refreshed(c);
    var p := Pruned(r);
    assert Refreshed(p).songs == p.songs;
    forall e ensures Referenced(p, e) <==> Referenced(r, e) {
      SameReferences(p, r, e);
    }
    hide Referenced;
    assert Pruned(p).evidence == p.evidence;
  }

  lemma SameReferences(c: Catalog, d: Catalog, e: EvidenceId)
    requires c.songs == d.songs && c.latest == d.latest && c.dqn == d.dqn
    ensures Referenced(c, e) <==> Referenced(d, e)
  {
    hide ReferencedBySong;
  }

  lemma AlikeTwice(nfc: Nfc, c: Catalog, input: Input)
    requires RepeatOk(input) && !Diverges(nfc, c, input)
    ensures Federate(nfc, Federate(nfc, c, input).catalog, input) == Federate(nfc, c, input)
  {
    hide ApplyTachi, ApplyDqn, Refreshed, Pruned, SameButStatus, Latest, SameLatest, JudgedAlike, Diverges;
    var l1 := ApplyTachi(Ledger(c, []), input.tachi);
    var l3 := ApplyDqn(nfc, c, l1, input.dqn);
    var d := Federate(nfc, c, input).catalog;
    LatestAfter(nfc, c, input);
    TachiAndDqnKeep(nfc, c, input);
    RefreshKeepsSongs(l3.catalog);
    PrunedKeepsSongs(Refreshed(l3.catalog));
    TachiAgain(c, d, input);
    DqnAgain(nfc, c, l1, d, l1.quarantine, input);
    FinishTwice(l3.catalog);
  }

  lemma TachiAndDqnKeep(nfc: Nfc, c: Catalog, input: Input)
    ensures
      var l1 := ApplyTachi(Ledger(c, []), input.tachi);
      var l3 := ApplyDqn(nfc, c, l1, input.dqn);
      l1.catalog.dqn == c.dqn && l3.catalog.songs == l1.catalog.songs
      && Refreshed(l3.catalog).dqn == l3.catalog.dqn && Pruned(Refreshed(l3.catalog)).dqn == l3.catalog.dqn
  {
    hide TachiFold, PolicyFor, Regressed, DqnUnmatched, DqnRegressions, DqnFold, Healthy, Sorted, ExpectedStatus;
    hide Referenced, TachiRecords, DqnRecords;
    if TakesTachi(c, input) {
      var s := input.tachi.value;
      TachiFoldKeepsRest(Ledger(c, []), Sorted(TachiRecords(s.observations), TachiKeyOf), IdOf(s.evidence));
    }
  }

  lemma PrunedKeepsSongs(c: Catalog)
    ensures Pruned(c).songs == c.songs
  {
  }

  // ---------------------------------------------------------------- when the two runs differ

  // The entry of a Tachi snapshot refused for its size.
  predicate TachiRegression(e: Entry) {
    e.source == Tachi && e.reason == SourceHealthRegression
  }

  lemma {:induction false} RefusalsAreOfRecords(songs: map<SongId, Song>, records: seq<TachiRecord>)
    ensures forall e | e in TachiRefusals(songs, records) :: !TachiRegression(e)
  {
    hide ChartConflict;
    if records != [] {
      RefusalsAreOfRecords(songs, records[..|records| - 1]);
    }
  }

  lemma {:induction false} UnmatchedAreDqn(nfc: Nfc, songs: map<SongId, Song>, records: seq<DqnRecord>)
    ensures forall e | e in DqnUnmatched(nfc, songs, records) :: e.source == Dqn
  {
    hide NameMatches, NameOf;
    if records != [] {
      UnmatchedAreDqn(nfc, songs, records[..|records| - 1]);
    }
  }

  // Applying a dqn snapshot adds no refusal of a Tachi snapshot and takes no entry away.
  lemma DqnAddsNoRegression(nfc: Nfc, previous: Catalog, l: Ledger, snapshot: Option<Snapshot>, e: Entry)
    requires TachiRegression(e)
    ensures e in ApplyDqn(nfc, previous, l, snapshot).quarantine <==> e in l.quarantine
  {
    PolicySource(Dqn);
    hide PolicyFor, Healthy, Regressed, NameMatches, NameOf, DqnFold, DqnUnmatched;
    if snapshot.Some? {
      UnmatchedAreDqn(nfc, l.catalog.songs, DqnRecords(snapshot.value.observations));
    }
  }

  lemma InQuarantine(nfc: Nfc, c: Catalog, input: Input, e: Entry)
    requires input.textage.None?
    ensures e in Federate(nfc, c, input).quarantine
            <==> e in ApplyDqn(nfc, c, ApplyTachi(Ledger(c, []), input.tachi), input.dqn).quarantine
  {
    hide ApplyTachi, ApplyDqn, Refreshed, Pruned;
  }

  lemma RegressesOnce(c: Catalog, input: Input)
    requires input.tachi.Some? && SnapshotRefusal(c, input.tachi.value, Tachi) == Some(SourceHealthRegression)
    ensures ApplyTachi(Ledger(c, []), input.tachi).quarantine
            == [Entry(Tachi, input.tachi.value.evidence.revision, SourceHealthRegression)]
  {
    PolicySource(Tachi);
    hide PolicyFor, Healthy, TachiFold, Sorted;
  }

  lemma TakenHasNoRegression(d: Catalog, input: Input, e: Entry)
    requires RepeatOk(input) && TakesTachi(d, input) && TachiRegression(e)
    ensures e !in ApplyTachi(Ledger(d, []), input.tachi).quarantine
  {
    var records := TachiRecords(input.tachi.value.observations);
    hide PolicyFor, Healthy, TachiFold, TachiRecords, TachiRefusals;
    SortedTachi(records);
    TachiFoldRefuses(Ledger(d, []), Sorted(records, TachiKeyOf), IdOf(input.tachi.value.evidence));
    RefusalsAreOfRecords(d.songs, Sorted(records, TachiKeyOf));
  }

  lemma TakenTheSecondTime(nfc: Nfc, c: Catalog, input: Input)
    requires RepeatOk(input) && Diverges(nfc, c, input)
    ensures TakesTachi(Federate(nfc, c, input).catalog, input)
  {
    hide RepeatOk, TakesDqn, PolicyFor, ApplyTachi, ApplyDqn, Federate, Latest, SameLatest;
    LatestAfter(nfc, c, input);
  }

  lemma DivergesDiffers(nfc: Nfc, c: Catalog, input: Input)
    requires RepeatOk(input) && Diverges(nfc, c, input)
    ensures Federate(nfc, Federate(nfc, c, input).catalog, input) != Federate(nfc, c, input)
  {
    var d := Federate(nfc, c, input).catalog;
    var e := Entry(Tachi, input.tachi.value.evidence.revision, SourceHealthRegression);
    TakenTheSecondTime(nfc, c, input);
    assert input.textage.None?;
    hide Federate, ApplyTachi, ApplyDqn, TakesTachi, TakesDqn, SnapshotRefusal, RepeatOk;
    RegressesOnce(c, input);
    TakenHasNoRegression(d, input, e);
    DqnAddsNoRegression(nfc, c, ApplyTachi(Ledger(c, []), input.tachi), input.dqn, e);
    DqnAddsNoRegression(nfc, d, ApplyTachi(Ledger(d, []), input.tachi), input.dqn, e);
    InQuarantine(nfc, c, input, e);
    InQuarantine(nfc, d, input, e);
  }

  /** Without a Textage snapshot, federating the same snapshots again gives the same catalog and the same quarantine,
      unless the two runs judge the Tachi snapshot differently. */
  lemma FederateTwiceExactly(nfc: Nfc, c: Catalog, input: Input)
    requires RepeatOk(input)
    ensures Federate(nfc, Federate(nfc, c, input).catalog, input) == Federate(nfc, c, input)
            <==> !Diverges(nfc, c, input)
  {
    hide Federate, Diverges, RepeatOk;
    if Diverges(nfc, c, input) {
      DivergesDiffers(nfc, c, input);
    } else {
      AlikeTwice(nfc, c, input);
    }
  }

  lemma ApartDoesNotDiverge(nfc: Nfc, c: Catalog, input: Input)
    requires FiledApart(c) && RepeatOk(input)
    ensures !Diverges(nfc, c, input)
  {
    PolicySource(Dqn);
    hide TachiRecordsOk, PolicyFor, Healthy, Regressed;
  }

  /** A catalog whose latest Tachi evidence is not filed under a dqn id, so every valid one, is settled by one run. */
  lemma FederateTwice(nfc: Nfc, c: Catalog, input: Input)
    requires FiledApart(c) && RepeatOk(input)
    ensures Federate(nfc, Federate(nfc, c, input).catalog, input) == Federate(nfc, c, input)
  {
    hide Federate, RepeatOk, FiledApart, Diverges;
    ApartDoesNotDiverge(nfc, c, input);
    FederateTwiceExactly(nfc, c, input);
  }

  // ---------------------------------------------------------------- why the latest evidence must be filed apart

  function Zeros(n: nat): string {
    seq(n, _ => '0')
  }

  const OFFICIAL := Evidence(Dqn, Zeros(64), Zeros(64), 0, 1, PolicyFor(Dqn))
  const COMMIT := Evidence(Tachi, Zeros(40), Zeros(64), 0, 3, PolicyFor(Tachi))

  // A catalog whose latest Tachi evidence is five dqn records.
  const MISFILED := Catalog(map[], map[IdOf(OFFICIAL) := OFFICIAL.(records := 5)], map[Tachi := IdOf(OFFICIAL)], map[])

  const BOTH := Input(Some(Snapshot(PolicyFor(Tachi), COMMIT, [])), None, Some(Snapshot(PolicyFor(Dqn), OFFICIAL, [])))

  lemma BothAreWellFormed()
    ensures RepeatOk(BOTH)
  {
  }

  lemma MisfiledDiverges(nfc: Nfc)
    ensures Diverges(nfc, MISFILED, BOTH)
  {
    PolicySource(Tachi);
    PolicySource(Dqn);
    hide PolicyFor, Zeros;
    assert SnapshotRefusal(MISFILED, BOTH.tachi.value, Tachi) == Some(SourceHealthRegression);
    assert SnapshotRefusal(MISFILED, BOTH.dqn.value, Dqn).None?;
  }

  /** Filed under a dqn id, the record count that Tachi is held to changes between the two runs. */
  lemma MisfiledLatestDiffers(nfc: Nfc)
    ensures RepeatOk(BOTH) && !FiledApart(MISFILED)
    ensures Federate(nfc, Federate(nfc, MISFILED, BOTH).catalog, BOTH) != Federate(nfc, MISFILED, BOTH)
  {
    BothAreWellFormed();
    MisfiledDiverges(nfc);
    hide RepeatOk, Diverges, Federate;
    FederateTwiceExactly(nfc, MISFILED, BOTH);
  }
}
