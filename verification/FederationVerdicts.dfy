// What becomes of each record of a snapshot: who it is identified with, why it is set aside, and what the catalog
// holds afterwards, stated by the members of the catalog alone.
module FederationVerdicts {
  import opened Common
  import opened Text
  import opened CatalogModel
  import opened Federation
  import opened FederationValid
  import opened FederationAdditions
  import opened FederationRepeat

  // ---------------------------------------------------------------- the order of records

  predicate Ascending<T>(records: seq<T>, key: T -> string) {
    forall i, j | 0 <= i < j < |records| :: !Less(key(records[j]), key(records[i]))
  }

  lemma NotAfter(a: string, b: string, c: string)
    requires !Less(b, a) && !Less(c, b)
    ensures !Less(c, a)
  {
    if Less(c, a) {
      LessTotal(b, c);
      if Less(b, c) {
        LessTransitive(b, c, a);
      }
    }
  }

  lemma {:induction false} InsertedAscends<T>(x: T, sorted: seq<T>, key: T -> string)
    requires Ascending(sorted, key)
    ensures Ascending(Inserted(x, sorted, key), key)
    decreases |sorted|
  {
    var r := Inserted(x, sorted, key);
    hide Less;
    if sorted != [] {
      if Less(key(x), key(sorted[0])) {
        assert !Less(key(sorted[0]), key(x)) by {
          if Less(key(sorted[0]), key(x)) {
            LessTransitive(key(x), key(sorted[0]), key(x));
            LessIrreflexive(key(x));
          }
        }
        forall j | 1 <= j < |r| ensures !Less(key(r[j]), key(r[0])) {
          if j > 1 {
            NotAfter(key(x), key(sorted[0]), key(sorted[j - 1]));
          }
        }
      } else {
        var rest := Inserted(x, sorted[1..], key);
        InsertedAscends(x, sorted[1..], key);
        forall y | y in rest ensures !Less(key(y), key(sorted[0])) {
          assert y in multiset(sorted[1..]) + multiset{x};
        }
        forall j | 1 <= j < |r| ensures !Less(key(r[j]), key(r[0])) {
          assert r[j] == rest[j - 1] && rest[j - 1] in rest;
        }
      }
    }
  }

  lemma {:induction false} SortedAscends<T>(records: seq<T>, key: T -> string)
    ensures Ascending(Sorted(records, key), key)
  {
    if records != [] {
      var n := |records| - 1;
      SortedAscends(records[..n], key);
      InsertedAscends(records[n], Sorted(records[..n], key), key);
    }
  }

  // ---------------------------------------------------------------- admission

  // The snapshot has the source's policy, some records, and no fewer than the source's latest evidence had.
  ghost predicate Admitted(c: Catalog, s: Snapshot, source: SourceId) {
    && s.policy == PolicyFor(source)
    && s.evidence.records > 0
    && (forall e | source in c.latest && c.latest[source] == e && e in c.evidence ::
          c.evidence[e].records <= s.evidence.records)
  }

  lemma RefusedExactly(c: Catalog, s: Snapshot, source: SourceId)
    ensures SnapshotRefusal(c, s, source).None? <==> Admitted(c, s, source)
    ensures SnapshotRefusal(c, s, source) == Some(SourcePolicyMismatch) <==> s.policy != PolicyFor(source)
    ensures SnapshotRefusal(c, s, source) == Some(SourceHealthRegression) <==>
              s.policy == PolicyFor(source) && !Admitted(c, s, source)
  {
    PolicySource(source);
    hide PolicyFor;
  }

  // ---------------------------------------------------------------- Tachi

  // The song has a listed chart with another level or note count.
  ghost predicate Contradicts(song: Song, charts: seq<ChartRecord>) {
    exists x :: x in charts && x.chart.key in song.sheet.charts && song.sheet.charts[x.chart.key] != x.chart
  }

  // Why a Tachi record is set aside, if it is: the song it names has another artist or version, or a listed chart
  // with another level or note count.
  ghost predicate TachiVerdict(songs: map<SongId, Song>, r: TachiRecord, v: Option<Reason>) {
    var id := FromTachi(r.id);
    if id in songs && (songs[id].artist != r.artist || songs[id].version != r.version) then v == Some(CriticalConflict)
    else if id in songs && Contradicts(songs[id], r.charts) then v == Some(ConflictingChart)
    else v == None
  }

  lemma TachiIsJudged(songs: map<SongId, Song>, r: TachiRecord)
    ensures TachiVerdict(songs, r, TachiRefusal(songs, r))
  {
    var id := FromTachi(r.id);
    if id in songs {
      assert ChartConflict(songs[id], r.charts) <==> Contradicts(songs[id], r.charts);
    }
  }

  predicate Unnamed(records: seq<TachiRecord>, id: SongId) {
    forall r | r in records :: FromTachi(r.id) != id
  }

  // The songs after the records: each record not set aside is added to the song it names, or makes it; no other song
  // changes.
  ghost predicate TachiTakes(before: map<SongId, Song>, after: map<SongId, Song>, records: seq<TachiRecord>,
                             ev: EvidenceId) {
    && (forall id | Unnamed(records, id) ::
          (id in after <==> id in before) && (id in before ==> after[id] == before[id]))
    && (forall r | r in records :: TachiTakesOne(before, after, r, ev))
  }

  ghost predicate TachiTakesOne(before: map<SongId, Song>, after: map<SongId, Song>, r: TachiRecord, ev: EvidenceId) {
    var id := FromTachi(r.id);
    && id in after
    && if !TachiVerdict(before, r, None) then id in before && after[id] == before[id]
       else if id in before then TachiAdded(before[id], after[id], r, ev)
       else TachiNew(after[id], r, ev)
  }

  lemma TachiStepTakes(l: Ledger, r: TachiRecord, ev: EvidenceId)
    requires ChartRecordsOk(r.charts)
    ensures TachiTakesOne(l.catalog.songs, TachiStep(l, r, ev).catalog.songs, r, ev)
  {
    var songs, id := l.catalog.songs, FromTachi(r.id);
    TachiIsJudged(songs, r);
    hide ChartRecordOk, TachiAdded, TachiNew, MergedTachi, NewSong, ChartConflict, Contradicts;
    if TachiRefusal(songs, r).None? {
      if id in songs {
        MergedTachiAdds(songs[id], r, ev);
      } else {
        NewSongIsTheRecord(r, ev);
      }
    }
  }

  // Songs that agree on the record's song judge and take it alike.
  lemma TakesAlike(a: map<SongId, Song>, b: map<SongId, Song>, after: map<SongId, Song>, last: map<SongId, Song>,
                   r: TachiRecord, ev: EvidenceId)
    requires
      var id := FromTachi(r.id);
      && (id in a <==> id in b) && (id in a ==> a[id] == b[id])
      && (id in after <==> id in last) && (id in after ==> after[id] == last[id])
    requires TachiTakesOne(a, after, r, ev)
    ensures TachiTakesOne(b, last, r, ev)
  {
    hide TachiAdded, TachiNew, Contradicts;
  }

  lemma {:induction false} TachiFoldTakes(l: Ledger, records: seq<TachiRecord>, ev: EvidenceId, r: TachiRecord)
    requires Separate(records) && r in records
    ensures TachiTakesOne(l.catalog.songs, TachiFold(l, records, ev).catalog.songs, r, ev)
  {
    hide TachiStep, TachiTakesOne, ChartRecordsOk;
    var n := |records| - 1;
    var front, last := records[..n], records[n];
    assert forall x | x in front :: x in records && x.id != last.id;
    if r == last {
      TachiFoldFrame(l, front, ev, FromTachi(r.id));
      var met := TachiFold(l, front, ev);
      TachiStepTakes(met, r, ev);
      TakesAlike(met.catalog.songs, l.catalog.songs, TachiStep(met, r, ev).catalog.songs,
                 TachiFold(l, records, ev).catalog.songs, r, ev);
    } else {
      assert r in front;
      TachiFoldTakes(l, front, ev, r);
      TachiStepFrame(TachiFold(l, front, ev), last, ev, FromTachi(r.id));
      TakesAlike(l.catalog.songs, l.catalog.songs, TachiFold(l, front, ev).catalog.songs,
                 TachiFold(l, records, ev).catalog.songs, r, ev);
    }
  }

  // The entries of the records set aside, and no others.
  lemma {:induction false} TachiEntries(songs: map<SongId, Song>, records: seq<TachiRecord>, e: Entry)
    ensures e in TachiRefusals(songs, records) <==>
              e.source == Tachi && exists r :: r in records && r.id == e.key && TachiVerdict(songs, r, Some(e.reason))
  {
    hide TachiRefusal, TachiVerdict;
    if records != [] {
      var n := |records| - 1;
      var front, last := records[..n], records[n];
      TachiEntries(songs, front, e);
      assert forall x :: x in records <==> x in front || x == last;
      OneTachiEntry(songs, last, e);
    }
  }

  lemma OneTachiEntry(songs: map<SongId, Song>, r: TachiRecord, e: Entry)
    ensures (TachiRefusal(songs, r).Some? && e == Entry(Tachi, r.id, TachiRefusal(songs, r).value)) <==>
              e.source == Tachi && r.id == e.key && TachiVerdict(songs, r, Some(e.reason))
  {
    TachiIsJudged(songs, r);
    hide TachiRefusal, Contradicts;
  }

  lemma TachiFoldTakesAll(l: Ledger, records: seq<TachiRecord>, ev: EvidenceId)
    requires Separate(records)
    ensures TachiTakes(l.catalog.songs, TachiFold(l, records, ev).catalog.songs, records, ev)
  {
    hide TachiFold, TachiTakesOne, Separate;
    forall r | r in records
      ensures TachiTakesOne(l.catalog.songs, TachiFold(l, records, ev).catalog.songs, r, ev)
    {
      TachiFoldTakes(l, records, ev, r);
    }
    forall id | Unnamed(records, id)
      ensures
        var before, after := l.catalog.songs, TachiFold(l, records, ev).catalog.songs;
        (id in after <==> id in before) && (id in before ==> after[id] == before[id])
    {
      TachiFoldFrame(l, records, ev, id);
    }
  }

  lemma SameRecordsTake(before: map<SongId, Song>, after: map<SongId, Song>, records: seq<TachiRecord>,
                        sorted: seq<TachiRecord>, ev: EvidenceId)
    requires TachiTakes(before, after, sorted, ev) && forall r :: r in sorted <==> r in records
    ensures TachiTakes(before, after, records, ev)
  {
    hide TachiTakesOne;
    forall id ensures Unnamed(records, id) <==> Unnamed(sorted, id) {}
    hide Unnamed;
  }

  // The entries are those of the records set aside.
  ghost predicate TachiAside(songs: map<SongId, Song>, records: seq<TachiRecord>, aside: seq<Entry>) {
    forall e :: e in aside <==>
      e.source == Tachi && exists r :: r in records && r.id == e.key && TachiVerdict(songs, r, Some(e.reason))
  }

  /** An admitted Tachi snapshot: every record is judged by the song it names as the catalog had it, those set aside are
      quarantined for that reason and change nothing, each other is added to its song or makes it, and every other song
      stays. */
  lemma TachiVerdicts(l: Ledger, s: Snapshot) returns (aside: seq<Entry>)
    requires Admitted(l.catalog, s, Tachi) && TachiRecordsOk(TachiRecords(s.observations))
    ensures
      var records, after := TachiRecords(s.observations), ApplyTachi(l, Some(s));
      && TachiTakes(l.catalog.songs, after.catalog.songs, records, IdOf(s.evidence))
      && after.quarantine == l.quarantine + aside && TachiAside(l.catalog.songs, records, aside)
  {
    var records := TachiRecords(s.observations);
    var sorted, ev := Sorted(records, TachiKeyOf), IdOf(s.evidence);
    RefusedExactly(l.catalog, s, Tachi);
    SortedTachi(records);
    assert Separate(sorted);
    hide Admitted, SnapshotRefusal, TachiFold, Sorted, TachiVerdict, TachiTakes, TachiRecordsOk, TachiRefusals;
    TachiFoldRefuses(l, sorted, ev);
    TachiFoldTakesAll(l, sorted, ev);
    SameRecordsTake(l.catalog.songs, TachiFold(l, sorted, ev).catalog.songs, records, sorted, ev);
    aside := TachiRefusals(l.catalog.songs, sorted);
    RefusalsAreAside(l.catalog.songs, records, sorted);
  }

  lemma RefusalsAreAside(songs: map<SongId, Song>, records: seq<TachiRecord>, sorted: seq<TachiRecord>)
    requires forall r :: r in sorted <==> r in records
    ensures TachiAside(songs, records, TachiRefusals(songs, sorted))
  {
    hide TachiRefusals, TachiVerdict;
    forall e
      ensures e in TachiRefusals(songs, sorted) <==>
                e.source == Tachi && exists r :: r in records && r.id == e.key && TachiVerdict(songs, r, Some(e.reason))
    {
      TachiEntries(songs, sorted, e);
    }
  }

  // ---------------------------------------------------------------- Textage

  // The listed charts that the song has with the same note count.
  function AgreeingCharts(song: Song, charts: seq<ChartRecord>): set<ChartRecord> {
    set x | x in charts && x.chart.key in song.sheet.charts
            && song.sheet.charts[x.chart.key].notes == x.chart.notes
  }

  // The song has the record's artist and version and, from Tachi, its title, and agrees with two of its charts.
  ghost predicate Anchors(nfc: Nfc, song: Song, r: TextageRecord) {
    && nfc(song.artist) == nfc(r.artist) && nfc(song.version) == nfc(r.version)
    && (exists t :: t in song.titles && t.source == Tachi && t.kind != SearchTerm && nfc(t.value) == nfc(r.title))
    && 2 <= |AgreeingCharts(song, r.charts)|
  }

  predicate BoundTo(song: Song, r: TextageRecord) {
    Textage in song.links.bindings && r.id in song.links.bindings[Textage]
  }

  ghost predicate IsBound(songs: map<SongId, Song>, r: TextageRecord) {
    exists id :: id in songs && BoundTo(songs[id], r)
  }

  // The song is the only one the record can belong to: the bound one, with no other anchor, or else the only anchor.
  ghost predicate Identified(nfc: Nfc, songs: map<SongId, Song>, r: TextageRecord, id: SongId) {
    && id in songs
    && (if IsBound(songs, r) then BoundTo(songs[id], r) else Anchors(nfc, songs[id], r))
    && (forall j | j in songs && Anchors(nfc, songs[j], r) :: j == id)
  }

  ghost predicate TextageVerdict(nfc: Nfc, songs: map<SongId, Song>, r: TextageRecord, v: Result<SongId, Reason>) {
    match v
    case Ok(id) => Identified(nfc, songs, r, id) && !Contradicts(songs[id], r.charts)
    case Err(ConflictingChart) => exists id :: Identified(nfc, songs, r, id) && Contradicts(songs[id], r.charts)
    case Err(ExistingIdentityBridge) =>
      exists id, j :: id in songs && BoundTo(songs[id], r) && j in songs && Anchors(nfc, songs[j], r) && j != id
    case Err(ProvisionalWithoutTachiAnchor) =>
      !IsBound(songs, r) && forall j | j in songs :: !Anchors(nfc, songs[j], r)
    case Err(AmbiguousIdentity) =>
      && !IsBound(songs, r)
      && exists i, j :: i in songs && Anchors(nfc, songs[i], r) && j in songs && Anchors(nfc, songs[j], r) && i != j
    case Err(_) => false
  }

  lemma {:induction false} AgreeingAreCounted(song: Song, charts: seq<ChartRecord>)
    requires DistinctKeys(charts)
    ensures MatchingCharts(song, charts) == |AgreeingCharts(song, charts)|
  {
    if charts == [] {
      assert AgreeingCharts(song, charts) == {};
    } else {
      var n := |charts| - 1;
      var front, x := charts[..n], charts[n];
      AgreeingAreCounted(song, front);
      assert forall y :: y in charts <==> y in front || y == x;
      assert x !in front;
      if x.chart.key in song.sheet.charts && song.sheet.charts[x.chart.key].notes == x.chart.notes {
        assert AgreeingCharts(song, charts) == AgreeingCharts(song, front) + {x};
      } else {
        assert AgreeingCharts(song, charts) == AgreeingCharts(song, front);
      }
    }
  }

  lemma MatchIsAnchor(nfc: Nfc, song: Song, r: TextageRecord)
    requires DistinctKeys(r.charts)
    ensures TextageMatch(nfc, song, r) <==> Anchors(nfc, song, r)
  {
    AgreeingAreCounted(song, r.charts);
    hide MatchingCharts, AgreeingCharts;
  }

  lemma SoleMember(s: set<SongId>, id: SongId)
    ensures |s| == 1 && id in s ==> s == {id}
    ensures s == {id} ==> |s| == 1
  {
    if |s| == 1 && id in s {
      assert |s - {id}| == 0;
    }
  }

  // The bound songs and the matching songs are those of the verdict.
  lemma BoundAndMatching(nfc: Nfc, songs: map<SongId, Song>, r: TextageRecord)
    requires DistinctKeys(r.charts)
    ensures forall id :: id in TextageMatches(nfc, songs, r) <==> id in songs && Anchors(nfc, songs[id], r)
    ensures forall id :: id in BoundSongs(songs, TextageKey(r)) <==> id in songs && BoundTo(songs[id], r)
    ensures BoundSongs(songs, TextageKey(r)) != {} <==> IsBound(songs, r)
  {
    forall id | id in songs ensures (id in TextageMatches(nfc, songs, r) <==> Anchors(nfc, songs[id], r)) {
      MatchIsAnchor(nfc, songs[id], r);
    }
    if BoundSongs(songs, TextageKey(r)) != {} {
      assert BoundTo(songs[Only(BoundSongs(songs, TextageKey(r)))], r);
    }
  }

  lemma BoundIsJudged(nfc: Nfc, songs: map<SongId, Song>, r: TextageRecord)
    requires DistinctKeys(r.charts) && BoundSongs(songs, TextageKey(r)) != {}
    ensures
      match TextageIdentity(nfc, songs, r)
      case Ok(id) => Identified(nfc, songs, r, id)
      case Err(reason) => reason == ExistingIdentityBridge && TextageVerdict(nfc, songs, r, Err(reason))
  {
    BoundAndMatching(nfc, songs, r);
    hide Anchors, TextageMatches, BoundSongs, BoundTo, Contradicts, DistinctKeys, IsBound;
  }

  lemma UnboundIsJudged(nfc: Nfc, songs: map<SongId, Song>, r: TextageRecord)
    requires DistinctKeys(r.charts) && BoundSongs(songs, TextageKey(r)) == {}
    ensures
      match TextageIdentity(nfc, songs, r)
      case Ok(id) => Identified(nfc, songs, r, id)
      case Err(reason) => reason != ConflictingChart && TextageVerdict(nfc, songs, r, Err(reason))
  {
    var matches := TextageMatches(nfc, songs, r);
    BoundAndMatching(nfc, songs, r);
    hide Anchors, TextageMatches, BoundSongs, BoundTo, Contradicts, DistinctKeys, IsBound;
    if |matches| == 1 {
      SoleMember(matches, Only(matches));
    } else if matches != {} {
      var i, j := TwoMembers(matches);
    }
  }

  lemma TwoMembers(s: set<SongId>) returns (i: SongId, j: SongId)
    requires |s| >= 2
    ensures i in s && j in s && i != j
  {
    i := Only(s);
    assert |s - {i}| == |s| - 1;
    j := Only(s - {i});
  }

  lemma IdentityIsJudged(nfc: Nfc, songs: map<SongId, Song>, r: TextageRecord)
    requires DistinctKeys(r.charts)
    ensures
      match TextageIdentity(nfc, songs, r)
      case Ok(id) => Identified(nfc, songs, r, id)
      case Err(reason) => reason != ConflictingChart && TextageVerdict(nfc, songs, r, Err(reason))
  {
    hide TextageIdentity, Identified, TextageVerdict, DistinctKeys, BoundSongs;
    if BoundSongs(songs, TextageKey(r)) != {} {
      BoundIsJudged(nfc, songs, r);
    } else {
      UnboundIsJudged(nfc, songs, r);
    }
  }

  /** A record's identity is decided as the verdict says, whatever the catalog. */
  lemma TextageIsJudged(nfc: Nfc, songs: map<SongId, Song>, r: TextageRecord)
    requires DistinctKeys(r.charts)
    ensures TextageVerdict(nfc, songs, r, TextageTarget(nfc, songs, r))
  {
    IdentityIsJudged(nfc, songs, r);
    hide TextageIdentity, Identified, IsBound, Anchors, BoundTo;
    match TextageIdentity(nfc, songs, r)
    case Ok(id) => ConflictContradicts(songs[id], r.charts);
    case Err(_) =>
  }

  lemma ConflictContradicts(song: Song, charts: seq<ChartRecord>)
    ensures ChartConflict(song, charts) <==> Contradicts(song, charts)
  {
  }

  /** Where a record is bound to one song at most, the verdict is the only one. */
  lemma OneTextageVerdict(nfc: Nfc, songs: map<SongId, Song>, r: TextageRecord, v: Result<SongId, Reason>,
                          w: Result<SongId, Reason>)
    requires forall i, j | i in songs && j in songs && BoundTo(songs[i], r) && BoundTo(songs[j], r) :: i == j
    requires TextageVerdict(nfc, songs, r, v) && TextageVerdict(nfc, songs, r, w)
    ensures v == w
  {
    hide Anchors, BoundTo, Contradicts;
  }

  // What the verdict makes of the songs: the record is added to the song it is identified with, or nothing happens.
  ghost predicate TextageTakes(before: map<SongId, Song>, after: map<SongId, Song>, r: TextageRecord,
                               v: Result<SongId, Reason>, ev: EvidenceId) {
    match v
    case Ok(id) =>
      && after.Keys == before.Keys && id in before && TextageAdded(before[id], after[id], r, ev)
      && (forall j | j in before && j != id :: after[j] == before[j])
    case Err(_) => after == before
  }

  function AsideOf(records: seq<TextageRecord>, vs: seq<Result<SongId, Reason>>): seq<Entry>
    requires |records| == |vs|
  {
    if records == [] then []
    else
      var n := |records| - 1;
      AsideOf(records[..n], vs[..n]) + AsideOne(records[n], vs[n])
  }

  function AsideOne(r: TextageRecord, v: Result<SongId, Reason>): seq<Entry> {
    match v
    case Err(reason) => [Entry(Textage, r.id, reason)]
    case Ok(_) => []
  }

  lemma OneMoreAside(front: seq<TextageRecord>, vs: seq<Result<SongId, Reason>>, r: TextageRecord,
                     v: Result<SongId, Reason>)
    requires |front| == |vs|
    ensures AsideOf(front + [r], vs + [v]) == AsideOf(front, vs) + AsideOne(r, v)
  {
    hide AsideOne;
    assert (front + [r])[..|front|] == front && (vs + [v])[..|vs|] == vs;
  }

  // A record after the other: each is judged by the songs the ones before it have left.
  ghost predicate Judged(nfc: Nfc, records: seq<TextageRecord>, vs: seq<Result<SongId, Reason>>,
                         stages: seq<map<SongId, Song>>, ev: EvidenceId) {
    && |vs| == |records| && |stages| == |records| + 1
    && forall k | 0 <= k < |records| ::
         && TextageVerdict(nfc, stages[k], records[k], vs[k])
         && TextageTakes(stages[k], stages[k + 1], records[k], vs[k], ev)
  }

  lemma TextageStepTakes(nfc: Nfc, l: Ledger, r: TextageRecord, ev: EvidenceId)
    requires DistinctKeys(r.charts)
    ensures
      var v, after := TextageTarget(nfc, l.catalog.songs, r), TextageStep(nfc, l, r, ev);
      && TextageVerdict(nfc, l.catalog.songs, r, v) && TextageTakes(l.catalog.songs, after.catalog.songs, r, v, ev)
      && after.quarantine == l.quarantine + AsideOne(r, v)
  {
    hide TextageTarget, TextageVerdict, TextageAdded, MergedTextage, DistinctKeys;
    var songs := l.catalog.songs;
    TextageIsJudged(nfc, songs, r);
    var v := TextageTarget(nfc, songs, r);
    if v.Ok? {
      MergedTextageAdds(songs[v.value], r, ev);
      assert songs[v.value := MergedTextage(songs[v.value], r, ev)].Keys == songs.Keys;
    }
  }

  // The records of a fold with their verdicts, the songs before and after each, and the entries.
  ghost predicate FoldJudged(nfc: Nfc, l: Ledger, records: seq<TextageRecord>, ev: EvidenceId,
                             vs: seq<Result<SongId, Reason>>, stages: seq<map<SongId, Song>>) {
    && Judged(nfc, records, vs, stages, ev)
    && stages[0] == l.catalog.songs && stages[|records|] == TextageFold(nfc, l, records, ev).catalog.songs
    && TextageFold(nfc, l, records, ev).quarantine == l.quarantine + AsideOf(records, vs)
  }

  lemma FoldStep(nfc: Nfc, l: Ledger, front: seq<TextageRecord>, r: TextageRecord, ev: EvidenceId)
    ensures TextageFold(nfc, l, front + [r], ev) == TextageStep(nfc, TextageFold(nfc, l, front, ev), r, ev)
  {
    hide TextageStep;
    assert (front + [r])[..|front|] == front;
  }

  lemma FoldPush(nfc: Nfc, l: Ledger, front: seq<TextageRecord>, r: TextageRecord, ev: EvidenceId,
                 vs: seq<Result<SongId, Reason>>, stages: seq<map<SongId, Song>>)
    returns (v: Result<SongId, Reason>, after: map<SongId, Song>)
    requires FoldJudged(nfc, l, front, ev, vs, stages) && DistinctKeys(r.charts)
    ensures FoldJudged(nfc, l, front + [r], ev, vs + [v], stages + [after])
  {
    var before := TextageFold(nfc, l, front, ev);
    TextageStepTakes(nfc, before, r, ev);
    FoldStep(nfc, l, front, r, ev);
    v := TextageTarget(nfc, before.catalog.songs, r);
    after := TextageStep(nfc, before, r, ev).catalog.songs;
    assert |stages| == |front| + 1;
    hide TextageStep, TextageFold, TextageTarget, Judged, TextageVerdict, TextageTakes, DistinctKeys, AsideOf, AsideOne;
    JudgedPush(nfc, front, vs, stages, r, v, after, ev);
    OneMoreAside(front, vs, r, v);
  }

  lemma {:induction false} TextageFoldIsJudged(nfc: Nfc, l: Ledger, records: seq<TextageRecord>, ev: EvidenceId)
    returns (vs: seq<Result<SongId, Reason>>, stages: seq<map<SongId, Song>>)
    requires forall r | r in records :: DistinctKeys(r.charts)
    ensures FoldJudged(nfc, l, records, ev, vs, stages)
  {
    if records == [] {
      vs, stages := [], [l.catalog.songs];
    } else {
      var n := |records| - 1;
      var front := records[..n];
      assert records == front + [records[n]];
      assert forall r | r in front :: r in records;
      assert records[n] in records;
      hide FoldJudged, DistinctKeys;
      vs, stages := TextageFoldIsJudged(nfc, l, front, ev);
      var v, after := FoldPush(nfc, l, front, records[n], ev, vs, stages);
      vs, stages := vs + [v], stages + [after];
    }
  }

  lemma JudgedPush(nfc: Nfc, front: seq<TextageRecord>, vs: seq<Result<SongId, Reason>>,
                   stages: seq<map<SongId, Song>>, r: TextageRecord, v: Result<SongId, Reason>,
                   after: map<SongId, Song>, ev: EvidenceId)
    requires Judged(nfc, front, vs, stages, ev)
    requires TextageVerdict(nfc, stages[|front|], r, v) && TextageTakes(stages[|front|], after, r, v, ev)
    ensures Judged(nfc, front + [r], vs + [v], stages + [after], ev)
  {
    hide TextageVerdict, TextageTakes;
  }

  lemma TextageOrder(listed: seq<TextageRecord>)
    requires TextageRecordsOk(Sorted(listed, TextageKeyOf))
    ensures
      var records := Sorted(listed, TextageKeyOf);
      forall i, j | 0 <= i < j < |records| :: Less(records[i].id, records[j].id)
  {
    var records := Sorted(listed, TextageKeyOf);
    SortedAscends(listed, TextageKeyOf);
    hide TextageRecordOk, Sorted;
    forall i, j | 0 <= i < j < |records| ensures Less(records[i].id, records[j].id) {
      LessTotal(records[i].id, records[j].id);
      assert TextageKeyOf(records[i]) == records[i].id && TextageKeyOf(records[j]) == records[j].id;
    }
  }

  /** An admitted Textage snapshot: its records, in the order of their ids, are judged one after the other by the songs
      as they stand, each that is identified is added to its song, and each other is quarantined for its reason. */
  lemma TextageVerdicts(nfc: Nfc, l: Ledger, s: Snapshot)
    returns (records: seq<TextageRecord>, vs: seq<Result<SongId, Reason>>, stages: seq<map<SongId, Song>>)
    requires Admitted(l.catalog, s, Textage) && TextageRecordsOk(TextageRecords(s.observations))
    ensures multiset(records) == multiset(TextageRecords(s.observations))
    ensures forall i, j | 0 <= i < j < |records| :: Less(records[i].id, records[j].id)
    ensures Judged(nfc, records, vs, stages, IdOf(s.evidence))
    ensures stages[0] == l.catalog.songs
    ensures stages[|records|] == ApplyTextage(nfc, l, Some(s)).catalog.songs
    ensures ApplyTextage(nfc, l, Some(s)).quarantine == l.quarantine + AsideOf(records, vs)
  {
    var listed := TextageRecords(s.observations);
    records := Sorted(listed, TextageKeyOf);
    RefusedExactly(l.catalog, s, Textage);
    SortedTextage(listed);
    forall r | r in records ensures DistinctKeys(r.charts) {
      assert TextageRecordOk(r);
    }
    TextageOrder(listed);
    hide Admitted, SnapshotRefusal, Sorted, TextageFold, Judged, TextageRecordsOk, DistinctKeys, AsideOf;
    vs, stages := TextageFoldIsJudged(nfc, l, records, IdOf(s.evidence));
  }

  /** After it, a song is bound to a Textage id exactly when it was before or a record with that id was added to it. */
  lemma {:induction false} TextageBindings(nfc: Nfc, records: seq<TextageRecord>, vs: seq<Result<SongId, Reason>>,
                                           stages: seq<map<SongId, Song>>, ev: EvidenceId, n: nat, id: SongId,
                                           key: string)
    requires Judged(nfc, records, vs, stages, ev) && n <= |records| && id in stages[0]
    ensures id in stages[n]
    ensures Binds(stages[n][id].links, Textage, key) <==>
              || Binds(stages[0][id].links, Textage, key)
              || exists k :: 0 <= k < n && vs[k] == Ok(id) && records[k].id == key
  {
    hide TextageVerdict, Binds, ChartsAdded, AssertionsAdded, AttributesAdded, TitledBefore;
    if n > 0 {
      TextageBindings(nfc, records, vs, stages, ev, n - 1, id, key);
      assert TextageTakes(stages[n - 1], stages[n], records[n - 1], vs[n - 1], ev);
    }
  }

  // ---------------------------------------------------------------- dqn

  // The song has this title, not only as a search term, and artist.
  ghost predicate Named(nfc: Nfc, song: Song, r: DqnRecord) {
    && nfc(song.artist) == nfc(r.artist)
    && exists t :: t in song.titles && t.kind != SearchTerm && nfc(t.value) == nfc(r.title)
  }

  // The song is the only one so named.
  ghost predicate Sole(nfc: Nfc, songs: map<SongId, Song>, r: DqnRecord, id: SongId) {
    && id in songs && Named(nfc, songs[id], r)
    && forall j | j in songs && Named(nfc, songs[j], r) :: j == id
  }

  ghost predicate DqnVerdict(nfc: Nfc, songs: map<SongId, Song>, r: DqnRecord, v: Result<SongId, Reason>) {
    match v
    case Ok(id) => Sole(nfc, songs, r, id)
    case Err(ProvisionalWithoutTachiAnchor) => forall j | j in songs :: !Named(nfc, songs[j], r)
    case Err(AmbiguousIdentity) =>
      exists i, j :: i in songs && Named(nfc, songs[i], r) && j in songs && Named(nfc, songs[j], r) && i != j
    case Err(_) => false
  }

  lemma MatchesAreNamed(nfc: Nfc, songs: map<SongId, Song>, r: DqnRecord)
    ensures forall id :: id in NameMatches(nfc, songs, NameOf(nfc, r)) <==> id in songs && Named(nfc, songs[id], r)
  {
    forall id | id in songs ensures NamedBy(nfc, songs[id], NameOf(nfc, r)) <==> Named(nfc, songs[id], r) {}
  }

  lemma MatchesAreJudged(nfc: Nfc, songs: map<SongId, Song>, r: DqnRecord, v: Result<SongId, Reason>)
    ensures
      var matches := NameMatches(nfc, songs, NameOf(nfc, r));
      DqnVerdict(nfc, songs, r, v) <==>
        match v
        case Ok(id) => matches == {id}
        case Err(reason) =>
          |matches| != 1 && reason == if matches == {} then ProvisionalWithoutTachiAnchor else AmbiguousIdentity
  {
    var matches := NameMatches(nfc, songs, NameOf(nfc, r));
    MatchesAreNamed(nfc, songs, r);
    hide NameMatches, Named, NameOf;
    if matches != {} {
      var i :| i in matches;
      SoleMember(matches, i);
      if |matches| != 1 {
        assert matches != {i};
        var j :| j in matches && j != i;
      }
    }
    if v.Ok? {
      SoleMember(matches, v.value);
    }
  }

  function NameIn(nfc: Nfc, r: DqnRecord): TitleArtist {
    TitleArtist(nfc(r.title), nfc(r.artist))
  }

  ghost predicate InPack(dqn: map<TitleArtist, DqnBinding>, name: TitleArtist, e: EvidenceId, pack: Option<string>) {
    name in dqn && e in dqn[name].packs && pack in dqn[name].packs[e]
  }

  // A listed record with this name names one song.
  ghost predicate ListedFor(nfc: Nfc, songs: map<SongId, Song>, records: seq<DqnRecord>, name: TitleArtist,
                            id: SongId) {
    exists r :: r in records && NameIn(nfc, r) == name && Sole(nfc, songs, r, id)
  }

  ghost predicate PackListed(nfc: Nfc, songs: map<SongId, Song>, records: seq<DqnRecord>, name: TitleArtist,
                             pack: Option<string>) {
    exists r, id :: r in records && NameIn(nfc, r) == name && r.pack == pack && Sole(nfc, songs, r, id)
  }

  // The names bound are those bound before, to the same songs, and those of the records that name one song, to it.
  ghost predicate NamesTaken(nfc: Nfc, songs: map<SongId, Song>, before: map<TitleArtist, DqnBinding>,
                             after: map<TitleArtist, DqnBinding>, records: seq<DqnRecord>) {
    && (forall name | name in before :: name in after && after[name].song == before[name].song)
    && (forall name | name in after && name !in before :: ListedFor(nfc, songs, records, name, after[name].song))
    && (forall name, id | ListedFor(nfc, songs, records, name, id) :: name in after)
  }

  // The packs are those there before and, under the new evidence, those of these records.
  ghost predicate PacksTaken(nfc: Nfc, songs: map<SongId, Song>, before: map<TitleArtist, DqnBinding>,
                             after: map<TitleArtist, DqnBinding>, records: seq<DqnRecord>, ev: EvidenceId) {
    forall name, e, pack :: InPack(after, name, e, pack) <==>
      InPack(before, name, e, pack) || (e == ev && PackListed(nfc, songs, records, name, pack))
  }

  lemma SoleIsListed(nfc: Nfc, songs: map<SongId, Song>, front: seq<DqnRecord>, r: DqnRecord)
    ensures forall name, id :: ListedFor(nfc, songs, front + [r], name, id) <==>
              ListedFor(nfc, songs, front, name, id) || (name == NameIn(nfc, r) && Sole(nfc, songs, r, id))
    ensures forall name, pack :: PackListed(nfc, songs, front + [r], name, pack) <==>
              || PackListed(nfc, songs, front, name, pack)
              || (name == NameIn(nfc, r) && pack == r.pack && exists id :: Sole(nfc, songs, r, id))
  {
    hide Sole, NameIn;
    assert forall x :: x in front + [r] <==> x in front || x == r;
  }

  lemma NameStep(nfc: Nfc, songs: map<SongId, Song>, before: map<TitleArtist, DqnBinding>,
                 dqn: map<TitleArtist, DqnBinding>, front: seq<DqnRecord>, r: DqnRecord, ev: EvidenceId, id: SongId)
    requires NamesTaken(nfc, songs, before, dqn, front) && Sole(nfc, songs, r, id)
    ensures NamesTaken(nfc, songs, before, WithPack(dqn, NameIn(nfc, r), id, ev, r.pack), front + [r])
  {
    SoleIsListed(nfc, songs, front, r);
    hide Sole, NameIn, ListedFor, PackListed;
  }

  lemma PackStep(nfc: Nfc, songs: map<SongId, Song>, before: map<TitleArtist, DqnBinding>,
                 dqn: map<TitleArtist, DqnBinding>, front: seq<DqnRecord>, r: DqnRecord, ev: EvidenceId, id: SongId)
    requires PacksTaken(nfc, songs, before, dqn, front, ev) && Sole(nfc, songs, r, id)
    ensures PacksTaken(nfc, songs, before, WithPack(dqn, NameIn(nfc, r), id, ev, r.pack), front + [r], ev)
  {
    var name, after := NameIn(nfc, r), WithPack(dqn, NameIn(nfc, r), id, ev, r.pack);
    forall n, e, pack
      ensures InPack(after, n, e, pack) <==> InPack(dqn, n, e, pack) || (n == name && e == ev && pack == r.pack)
    {
    }
    SoleIsListed(nfc, songs, front, r);
    hide Sole, NameIn, ListedFor, PackListed, InPack, WithPack;
  }

  lemma RecordSkipped(nfc: Nfc, songs: map<SongId, Song>, before: map<TitleArtist, DqnBinding>,
                      dqn: map<TitleArtist, DqnBinding>, front: seq<DqnRecord>, r: DqnRecord, ev: EvidenceId)
    requires NamesTaken(nfc, songs, before, dqn, front) && PacksTaken(nfc, songs, before, dqn, front, ev)
    requires forall id :: !Sole(nfc, songs, r, id)
    ensures NamesTaken(nfc, songs, before, dqn, front + [r])
    ensures PacksTaken(nfc, songs, before, dqn, front + [r], ev)
  {
    SoleIsListed(nfc, songs, front, r);
    hide Sole, NameIn, ListedFor, PackListed, InPack;
    assert forall name, id :: ListedFor(nfc, songs, front + [r], name, id) <==> ListedFor(nfc, songs, front, name, id);
    assert forall name, pack ::
        PackListed(nfc, songs, front + [r], name, pack) <==> PackListed(nfc, songs, front, name, pack);
  }

  lemma {:induction false} DqnFoldTakes(nfc: Nfc, songs: map<SongId, Song>, dqn: map<TitleArtist, DqnBinding>,
                                        records: seq<DqnRecord>, ev: EvidenceId)
    ensures NamesTaken(nfc, songs, dqn, DqnFold(nfc, songs, dqn, records, ev), records)
    ensures PacksTaken(nfc, songs, dqn, DqnFold(nfc, songs, dqn, records, ev), records, ev)
  {
    hide NameMatches, Sole, WithPack;
    if records == [] {
      hide InPack;
    } else {
      var n := |records| - 1;
      var front, r := records[..n], records[n];
      assert records == front + [r];
      DqnFoldTakes(nfc, songs, dqn, front, ev);
      var matches := NameMatches(nfc, songs, NameOf(nfc, r));
      hide NamesTaken, PacksTaken;
      if |matches| == 1 {
        SoleMember(matches, Only(matches));
        MatchesAreJudged(nfc, songs, r, Ok(Only(matches)));
        NameStep(nfc, songs, dqn, DqnFold(nfc, songs, dqn, front, ev), front, r, ev, Only(matches));
        PackStep(nfc, songs, dqn, DqnFold(nfc, songs, dqn, front, ev), front, r, ev, Only(matches));
      } else {
        forall id ensures !Sole(nfc, songs, r, id) {
          MatchesAreJudged(nfc, songs, r, Ok(id));
          SoleMember(matches, id);
        }
        RecordSkipped(nfc, songs, dqn, DqnFold(nfc, songs, dqn, front, ev), front, r, ev);
      }
    }
  }

  // The entry of a record: its title and artist, apart by a NUL.
  function EntryOf(r: DqnRecord, reason: Reason): Entry {
    Entry(Dqn, r.title + "\0" + r.artist, reason)
  }

  ghost predicate DqnAside(nfc: Nfc, songs: map<SongId, Song>, records: seq<DqnRecord>, aside: seq<Entry>) {
    forall e :: e in aside <==>
      exists r :: r in records && e == EntryOf(r, e.reason) && DqnVerdict(nfc, songs, r, Err(e.reason))
  }

  // The entry of one record that does not name one song.
  lemma OneUnmatched(nfc: Nfc, songs: map<SongId, Song>, r: DqnRecord, e: Entry)
    ensures
      var matches := NameMatches(nfc, songs, NameOf(nfc, r));
      (|matches| != 1
       && e == DqnEntry(r, if matches == {} then ProvisionalWithoutTachiAnchor else AmbiguousIdentity))
      <==> e == EntryOf(r, e.reason) && DqnVerdict(nfc, songs, r, Err(e.reason))
  {
    MatchesAreJudged(nfc, songs, r, Err(e.reason));
    hide NameMatches, NameOf, DqnVerdict;
  }

  lemma {:induction false} UnmatchedAreAside(nfc: Nfc, songs: map<SongId, Song>, records: seq<DqnRecord>)
    ensures DqnAside(nfc, songs, records, DqnUnmatched(nfc, songs, records))
  {
    hide NameMatches, DqnVerdict, EntryOf, DqnEntry;
    if records != [] {
      var n := |records| - 1;
      var front, r := records[..n], records[n];
      UnmatchedAreAside(nfc, songs, front);
      forall e
        ensures e in DqnUnmatched(nfc, songs, records) <==>
                  || e in DqnUnmatched(nfc, songs, front)
                  || (e == EntryOf(r, e.reason) && DqnVerdict(nfc, songs, r, Err(e.reason)))
      {
        OneUnmatched(nfc, songs, r, e);
      }
      hide DqnUnmatched;
      assert records == front + [r];
      AsidePush(nfc, songs, front, DqnUnmatched(nfc, songs, front), r, DqnUnmatched(nfc, songs, records));
    }
  }

  lemma AsidePush(nfc: Nfc, songs: map<SongId, Song>, front: seq<DqnRecord>, aside: seq<Entry>, r: DqnRecord,
                  after: seq<Entry>)
    requires DqnAside(nfc, songs, front, aside)
    requires forall e :: e in after <==>
               e in aside || (e == EntryOf(r, e.reason) && DqnVerdict(nfc, songs, r, Err(e.reason)))
    ensures DqnAside(nfc, songs, front + [r], after)
  {
    hide DqnVerdict, EntryOf;
    assert forall x :: x in front + [r] <==> x in front || x == r;
  }

  // ---------------------------------------------------------------- a dqn snapshot

  ghost predicate NamedAs(nfc: Nfc, song: Song, name: TitleArtist) {
    && nfc(song.artist) == name.artist
    && exists t :: t in song.titles && t.kind != SearchTerm && nfc(t.value) == name.title
  }

  // A name bound before is not listed any more, or no longer names its song and that alone.
  ghost predicate Loses(nfc: Nfc, previous: map<TitleArtist, DqnBinding>, songs: map<SongId, Song>,
                        records: seq<DqnRecord>) {
    exists name :: name in previous
      && ((forall r | r in records :: NameIn(nfc, r) != name)
          || !(forall id :: id in songs && NamedAs(nfc, songs[id], name) <==> id == previous[name].song))
  }

  lemma RegressedIsLost(nfc: Nfc, previous: Catalog, songs: map<SongId, Song>, records: seq<DqnRecord>)
    ensures Regressed(nfc, previous, songs, records) <==> Loses(nfc, previous.dqn, songs, records)
  {
    forall name | name in previous.dqn
      ensures NameMatches(nfc, songs, name) == {previous.dqn[name].song} <==>
                forall id :: id in songs && NamedAs(nfc, songs[id], name) <==> id == previous.dqn[name].song
    {
      var matches := NameMatches(nfc, songs, name);
      forall id | id in songs ensures NamedBy(nfc, songs[id], name) <==> NamedAs(nfc, songs[id], name) {}
      hide NamedBy, NamedAs;
      assert forall id :: id in matches <==> id in songs && NamedAs(nfc, songs[id], name);
      if forall id :: id in songs && NamedAs(nfc, songs[id], name) <==> id == previous.dqn[name].song {
        assert forall id :: id in matches <==> id == previous.dqn[name].song;
      }
    }
    forall r | r in records ensures NameIn(nfc, r) == NameOf(nfc, r) {}
    hide NameMatches, NamedAs, NameOf, NameIn;
  }

  /** An admitted dqn snapshot: if it loses a name bound before, every record is quarantined for that and nothing
      changes; otherwise each record that names one song binds its name and pack to it, and each other is quarantined
      for naming none or several. */
  lemma DqnVerdicts(nfc: Nfc, previous: Catalog, l: Ledger, s: Snapshot) returns (aside: seq<Entry>)
    requires Admitted(l.catalog, s, Dqn)
    ensures
      var records, songs := DqnRecords(s.observations), l.catalog.songs;
      var after := ApplyDqn(nfc, previous, l, Some(s));
      && after.quarantine == l.quarantine + aside && after.catalog.songs == songs
      && if Loses(nfc, previous.dqn, songs, records) then
           && after.catalog == l.catalog && |aside| == |records|
           && (forall k | 0 <= k < |records| :: aside[k] == EntryOf(records[k], DqnBindingRegression))
         else
           && NamesTaken(nfc, songs, l.catalog.dqn, after.catalog.dqn, records)
           && PacksTaken(nfc, songs, l.catalog.dqn, after.catalog.dqn, records, IdOf(s.evidence))
           && DqnAside(nfc, songs, records, aside)
  {
    var records, songs := DqnRecords(s.observations), l.catalog.songs;
    RefusedExactly(l.catalog, s, Dqn);
    RegressedIsLost(nfc, previous, songs, records);
    hide Admitted, SnapshotRefusal, Regressed, Loses, NamesTaken, PacksTaken, DqnAside, DqnFold, DqnUnmatched;
    if Loses(nfc, previous.dqn, songs, records) {
      aside := DqnRegressions(records);
    } else {
      DqnFoldTakes(nfc, songs, l.catalog.dqn, records, IdOf(s.evidence));
      UnmatchedAreAside(nfc, songs, records);
      aside := DqnUnmatched(nfc, songs, records);
    }
  }
}
