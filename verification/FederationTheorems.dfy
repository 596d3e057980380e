// What a whole federation guarantees: a valid catalog stays valid, nothing is lost, and every Textage record is
// accounted for.
module FederationTheorems {
  import opened Common
  import opened CatalogModel
  import opened Federation
  import opened FederationSongs
  import opened FederationValid

  // ---------------------------------------------------------------- evidence

  lemma OtherEvidenceIsSound(nfc: Nfc, c: Catalog, known: set<EvidenceId>, other: set<EvidenceId>)
    requires Sound(nfc, c, known)
    requires forall e, id | e in known && id in c.songs && ReferencedBySong(c.songs[id], e) :: e in other
    requires forall e, name | e in known && name in c.dqn && e in c.dqn[name].packs :: e in other
    ensures Sound(nfc, c, other)
  {
    hide SongOk, ReferencedBySong, NamedBy, CatalogText, UniqueBindings;
    forall id | id in c.songs ensures SongOk(id, c.songs[id], other) {
      CitedEvidenceSuffices(id, c.songs[id], known, other);
    }
    forall name | name in c.dqn ensures DqnOk(nfc, c.songs, name, c.dqn[name], other) {
      assert DqnOk(nfc, c.songs, name, c.dqn[name], known);
    }
  }

  // Valid but for the availability of the songs, which is refreshed at the end.
  ghost predicate Settled(nfc: Nfc, c: Catalog) {
    EvidencesOk(c.evidence, c.latest) && Sound(nfc, c, c.evidence.Keys)
  }

  lemma RecordedIsSettled(nfc: Nfc, c: Catalog, e: Evidence, source: SourceId)
    requires EvidencesOk(c.evidence, c.latest) && Sound(nfc, c, c.evidence.Keys + {IdOf(e)})
    requires e.source == source && EvidenceOk(IdOf(e), e)
    ensures Settled(nfc, Recorded(c, e, source))
  {
    hide EvidenceOk, SongOk, DqnOk, UniqueBindings;
    assert Recorded(c, e, source).evidence.Keys == c.evidence.Keys + {IdOf(e)};
  }

  lemma AnnouncedIsSound(nfc: Nfc, c: Catalog, ev: EvidenceId)
    requires Sound(nfc, c, c.evidence.Keys)
    ensures Sound(nfc, c, c.evidence.Keys + {ev})
  {
    hide Sound, ReferencedBySong;
    OtherEvidenceIsSound(nfc, c, c.evidence.Keys, c.evidence.Keys + {ev});
  }

  // ---------------------------------------------------------------- one source at a time

  lemma ApplyTachiIsSettled(nfc: Nfc, l: Ledger, snapshot: Option<Snapshot>)
    requires Settled(nfc, l.catalog) && TachiOk(l.catalog, snapshot)
    ensures Settled(nfc, ApplyTachi(l, snapshot).catalog)
  {
    hide Sound, EvidencesOk, TachiRecordsOk, TachiFold, Healthy, EvidenceOk;
    if snapshot.Some? && SnapshotRefusal(l.catalog, snapshot.value, Tachi).None? {
      var e, records := snapshot.value.evidence, TachiRecords(snapshot.value.observations);
      var sorted := Sorted(records, TachiKeyOf);
      SortedTachi(records);
      AnnouncedIsSound(nfc, l.catalog, IdOf(e));
      TachiFoldIsSound(nfc, l, sorted, IdOf(e), l.catalog.evidence.Keys + {IdOf(e)});
      TachiFoldKeepsRest(l, sorted, IdOf(e));
      RecordedIsSettled(nfc, TachiFold(l, sorted, IdOf(e)).catalog, e, Tachi);
    }
  }

  lemma ApplyTextageIsSettled(nfc: Nfc, l: Ledger, snapshot: Option<Snapshot>)
    requires Settled(nfc, l.catalog) && TextageOk(snapshot)
    ensures Settled(nfc, ApplyTextage(nfc, l, snapshot).catalog)
  {
    hide Sound, EvidencesOk, TextageRecordOk, TextageFold, Healthy, EvidenceOk;
    if snapshot.Some? && SnapshotRefusal(l.catalog, snapshot.value, Textage).None? {
      var e, records := snapshot.value.evidence, TextageRecords(snapshot.value.observations);
      var sorted := Sorted(records, TextageKeyOf);
      SortedTextage(records);
      AnnouncedIsSound(nfc, l.catalog, IdOf(e));
      TextageFoldIsSound(nfc, l, sorted, IdOf(e), l.catalog.evidence.Keys + {IdOf(e)});
      TextageFoldKeepsRest(nfc, l, sorted, IdOf(e));
      RecordedIsSettled(nfc, TextageFold(nfc, l, sorted, IdOf(e)).catalog, e, Textage);
    }
  }

  lemma ApplyDqnIsSettled(nfc: Nfc, previous: Catalog, l: Ledger, snapshot: Option<Snapshot>)
    requires Settled(nfc, l.catalog) && DqnInputOk(snapshot)
    ensures Settled(nfc, ApplyDqn(nfc, previous, l, snapshot).catalog)
  {
    hide EvidencesOk, DqnRecordOk, DqnFold, Healthy, EvidenceOk, SongOk, UniqueBindings, Regressed, DqnUnmatched;
    hide DqnRegressions;
    if snapshot.Some? && SnapshotRefusal(l.catalog, snapshot.value, Dqn).None? {
      var e, records := snapshot.value.evidence, DqnRecords(snapshot.value.observations);
      var c := l.catalog;
      AnnouncedIsSound(nfc, c, IdOf(e));
      hide DqnOk;
      DqnFoldIsOk(nfc, c.songs, c.dqn, records, IdOf(e), c.evidence.Keys + {IdOf(e)});
      RecordedIsSettled(nfc, c.(dqn := DqnFold(nfc, c.songs, c.dqn, records, IdOf(e))), e, Dqn);
    }
  }

  // ---------------------------------------------------------------- the end of a federation

  lemma StatusIsFree(id: SongId, song: Song, status: Status, known: set<EvidenceId>)
    requires SongOk(id, song, known)
    ensures SongOk(id, song.(status := status), known)
  {
    hide TitleOk, SheetOk, LinksOk, RequiredOk, SaysPrimary;
  }

  lemma RefreshIsSettled(nfc: Nfc, c: Catalog)
    requires Settled(nfc, c)
    ensures Settled(nfc, Refreshed(c))
  {
    hide EvidencesOk, SongOk, ExpectedStatus, Binds, PacksOk;
    var d := Refreshed(c);
    forall id | id in d.songs ensures SongOk(id, d.songs[id], c.evidence.Keys) {
      StatusIsFree(id, c.songs[id], d.songs[id].status, c.evidence.Keys);
    }
    forall name | name in d.dqn ensures DqnOk(nfc, d.songs, name, d.dqn[name], c.evidence.Keys) {
      assert DqnOk(nfc, c.songs, name, c.dqn[name], c.evidence.Keys);
    }
  }

  lemma RefreshGivesAvailability(c: Catalog, id: SongId)
    requires id in c.songs
    ensures Refreshed(c).songs[id].status == ExpectedStatus(Refreshed(c).songs[id], DqnSongs(Refreshed(c).dqn))
  {
  }

  lemma PruneIsSettled(nfc: Nfc, c: Catalog)
    requires Settled(nfc, c)
    ensures Settled(nfc, Pruned(c))
  {
    hide EvidenceOk, SongOk, DqnOk, UniqueBindings, ReferencedBySong;
    var d := Pruned(c);
    forall e, id | e in c.evidence && id in c.songs && ReferencedBySong(c.songs[id], e) ensures e in d.evidence {
      assert Referenced(c, e);
    }
    forall e, name | e in c.evidence && name in c.dqn && e in c.dqn[name].packs ensures e in d.evidence {
      assert Referenced(c, e);
    }
    forall s | s in d.latest ensures d.latest[s] in d.evidence {
      assert Referenced(c, c.latest[s]);
    }
    hide Referenced;
    OtherEvidenceIsSound(nfc, c, c.evidence.Keys, d.evidence.Keys);
    assert Sound(nfc, d, d.evidence.Keys);
  }

  /** Federating well-formed input into a valid catalog gives a catalog that validation accepts. */
  lemma FederateKeepsValid(nfc: Nfc, c: Catalog, input: Input)
    requires Valid(nfc, c) && InputOk(c, input)
    ensures Valid(nfc, Federate(nfc, c, input).catalog)
  {
    hide Sound, EvidencesOk, ApplyTachi, ApplyTextage, ApplyDqn, TachiOk, TextageOk, DqnInputOk, Refreshed;
    hide ExpectedStatus, Referenced;
    ApplyTachiIsSettled(nfc, Ledger(c, []), input.tachi);
    ApplyTextageIsSettled(nfc, ApplyTachi(Ledger(c, []), input.tachi), input.textage);
    ApplyDqnIsSettled(nfc, c, ApplyTextage(nfc, ApplyTachi(Ledger(c, []), input.tachi), input.textage), input.dqn);
    var l := Applied(nfc, c, input);
    RefreshIsSettled(nfc, l.catalog);
    PruneIsSettled(nfc, Refreshed(l.catalog));
    forall id | id in Refreshed(l.catalog).songs
      ensures Refreshed(l.catalog).songs[id].status
              == ExpectedStatus(Refreshed(l.catalog).songs[id], DqnSongs(Refreshed(l.catalog).dqn))
    {
      RefreshedSongs(l.catalog, id);
      RefreshGivesAvailability(l.catalog, id);
    }
  }

  lemma RefreshedSongs(c: Catalog, id: SongId)
    ensures id in Refreshed(c).songs <==> id in c.songs
  {
  }

  // ---------------------------------------------------------------- nothing is lost

  lemma {:induction false} TachiFoldGrows(l: Ledger, records: seq<TachiRecord>, ev: EvidenceId)
    ensures SongsGrow(l.catalog.songs, TachiFold(l, records, ev).catalog.songs)
  {
    hide MergedTachi, NewSong, TachiRefusal, Grows;
    if records == [] {
      forall id | id in l.catalog.songs ensures Grows(l.catalog.songs[id], l.catalog.songs[id]) {
        GrowsReflexive(l.catalog.songs[id]);
      }
    } else {
      var before := TachiFold(l, records[..|records| - 1], ev);
      var r := records[|records| - 1];
      TachiFoldGrows(l, records[..|records| - 1], ev);
      forall id | id in before.catalog.songs
        ensures Grows(before.catalog.songs[id], before.catalog.songs[id])
        ensures Grows(before.catalog.songs[id], MergedTachi(before.catalog.songs[id], r, ev))
      {
        GrowsReflexive(before.catalog.songs[id]);
        MergedTachiGrows(before.catalog.songs[id], r, ev);
      }
      SongsGrowTransitive(l.catalog.songs, before.catalog.songs, TachiStep(before, r, ev).catalog.songs);
    }
  }

  lemma {:induction false} TextageFoldGrows(nfc: Nfc, l: Ledger, records: seq<TextageRecord>, ev: EvidenceId)
    ensures SongsGrow(l.catalog.songs, TextageFold(nfc, l, records, ev).catalog.songs)
  {
    hide MergedTextage, TextageTarget, Grows;
    if records == [] {
      forall id | id in l.catalog.songs ensures Grows(l.catalog.songs[id], l.catalog.songs[id]) {
        GrowsReflexive(l.catalog.songs[id]);
      }
    } else {
      var before := TextageFold(nfc, l, records[..|records| - 1], ev);
      var r := records[|records| - 1];
      TextageFoldGrows(nfc, l, records[..|records| - 1], ev);
      forall id | id in before.catalog.songs
        ensures Grows(before.catalog.songs[id], before.catalog.songs[id])
        ensures Grows(before.catalog.songs[id], MergedTextage(before.catalog.songs[id], r, ev))
      {
        GrowsReflexive(before.catalog.songs[id]);
        MergedTextageGrows(before.catalog.songs[id], r, ev);
      }
      SongsGrowTransitive(l.catalog.songs, before.catalog.songs, TextageStep(nfc, before, r, ev).catalog.songs);
    }
  }

  predicate PacksGrow(a: DqnBinding, b: DqnBinding) {
    a.song == b.song && forall e | e in a.packs :: e in b.packs && a.packs[e] <= b.packs[e]
  }

  predicate DqnGrows(a: map<TitleArtist, DqnBinding>, b: map<TitleArtist, DqnBinding>) {
    forall name | name in a :: name in b && PacksGrow(a[name], b[name])
  }

  lemma {:induction false} DqnFoldGrows(nfc: Nfc, songs: map<SongId, Song>, dqn: map<TitleArtist, DqnBinding>,
                                        records: seq<DqnRecord>, ev: EvidenceId)
    ensures DqnGrows(dqn, DqnFold(nfc, songs, dqn, records, ev))
  {
    hide NamedBy;
    if records != [] {
      DqnFoldGrows(nfc, songs, dqn, records[..|records| - 1], ev);
    }
  }

  lemma GrowsWithoutStatus(a: Song, b: Song, status: Status)
    requires Grows(a, b)
    ensures Grows(a, b.(status := status))
  {
  }

  lemma SongsStay(songs: map<SongId, Song>)
    ensures SongsGrow(songs, songs)
  {
    hide Grows;
    forall id | id in songs ensures Grows(songs[id], songs[id]) {
      GrowsReflexive(songs[id]);
    }
  }

  lemma ApplyTachiGrows(l: Ledger, snapshot: Option<Snapshot>)
    ensures SongsGrow(l.catalog.songs, ApplyTachi(l, snapshot).catalog.songs)
    ensures ApplyTachi(l, snapshot).catalog.dqn == l.catalog.dqn
  {
    hide SongsGrow, TachiFold, SnapshotRefusal;
    SongsStay(l.catalog.songs);
    if snapshot.Some? {
      var records := Sorted(TachiRecords(snapshot.value.observations), TachiKeyOf);
      TachiFoldGrows(l, records, IdOf(snapshot.value.evidence));
      TachiFoldKeepsRest(l, records, IdOf(snapshot.value.evidence));
    }
  }

  lemma ApplyTextageGrows(nfc: Nfc, l: Ledger, snapshot: Option<Snapshot>)
    ensures SongsGrow(l.catalog.songs, ApplyTextage(nfc, l, snapshot).catalog.songs)
    ensures ApplyTextage(nfc, l, snapshot).catalog.dqn == l.catalog.dqn
  {
    hide SongsGrow, TextageFold, SnapshotRefusal;
    SongsStay(l.catalog.songs);
    if snapshot.Some? {
      var records := Sorted(TextageRecords(snapshot.value.observations), TextageKeyOf);
      TextageFoldGrows(nfc, l, records, IdOf(snapshot.value.evidence));
      TextageFoldKeepsRest(nfc, l, records, IdOf(snapshot.value.evidence));
    }
  }

  lemma ApplyDqnGrows(nfc: Nfc, previous: Catalog, l: Ledger, snapshot: Option<Snapshot>)
    ensures ApplyDqn(nfc, previous, l, snapshot).catalog.songs == l.catalog.songs
    ensures DqnGrows(l.catalog.dqn, ApplyDqn(nfc, previous, l, snapshot).catalog.dqn)
  {
    hide DqnFold, SnapshotRefusal, Regressed, DqnUnmatched, DqnRegressions;
    if snapshot.Some? {
      var s := snapshot.value;
      DqnFoldGrows(nfc, l.catalog.songs, l.catalog.dqn, DqnRecords(s.observations), IdOf(s.evidence));
    }
  }

  lemma RefreshGrows(a: map<SongId, Song>, c: Catalog)
    requires SongsGrow(a, c.songs)
    ensures SongsGrow(a, Refreshed(c).songs)
  {
    hide Grows, ExpectedStatus;
    forall id | id in a ensures Grows(a[id], Refreshed(c).songs[id]) {
      GrowsWithoutStatus(a[id], c.songs[id], Refreshed(c).songs[id].status);
    }
  }

  /** For every catalog and input, no song, title, chart, assertion or binding of the catalog is lost or changed. */
  lemma FederateLosesNothing(nfc: Nfc, c: Catalog, input: Input)
    ensures SongsGrow(c.songs, Federate(nfc, c, input).catalog.songs)
    ensures DqnGrows(c.dqn, Federate(nfc, c, input).catalog.dqn)
  {
    hide SongsGrow, DqnGrows, ApplyTachi, ApplyTextage, ApplyDqn, ExpectedStatus, Referenced;
    var l1 := ApplyTachi(Ledger(c, []), input.tachi);
    var l2 := ApplyTextage(nfc, l1, input.textage);
    var l3 := Applied(nfc, c, input);
    ApplyTachiGrows(Ledger(c, []), input.tachi);
    ApplyTextageGrows(nfc, l1, input.textage);
    ApplyDqnGrows(nfc, c, l2, input.dqn);
    SongsGrowTransitive(c.songs, l1.catalog.songs, l2.catalog.songs);
    RefreshGrows(c.songs, l3.catalog);
  }

  lemma BoundOnce(songs: map<SongId, Song>, id: SongId, source: SourceId, key: string)
    requires UniqueBindings(songs) && id in songs && Binds(songs[id].links, source, key)
    ensures BoundSongs(songs, BindingKey(source, key)) == {id}
  {
    hide Binds;
  }

  /** A source record bound to a song stays bound to that song, and to no other. */
  lemma BindingsNeverMove(nfc: Nfc, c: Catalog, input: Input, id: SongId, source: SourceId, key: string)
    requires Valid(nfc, c) && InputOk(c, input)
    requires id in c.songs && Binds(c.songs[id].links, source, key)
    ensures BoundSongs(Federate(nfc, c, input).catalog.songs, BindingKey(source, key)) == {id}
  {
    hide Federate, SongOk, DqnOk, EvidencesOk, InputOk, DqnGrows, ExpectedStatus, Binds, BoundSongs, UniqueBindings;
    hide SheetGrows;
    FederateKeepsValid(nfc, c, input);
    FederateLosesNothing(nfc, c, input);
    var after := Federate(nfc, c, input).catalog.songs;
    assert Grows(c.songs[id], after[id]);
    BoundOnce(after, id, source, key);
  }
}
