// Federating into a valid catalog gives a valid catalog, and loses nothing.
module FederationValid {
  import opened Common
  import opened CatalogModel
  import opened Federation
  import opened FederationSongs

  // ---------------------------------------------------------------- sorting keeps records distinct

  ghost predicate DistinctBy<T(!new)>(s: seq<T>, key: T -> string) {
    forall i, j | 0 <= i < j < |s| :: key(s[i]) != key(s[j])
  }

  lemma {:induction false} CountOnce<T(!new)>(s: seq<T>, key: T -> string, x: T)
    requires DistinctBy(s, key)
    ensures multiset(s)[x] <= 1
  {
    if s != [] {
      var front := s[..|s| - 1];
      assert s == front + [s[|s| - 1]];
      CountOnce(front, key, x);
      if s[|s| - 1] == x {
        forall i | 0 <= i < |front| ensures front[i] != x {
          assert key(s[i]) != key(s[|s| - 1]);
        }
      }
    }
  }

  lemma CountTwice<T>(s: seq<T>, i: nat, j: nat)
    requires i < j < |s| && s[i] == s[j]
    ensures multiset(s)[s[i]] >= 2
  {
    assert s == s[..j] + [s[j]] + s[j + 1..];
    assert s[i] in multiset(s[..j]) by { assert s[..j][i] == s[i]; }
  }

  lemma SameElementsDistinct<T(!new)>(s: seq<T>, q: seq<T>, key: T -> string)
    requires multiset(s) == multiset(q) && DistinctBy(s, key)
    ensures DistinctBy(q, key) && |q| == |s|
    ensures forall x :: x in q <==> x in s
  {
    assert forall x :: x in q <==> x in multiset(q);
    assert forall x :: x in s <==> x in multiset(s);
    assert |s| == |multiset(s)| && |q| == |multiset(q)|;
    forall i, j | 0 <= i < j < |q| ensures key(q[i]) != key(q[j]) {
      if key(q[i]) == key(q[j]) {
        assert q[i] in s && q[j] in s;
        var a :| 0 <= a < |s| && s[a] == q[i];
        var b :| 0 <= b < |s| && s[b] == q[j];
        assert a == b;
        CountTwice(q, i, j);
        CountOnce(s, key, q[i]);
      }
    }
  }

  lemma SortedTachi(records: seq<TachiRecord>)
    requires TachiRecordsOk(records)
    ensures TachiRecordsOk(Sorted(records, TachiKeyOf))
    ensures forall r :: r in Sorted(records, TachiKeyOf) <==> r in records
  {
    SameElementsDistinct(records, Sorted(records, TachiKeyOf), TachiKeyOf);
    hide TachiRecordOk;
    forall i, j | 0 <= i < j < |Sorted(records, TachiKeyOf)|
      ensures Sorted(records, TachiKeyOf)[i].id != Sorted(records, TachiKeyOf)[j].id
    {
      assert TachiKeyOf(Sorted(records, TachiKeyOf)[i]) != TachiKeyOf(Sorted(records, TachiKeyOf)[j]);
    }
  }

  lemma SortedTextage(records: seq<TextageRecord>)
    requires TextageRecordsOk(records)
    ensures TextageRecordsOk(Sorted(records, TextageKeyOf))
    ensures multiset(Sorted(records, TextageKeyOf)) == multiset(records)
  {
    SameElementsDistinct(records, Sorted(records, TextageKeyOf), TextageKeyOf);
    hide TextageRecordOk;
    forall i, j | 0 <= i < j < |Sorted(records, TextageKeyOf)|
      ensures Sorted(records, TextageKeyOf)[i].id != Sorted(records, TextageKeyOf)[j].id
    {
      assert TextageKeyOf(Sorted(records, TextageKeyOf)[i]) != TextageKeyOf(Sorted(records, TextageKeyOf)[j]);
    }
  }

  // ---------------------------------------------------------------- one song replaced

  ghost predicate SongsGrow(before: map<SongId, Song>, after: map<SongId, Song>) {
    forall id | id in before :: id in after && Grows(before[id], after[id])
  }

  lemma SongsGrowTransitive(a: map<SongId, Song>, b: map<SongId, Song>, c: map<SongId, Song>)
    requires SongsGrow(a, b) && SongsGrow(b, c)
    ensures SongsGrow(a, c)
  {
    hide Grows;
    forall id | id in a ensures id in c && Grows(a[id], c[id]) {
      GrowsTransitive(a[id], b[id], c[id]);
    }
  }

  lemma GrowsReflexive(song: Song)
    ensures Grows(song, song)
  {
  }

  lemma StillNamed(nfc: Nfc, before: Song, after: Song, name: TitleArtist)
    requires Grows(before, after) && NamedBy(nfc, before, name)
    ensures NamedBy(nfc, after, name)
  {
  }

  // Replacing or adding one valid song keeps the catalog sound, as long as it takes no binding from another song.
  lemma WithSongIsSound(nfc: Nfc, c: Catalog, id: SongId, song: Song, known: set<EvidenceId>)
    requires Sound(nfc, c, known) && SongOk(id, song, known)
    requires id in c.songs ==> Grows(c.songs[id], song)
    requires forall j, s, key | j in c.songs && Binds(c.songs[j].links, s, key) && Binds(song.links, s, key) :: j == id
    ensures Sound(nfc, WithSong(c, id, song), known)
    ensures SongsGrow(c.songs, WithSong(c, id, song).songs)
  {
    hide SongOk, PacksOk, Binds;
    var d := WithSong(c, id, song);
    forall j | j in c.songs ensures j in d.songs && Grows(c.songs[j], d.songs[j]) {
      GrowsReflexive(c.songs[j]);
    }
    hide Grows;
    forall name | name in d.dqn ensures DqnOk(nfc, d.songs, name, d.dqn[name], known) {
      assert DqnOk(nfc, c.songs, name, c.dqn[name], known);
      StillNamed(nfc, c.songs[c.dqn[name].song], d.songs[c.dqn[name].song], name);
    }
  }

  // ---------------------------------------------------------------- Tachi

  lemma OwnTachiBinding(id: SongId, song: Song, known: set<EvidenceId>, key: string)
    requires SongOk(id, song, known)
    ensures Binds(song.links, Tachi, key) <==> key == song.tachiId
    ensures id == FromTachi(song.tachiId)
  {
  }

  lemma TachiStepIsSound(nfc: Nfc, l: Ledger, r: TachiRecord, ev: EvidenceId, known: set<EvidenceId>)
    requires Sound(nfc, l.catalog, known) && TachiRecordOk(r) && ev.source == Tachi && ev in known
    requires EvidenceDetermines(l.catalog, [r], ev)
    ensures Sound(nfc, TachiStep(l, r, ev).catalog, known)
    ensures SongsGrow(l.catalog.songs, TachiStep(l, r, ev).catalog.songs)
  {
    hide Grows, TachiRecordOk, MergedTachi, NewSong, Linked, ChartConflict, DqnOk, TachiAttributes;
    var id, songs := FromTachi(r.id), l.catalog.songs;
    assert SongsGrow(songs, songs) by {
      forall j | j in songs ensures Grows(songs[j], songs[j]) { GrowsReflexive(songs[j]); }
    }
    if TachiRefusal(songs, r).None? {
      var song := TachiSong(songs, r, ev);
      if id in songs {
        TachiMergeBinds(id, songs[id], r, ev, known);
        assert r in [r];
        MergedTachiIsOk(id, songs[id], r, ev, known);
        MergedTachiGrows(songs[id], r, ev);
      } else {
        NewSongIsOk(r, ev, known);
        NewSongBinds(nfc, l.catalog, r, ev, known);
      }
      hide SongOk, TachiSong;
      WithSongIsSound(nfc, l.catalog, id, song, known);
    }
  }

  lemma TachiMergeBinds(id: SongId, song: Song, r: TachiRecord, ev: EvidenceId, known: set<EvidenceId>)
    requires SongOk(id, song, known) && id == FromTachi(r.id)
    ensures MergedTachi(song, r, ev).links.bindings == song.links.bindings
  {
    OwnTachiBinding(id, song, known, r.id);
    hide SongOk, TachiAttributes;
    AlreadyBound(song.links, TachiKey(r));
  }

  lemma NewSongBindsItself(r: TachiRecord, ev: EvidenceId, s: SourceId, key: string)
    ensures Binds(NewSong(r, ev).links, s, key) <==> s == Tachi && key == r.id
  {
    hide TachiAttributes;
  }

  lemma NewSongBinds(nfc: Nfc, c: Catalog, r: TachiRecord, ev: EvidenceId, known: set<EvidenceId>)
    requires Sound(nfc, c, known) && FromTachi(r.id) !in c.songs
    ensures forall j, s, key | j in c.songs && Binds(c.songs[j].links, s, key) ::
              !Binds(NewSong(r, ev).links, s, key)
  {
    hide NewSong, SongOk, DqnOk, Binds, UniqueBindings;
    forall j, s, key | j in c.songs && Binds(c.songs[j].links, s, key)
      ensures !Binds(NewSong(r, ev).links, s, key)
    {
      NewSongBindsItself(r, ev, s, key);
      if s == Tachi {
        OwnTachiBinding(j, c.songs[j], known, key);
      }
    }
  }

  // A record touches only the song its id names, and nothing but songs.
  lemma {:induction false} TachiFoldFrame(l: Ledger, records: seq<TachiRecord>, ev: EvidenceId, id: SongId)
    requires forall r | r in records :: FromTachi(r.id) != id
    ensures
      var d := TachiFold(l, records, ev).catalog;
      && (id in d.songs <==> id in l.catalog.songs)
      && (id in l.catalog.songs ==> d.songs[id] == l.catalog.songs[id])
  {
    hide TachiSong, TachiRefusal;
    if records != [] {
      TachiFoldFrame(l, records[..|records| - 1], ev, id);
      assert records[|records| - 1] in records;
    }
  }

  lemma {:induction false} TachiFoldKeepsRest(l: Ledger, records: seq<TachiRecord>, ev: EvidenceId)
    ensures
      var d := TachiFold(l, records, ev).catalog;
      d.evidence == l.catalog.evidence && d.latest == l.catalog.latest && d.dqn == l.catalog.dqn
  {
    hide TachiSong, TachiRefusal;
    if records != [] {
      TachiFoldKeepsRest(l, records[..|records| - 1], ev);
    }
  }

  lemma {:induction false} TachiFoldIsSound(nfc: Nfc, l: Ledger, records: seq<TachiRecord>, ev: EvidenceId,
                                            known: set<EvidenceId>)
    requires Sound(nfc, l.catalog, known) && TachiRecordsOk(records) && ev.source == Tachi && ev in known
    requires EvidenceDetermines(l.catalog, records, ev)
    ensures Sound(nfc, TachiFold(l, records, ev).catalog, known)
  {
    hide Sound, TachiRecordOk, TachiStep, TachiAttributes;
    if records != [] {
      var n := |records| - 1;
      var before, r := records[..n], records[n];
      assert forall x | x in before :: x in records;
      TachiFoldIsSound(nfc, l, before, ev, known);
      TachiFoldFrame(l, before, ev, FromTachi(r.id));
      assert r in records;
      TachiStepIsSound(nfc, TachiFold(l, before, ev), r, ev, known);
    }
  }

  // ---------------------------------------------------------------- Textage

  lemma TextageStepIsSound(nfc: Nfc, l: Ledger, r: TextageRecord, ev: EvidenceId, known: set<EvidenceId>)
    requires Sound(nfc, l.catalog, known) && TextageRecordOk(r) && ev.source == Textage && ev in known
    ensures Sound(nfc, TextageStep(nfc, l, r, ev).catalog, known)
  {
    hide Grows, TextageRecordOk, MergedTextage, ChartConflict, DqnOk, TextageAttributes, SongOk;
    var songs := l.catalog.songs;
    var target := TextageTarget(nfc, songs, r);
    if target.Ok? {
      MergedTextageIsOk(target.value, songs[target.value], r, ev, known);
      MergedTextageGrows(songs[target.value], r, ev);
      TextageBinds(nfc, songs, r, ev);
      hide TextageTarget, UniqueBindings;
      WithSongIsSound(nfc, l.catalog, target.value, MergedTextage(songs[target.value], r, ev), known);
    }
  }

  // The song a record is merged into is the only one bound to it afterwards.
  lemma TextageBinds(nfc: Nfc, songs: map<SongId, Song>, r: TextageRecord, ev: EvidenceId)
    requires UniqueBindings(songs) && TextageTarget(nfc, songs, r).Ok?
    ensures
      var id := TextageTarget(nfc, songs, r).value;
      forall j, s, key | j in songs && Binds(songs[j].links, s, key)
                         && Binds(MergedTextage(songs[id], r, ev).links, s, key) :: j == id
  {
    hide ChartConflict, TextageMatches, TextageAttributes, WithCharts, Titled;
    var id := TextageTarget(nfc, songs, r).value;
    forall j, s, key | j in songs && Binds(songs[j].links, s, key)
                       && Binds(MergedTextage(songs[id], r, ev).links, s, key)
      ensures j == id
    {
      LinkedBindings(songs[id].links, TextageKey(r), TextageAttributes(r), ev);
      if BindingKey(s, key) == TextageKey(r) {
        assert j in BoundSongs(songs, TextageKey(r));
        assert id == Only(BoundSongs(songs, TextageKey(r)));
      }
    }
  }

  lemma {:induction false} TextageFoldIsSound(nfc: Nfc, l: Ledger, records: seq<TextageRecord>, ev: EvidenceId,
                                              known: set<EvidenceId>)
    requires Sound(nfc, l.catalog, known) && ev.source == Textage && ev in known
    requires forall r | r in records :: TextageRecordOk(r)
    ensures Sound(nfc, TextageFold(nfc, l, records, ev).catalog, known)
  {
    hide Sound, TextageRecordOk, TextageStep;
    if records != [] {
      var n := |records| - 1;
      assert forall x | x in records[..n] :: x in records;
      TextageFoldIsSound(nfc, l, records[..n], ev, known);
      TextageStepIsSound(nfc, TextageFold(nfc, l, records[..n], ev), records[n], ev, known);
    }
  }

  lemma {:induction false} TextageFoldKeepsRest(nfc: Nfc, l: Ledger, records: seq<TextageRecord>, ev: EvidenceId)
    ensures
      var d := TextageFold(nfc, l, records, ev).catalog;
      d.evidence == l.catalog.evidence && d.latest == l.catalog.latest && d.dqn == l.catalog.dqn
  {
    hide TextageTarget, MergedTextage;
    if records != [] {
      TextageFoldKeepsRest(nfc, l, records[..|records| - 1], ev);
    }
  }

  // ---------------------------------------------------------------- dqn

  predicate BindingsOk(nfc: Nfc, songs: map<SongId, Song>, dqn: map<TitleArtist, DqnBinding>, known: set<EvidenceId>) {
    forall name | name in dqn :: DqnOk(nfc, songs, name, dqn[name], known)
  }

  lemma WithPackIsOk(nfc: Nfc, songs: map<SongId, Song>, dqn: map<TitleArtist, DqnBinding>, r: DqnRecord, id: SongId,
                     ev: EvidenceId, known: set<EvidenceId>)
    requires BindingsOk(nfc, songs, dqn, known)
    requires id in songs && NamedBy(nfc, songs[id], NameOf(nfc, r))
    requires DqnRecordOk(r) && ev.source == Dqn && ev in known
    ensures BindingsOk(nfc, songs, WithPack(dqn, NameOf(nfc, r), id, ev, r.pack), known)
  {
    var at := NameOf(nfc, r);
    var after := WithPack(dqn, at, id, ev, r.pack);
    if at in dqn {
      assert DqnOk(nfc, songs, at, dqn[at], known);
      PackKeepsOk(dqn[at].packs, r, ev, known);
    } else {
      PackKeepsOk(map[], r, ev, known);
    }
    hide NamedBy, PacksOk, DqnRecordOk;
    forall name | name in after ensures DqnOk(nfc, songs, name, after[name], known) {
      assert name != at ==> DqnOk(nfc, songs, name, dqn[name], known);
    }
  }

  lemma PackKeepsOk(packs: map<EvidenceId, set<Option<string>>>, r: DqnRecord, ev: EvidenceId, known: set<EvidenceId>)
    requires packs == map[] || PacksOk(packs, known)
    requires DqnRecordOk(r) && ev.source == Dqn && ev in known
    ensures PacksOk(packs[ev := (if ev in packs then packs[ev] else {}) + {r.pack}], known)
  {
    hide CatalogText;
    assert ev in packs[ev := (if ev in packs then packs[ev] else {}) + {r.pack}];
  }

  lemma {:induction false} DqnFoldIsOk(nfc: Nfc, songs: map<SongId, Song>, dqn: map<TitleArtist, DqnBinding>,
                                       records: seq<DqnRecord>, ev: EvidenceId, known: set<EvidenceId>)
    requires BindingsOk(nfc, songs, dqn, known)
    requires forall r | r in records :: DqnRecordOk(r)
    requires ev.source == Dqn && ev in known
    ensures BindingsOk(nfc, songs, DqnFold(nfc, songs, dqn, records, ev), known)
  {
    hide BindingsOk, DqnRecordOk, NamedBy, WithPack;
    if records != [] {
      var n := |records| - 1;
      assert forall x | x in records[..n] :: x in records;
      DqnFoldIsOk(nfc, songs, dqn, records[..n], ev, known);
      var matches := NameMatches(nfc, songs, NameOf(nfc, records[n]));
      if |matches| == 1 {
        var id := Only(matches);
        assert id in matches && records[n] in records;
        WithPackIsOk(nfc, songs, DqnFold(nfc, songs, dqn, records[..n], ev), records[n], id, ev, known);
      }
    }
  }
}
