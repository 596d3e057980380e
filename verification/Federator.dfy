// The federation as the publisher runs it: one catalog and one quarantine, updated in place by each source in turn.
module Federator {
  import opened Common
  import opened CatalogModel
  import opened Federation
  import opened FederationSongs
  import opened FederationValid
  import opened FederationTheorems

  /** `add_tachi_title_variants`: the variants are visited in any order. */
  method AddTachiTitles(song: Song, titles: set<TitleRecord>, ev: EvidenceId) returns (after: Song)
    ensures after == WithTachiTitles(song, titles, ev)
  {
    after := song;
    var rest := titles;
    while rest != {}
      invariant rest <= titles
      invariant after == WithTachiTitles(song, titles - rest, ev)
      decreases |rest|
    {
      var t :| t in rest;
      OneMoreTitle(song, titles - rest, t, ev);
      after := WithTitle(after, Tachi, t.value, t.kind, ev);
      rest := rest - {t};
      assert titles - rest == titles - (rest + {t}) + {t};
    }
    assert titles - rest == titles;
  }

  lemma OneMoreTitle(song: Song, done: set<TitleRecord>, t: TitleRecord, ev: EvidenceId)
    requires t !in done
    ensures WithTitle(WithTachiTitles(song, done, ev), Tachi, t.value, t.kind, ev)
            == WithTachiTitles(song, done + {t}, ev)
  {
    var before := WithTachiTitles(song, done, ev);
    var after := WithTachiTitles(song, done + {t}, ev);
    assert Titled(before, Tachi, t.value, t.kind) <==> Titled(song, Tachi, t.value, t.kind);
    assert WithTitle(before, Tachi, t.value, t.kind, ev).titles == after.titles;
  }

  /** `add_charts`. */
  method AddCharts(sheet: Sheet, charts: seq<ChartRecord>, ev: EvidenceId) returns (after: Sheet)
    ensures after == WithCharts(sheet, charts, ev)
  {
    after := sheet;
    for i := 0 to |charts|
      invariant after == WithCharts(sheet, charts[..i], ev)
    {
      assert charts[..i + 1][..i] == charts[..i];
      after := WithChart(after, charts[i], ev);
    }
    assert charts[..|charts|] == charts;
  }

  /** The binding and the matches of a Textage record, resolved to one song or refused. */
  method IdentifyTextage(nfc: Nfc, songs: map<SongId, Song>, r: TextageRecord) returns (x: Result<SongId, Reason>)
    requires UniqueBindings(songs)
    ensures x == TextageIdentity(nfc, songs, r)
  {
    var bound := BoundSongs(songs, TextageKey(r));
    var matches := TextageMatches(nfc, songs, r);
    BoundToOne(songs, TextageKey(r));
    hide BoundSongs, TextageMatches, UniqueBindings;
    if bound != {} {
      var resolved :| resolved in bound;
      assert Only(bound) == resolved;
      if matches - {resolved} != {} {
        assert exists m :: m in matches && m != resolved by {
          var m :| m in matches - {resolved};
        }
        x := Err(ExistingIdentityBridge);
      } else {
        assert forall m | m in matches :: m == resolved || m in matches - {resolved};
        x := Ok(resolved);
      }
    } else if |matches| == 1 {
      var resolved :| resolved in matches;
      Sole(matches, resolved);
      x := Ok(resolved);
    } else {
      x := Err(if matches == {} then ProvisionalWithoutTachiAnchor else AmbiguousIdentity);
    }
  }

  // Every prefix of the Textage records leaves the bindings unique.
  lemma TextageStaysUnique(nfc: Nfc, l: Ledger, s: Snapshot, i: nat)
    requires Settled(nfc, l.catalog) && TextageOk(Some(s)) && SnapshotRefusal(l.catalog, s, Textage).None?
    requires i <= |Sorted(TextageRecords(s.observations), TextageKeyOf)|
    ensures
      var records := Sorted(TextageRecords(s.observations), TextageKeyOf);
      UniqueBindings(TextageFold(nfc, l, records[..i], IdOf(s.evidence)).catalog.songs)
  {
    hide TextageFold, PolicyFor, Healthy, SongOk, DqnOk, EvidencesOk, TextageRecordOk, EvidenceOk, UniqueBindings;
    var records := Sorted(TextageRecords(s.observations), TextageKeyOf);
    SortedTextage(TextageRecords(s.observations));
    AnnouncedIsSound(nfc, l.catalog, IdOf(s.evidence));
    assert forall r | r in records[..i] :: r in records;
    TextageFoldIsSound(nfc, l, records[..i], IdOf(s.evidence), l.catalog.evidence.Keys + {IdOf(s.evidence)});
  }

  /** The loop of `refresh_infinitas_status`: every song is visited once, in any order. */
  method RefreshSongs(songs: map<SongId, Song>, listed: set<SongId>) returns (after: map<SongId, Song>)
    ensures after == map id | id in songs :: songs[id].(status := ExpectedStatus(songs[id], listed))
  {
    hide ExpectedStatus;
    after := songs;
    var rest := songs.Keys;
    while rest != {}
      invariant rest <= songs.Keys == after.Keys
      invariant forall id | id in songs && id in rest :: after[id] == songs[id]
      invariant forall id | id in songs && id !in rest ::
          after[id] == songs[id].(status := ExpectedStatus(songs[id], listed))
      decreases |rest|
    {
      var id :| id in rest;
      after := after[id := after[id].(status := ExpectedStatus(after[id], listed))];
      rest := rest - {id};
    }
  }

  class Federator {
    var catalog: Catalog
    var quarantine: seq<Entry>
    const nfc: Nfc

    constructor (c: Catalog, nfc: Nfc)
      ensures Now() == Ledger(c, []) && this.nfc == nfc
    {
      catalog, quarantine, this.nfc := c, [], nfc;
    }

    function Now(): Ledger
      reads this
    {
      Ledger(catalog, quarantine)
    }

    method Refuse(s: Snapshot, reason: Reason)
      modifies this
      ensures Now() == Refused(old(Now()), s, reason)
    {
      quarantine := quarantine + [Entry(s.policy.source, s.evidence.revision, reason)];
    }

    /** `apply_tachi_record`. */
    method TachiRecordStep(r: TachiRecord, ev: EvidenceId)
      modifies this
      ensures Now() == TachiStep(old(Now()), r, ev)
    {
      hide Titled, ChartConflict, RecordAt;
      var id := FromTachi(r.id);
      if id in catalog.songs {
        var existing := catalog.songs[id];
        if existing.artist != r.artist || existing.version != r.version {
          quarantine := quarantine + [Entry(Tachi, r.id, CriticalConflict)];
          return;
        }
        if ChartConflict(existing, r.charts) {
          quarantine := quarantine + [Entry(Tachi, r.id, ConflictingChart)];
          return;
        }
        var titled := AddTachiTitles(existing, r.titles, ev);
        var sheet := AddCharts(titled.sheet, r.charts, ev);
        var song := titled.(links := WithAttributes(titled.links, TachiKey(r), TachiAttributes(r), ev),
                            sheet := sheet,
                            primary := titled.primary || r.primary);
        catalog := WithSong(catalog, id, song);
      } else {
        catalog := WithSong(catalog, id, NewSong(r, ev));
      }
    }

    /** `apply_tachi`. */
    method TachiSource(snapshot: Option<Snapshot>)
      modifies this
      ensures Now() == ApplyTachi(old(Now()), snapshot)
    {
      hide TachiStep, PolicyFor, Healthy;
      if snapshot.None? { return; }
      var s := snapshot.value;
      var refusal := SnapshotRefusal(catalog, s, Tachi);
      if refusal.Some? {
        Refuse(s, refusal.value);
        return;
      }
      var ev := IdOf(s.evidence);
      var records := Sorted(TachiRecords(s.observations), TachiKeyOf);
      for i := 0 to |records|
        invariant Now() == TachiFold(old(Now()), records[..i], ev)
      {
        assert records[..i + 1][..i] == records[..i];
        TachiRecordStep(records[i], ev);
      }
      assert records[..|records|] == records;
      catalog := Recorded(catalog, s.evidence, Tachi);
    }

    /** One turn of the loop of `apply_textage`; no source record is bound to two songs. */
    method TextageRecordStep(r: TextageRecord, ev: EvidenceId)
      requires UniqueBindings(catalog.songs)
      modifies this
      ensures Now() == TextageStep(nfc, old(Now()), r, ev)
    {
      hide Titled, ChartConflict, TextageIdentity, TextageAttributes, UniqueBindings;
      var resolved := IdentifyTextage(nfc, catalog.songs, r);
      if resolved.Err? {
        quarantine := quarantine + [Entry(Textage, r.id, resolved.error)];
        return;
      }
      var song := catalog.songs[resolved.value];
      if ChartConflict(song, r.charts) {
        quarantine := quarantine + [Entry(Textage, r.id, ConflictingChart)];
        return;
      }
      var titled := WithTitle(song, Textage, r.title, r.kind, ev);
      var links := WithAttributes(WithBinding(titled.links, TextageKey(r)), TextageKey(r), TextageAttributes(r), ev);
      var sheet := AddCharts(titled.sheet, r.charts, ev);
      catalog := WithSong(catalog, resolved.value, titled.(links := links, sheet := sheet));
    }

    /** `apply_textage`, on a catalog that is sound so far. */
    method TextageSource(snapshot: Option<Snapshot>)
      requires Settled(nfc, catalog) && TextageOk(snapshot)
      modifies this
      ensures Now() == ApplyTextage(nfc, old(Now()), snapshot)
    {
      hide TextageStep, SnapshotRefusal, Settled, TextageOk, UniqueBindings, Sorted;
      if snapshot.None? { return; }
      var s := snapshot.value;
      var refusal := SnapshotRefusal(catalog, s, Textage);
      if refusal.Some? {
        Refuse(s, refusal.value);
        return;
      }
      var ev := IdOf(s.evidence);
      var records := Sorted(TextageRecords(s.observations), TextageKeyOf);
      ghost var start := Now();
      for i := 0 to |records|
        invariant Now() == TextageFold(nfc, start, records[..i], ev)
      {
        assert records[..i + 1][..i] == records[..i];
        TextageStaysUnique(nfc, start, s, i);
        TextageRecordStep(records[i], ev);
      }
      assert records[..|records|] == records;
      catalog := Recorded(catalog, s.evidence, Textage);
    }

    /** `apply_dqn`, with the catalog the federation started from. */
    method DqnSource(previous: Catalog, snapshot: Option<Snapshot>)
      modifies this
      ensures Now() == ApplyDqn(nfc, previous, old(Now()), snapshot)
    {
      hide PolicyFor, Healthy, NamedBy;
      if snapshot.None? { return; }
      var s := snapshot.value;
      var refusal := SnapshotRefusal(catalog, s, Dqn);
      if refusal.Some? {
        Refuse(s, refusal.value);
        return;
      }
      var ev := IdOf(s.evidence);
      var records := DqnRecords(s.observations);
      if Regressed(nfc, previous, catalog.songs, records) {
        quarantine := quarantine + DqnRegressions(records);
        return;
      }
      hide Regressed;
      var candidates := MatchDqn(records);
      ghost var before := catalog;
      BindDqn(candidates, ev);
      CandidatesBind(nfc, before.songs, before.dqn, records, ev);
      catalog := Recorded(catalog, s.evidence, Dqn);
    }

    /** The first loop of `apply_dqn`: records that name exactly one song become candidates. */
    method MatchDqn(records: seq<DqnRecord>) returns (candidates: seq<Candidate>)
      modifies this`quarantine
      ensures quarantine == old(quarantine) + DqnUnmatched(nfc, catalog.songs, records)
      ensures candidates == Candidates(nfc, catalog.songs, records)
    {
      hide NamedBy;
      candidates := [];
      for i := 0 to |records|
        invariant quarantine == old(quarantine) + DqnUnmatched(nfc, catalog.songs, records[..i])
        invariant candidates == Candidates(nfc, catalog.songs, records[..i])
      {
        assert records[..i + 1][..i] == records[..i];
        var r := records[i];
        var matches := NameMatches(nfc, catalog.songs, NameOf(nfc, r));
        if |matches| == 1 {
          var id :| id in matches;
          Sole(matches, id);
          candidates := candidates + [Candidate(NameOf(nfc, r), id, r.pack)];
        } else {
          var reason := if matches == {} then ProvisionalWithoutTachiAnchor else AmbiguousIdentity;
          quarantine := quarantine + [DqnEntry(r, reason)];
        }
      }
      assert records[..|records|] == records;
    }

    /** The second loop of `apply_dqn`. */
    method BindDqn(candidates: seq<Candidate>, ev: EvidenceId)
      modifies this`catalog
      ensures catalog == old(catalog).(dqn := Bindings(old(catalog.dqn), candidates, ev))
    {
      for i := 0 to |candidates|
        invariant catalog == old(catalog).(dqn := Bindings(old(catalog.dqn), candidates[..i], ev))
      {
        assert candidates[..i + 1][..i] == candidates[..i];
        var x := candidates[i];
        catalog := catalog.(dqn := WithPack(catalog.dqn, x.name, x.song, ev, x.pack));
      }
      assert candidates[..|candidates|] == candidates;
    }

    /** `refresh_infinitas_status`. */
    method RefreshAvailability()
      modifies this`catalog
      ensures catalog == Refreshed(old(catalog))
    {
      var songs := RefreshSongs(catalog.songs, DqnSongs(catalog.dqn));
      hide ExpectedStatus, DqnSongs;
      catalog := catalog.(songs := songs);
    }

    /** `prune_unreferenced_evidence`: the references are collected song by song, then the evidence is filtered. */
    method PruneEvidence()
      modifies this`catalog
      ensures catalog == Pruned(old(catalog))
    {
      var referenced: set<EvidenceId> := set s | s in catalog.latest :: catalog.latest[s];
      var rest := catalog.songs.Keys;
      while rest != {}
        invariant rest <= catalog.songs.Keys
        invariant catalog == old(catalog)
        invariant forall e :: e in referenced <==> MetOutside(catalog, rest, e)
        decreases |rest|
      {
        var id :| id in rest;
        MetMore(catalog, rest, id);
        hide SongReferences, MetOutside;
        referenced := referenced + SongReferences(catalog.songs[id]);
        rest := rest - {id};
      }
      var packed := set name, e | name in catalog.dqn && e in catalog.dqn[name].packs :: e;
      AllReferences(catalog, referenced, packed);
      referenced := referenced + packed;
      hide Referenced, MetOutside;
      var kept := map e | e in catalog.evidence && e in referenced :: catalog.evidence[e];
      assert forall e :: e in referenced <==> Referenced(catalog, e);
      assert kept == Pruned(catalog).evidence;
      catalog := catalog.(evidence := kept);
    }

    /** `federate`: the sources in their order, then the refresh and the pruning; a valid catalog stays valid. */
    method Run(input: Input)
      requires quarantine == [] && Valid(nfc, catalog) && InputOk(catalog, input)
      modifies this
      ensures Output(catalog, multiset(quarantine)) == Federate(nfc, old(catalog), input)
      ensures Valid(nfc, catalog)
    {
      hide ApplyTachi, ApplyTextage, ApplyDqn, Sound, EvidencesOk, TachiOk, TextageOk, DqnInputOk, Refreshed, Pruned;
      hide ExpectedStatus;
      ghost var start := Now();
      var previous := catalog;
      FederateKeepsValid(nfc, catalog, input);
      ApplyTachiIsSettled(nfc, start, input.tachi);
      TachiSource(input.tachi);
      TextageSource(input.textage);
      DqnSource(previous, input.dqn);
      assert Now() == Applied(nfc, previous, input);
      RefreshAvailability();
      PruneEvidence();
    }
  }

  lemma BoundToOne(songs: map<SongId, Song>, b: BindingKey)
    requires UniqueBindings(songs)
    ensures forall i, j | i in BoundSongs(songs, b) && j in BoundSongs(songs, b) :: i == j
  {
  }

  lemma Sole(s: set<SongId>, id: SongId)
    requires |s| == 1 && id in s
    ensures s == {id} && Only(s) == id
  {
    assert |s - {id}| == 0;
  }

  datatype Candidate = Candidate(name: TitleArtist, song: SongId, pack: Option<string>)

  ghost function Candidates(nfc: Nfc, songs: map<SongId, Song>, records: seq<DqnRecord>): seq<Candidate> {
    if records == [] then []
    else
      var r := records[|records| - 1];
      var matches := NameMatches(nfc, songs, NameOf(nfc, r));
      Candidates(nfc, songs, records[..|records| - 1])
      + if |matches| == 1 then [Candidate(NameOf(nfc, r), Only(matches), r.pack)] else []
  }

  function Bindings(dqn: map<TitleArtist, DqnBinding>, candidates: seq<Candidate>, ev: EvidenceId)
    : map<TitleArtist, DqnBinding>
  {
    if candidates == [] then dqn
    else
      var x := candidates[|candidates| - 1];
      WithPack(Bindings(dqn, candidates[..|candidates| - 1], ev), x.name, x.song, ev, x.pack)
  }

  // Matching all records first and binding the candidates afterwards is binding record by record.
  lemma {:induction false} CandidatesBind(nfc: Nfc, songs: map<SongId, Song>, dqn: map<TitleArtist, DqnBinding>,
                                          records: seq<DqnRecord>, ev: EvidenceId)
    ensures Bindings(dqn, Candidates(nfc, songs, records), ev) == DqnFold(nfc, songs, dqn, records, ev)
  {
    hide NameMatches, WithPack;
    if records != [] {
      var front := records[..|records| - 1];
      CandidatesBind(nfc, songs, dqn, front, ev);
      var all := Candidates(nfc, songs, records);
      if |NameMatches(nfc, songs, NameOf(nfc, records[|records| - 1]))| == 1 {
        assert all[..|all| - 1] == Candidates(nfc, songs, front);
      } else {
        assert all == Candidates(nfc, songs, front);
      }
    }
  }

  function SongReferences(song: Song): set<EvidenceId> {
    (set t | t in song.titles :: t.evidence)
    + (set k, a | k in song.sheet.assertions && a in song.sheet.assertions[k] :: a.evidence)
    + (set b, e | b in song.links.evidence && e in song.links.evidence[b] :: e)
  }

  // Referenced by a latest snapshot, or by a song outside `rest`.
  ghost predicate MetOutside(c: Catalog, rest: set<SongId>, e: EvidenceId) {
    || (exists s :: s in c.latest && c.latest[s] == e)
    || (exists id :: id in c.songs && id !in rest && e in SongReferences(c.songs[id]))
  }

  lemma MetMore(c: Catalog, rest: set<SongId>, id: SongId)
    requires id in rest && id in c.songs
    ensures forall e :: MetOutside(c, rest - {id}, e) <==> MetOutside(c, rest, e) || e in SongReferences(c.songs[id])
  {
    hide SongReferences;
  }

  lemma AllReferences(c: Catalog, met: set<EvidenceId>, packed: set<EvidenceId>)
    requires forall e :: e in met <==> MetOutside(c, {}, e)
    requires forall e :: e in packed <==> exists name :: name in c.dqn && e in c.dqn[name].packs
    ensures forall e :: e in met + packed <==> Referenced(c, e)
  {
    forall id, e | id in c.songs ensures e in SongReferences(c.songs[id]) <==> ReferencedBySong(c.songs[id], e) {}
    hide SongReferences, ReferencedBySong;
  }
}
