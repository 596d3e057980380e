// The frame of a federation: what a refused or admitted snapshot does beside its records, and what holds of the songs
// and the evidence at the end.
module FederationOutcome {
  import opened Common
  import opened Text
  import opened CatalogModel
  import opened Federation
  import opened FederationValid
  import opened FederationVerdicts

  // ---------------------------------------------------------------- snapshots

  // Nothing changes but one more entry, for the snapshot as a whole.
  ghost predicate SetWholeAside(before: Ledger, after: Ledger, s: Snapshot, source: SourceId) {
    && after.catalog == before.catalog
    && after.quarantine == before.quarantine
       + [Entry(s.policy.source, s.evidence.revision,
                if s.policy != PolicyFor(source) then SourcePolicyMismatch else SourceHealthRegression)]
  }

  /** A snapshot that is not admitted is set aside as a whole, for its policy or else for its health. */
  lemma RefusedIsSetAside(nfc: Nfc, previous: Catalog, l: Ledger, s: Snapshot)
    ensures !Admitted(l.catalog, s, Tachi) ==> SetWholeAside(l, ApplyTachi(l, Some(s)), s, Tachi)
    ensures !Admitted(l.catalog, s, Textage) ==> SetWholeAside(l, ApplyTextage(nfc, l, Some(s)), s, Textage)
    ensures !Admitted(l.catalog, s, Dqn) ==> SetWholeAside(l, ApplyDqn(nfc, previous, l, Some(s)), s, Dqn)
  {
    RefusedExactly(l.catalog, s, Tachi);
    RefusedExactly(l.catalog, s, Textage);
    RefusedExactly(l.catalog, s, Dqn);
    hide Admitted, SnapshotRefusal, PolicyFor, Regressed;
  }

  // The snapshot's evidence is there and is the latest of its source; everything else about evidence stays.
  predicate EvidenceRecorded(before: Catalog, after: Catalog, s: Snapshot, source: SourceId) {
    var id := EvidenceId(s.evidence.source, s.evidence.revision, s.evidence.sha);
    && id in after.evidence && after.evidence[id] == s.evidence
    && after.evidence - {id} == before.evidence - {id}
    && source in after.latest && after.latest[source] == id && after.latest - {source} == before.latest - {source}
  }

  lemma {:induction false} TachiFoldKeepsRest(l: Ledger, records: seq<TachiRecord>, ev: EvidenceId)
    ensures TachiFold(l, records, ev).catalog == l.catalog.(songs := TachiFold(l, records, ev).catalog.songs)
  {
    hide TachiRefusal, TachiSong;
    if records != [] {
      TachiFoldKeepsRest(l, records[..|records| - 1], ev);
    }
  }

  lemma {:induction false} TextageFoldKeepsRest(nfc: Nfc, l: Ledger, records: seq<TextageRecord>, ev: EvidenceId)
    ensures
      TextageFold(nfc, l, records, ev).catalog == l.catalog.(songs := TextageFold(nfc, l, records, ev).catalog.songs)
  {
    hide TextageTarget, MergedTextage;
    if records != [] {
      TextageFoldKeepsRest(nfc, l, records[..|records| - 1], ev);
    }
  }

  lemma RecordedIsLatest(c: Catalog, s: Snapshot, source: SourceId)
    ensures EvidenceRecorded(c, Recorded(c, s.evidence, source), s, source)
  {
    var id := IdOf(s.evidence);
    assert c.evidence[id := s.evidence] - {id} == c.evidence - {id};
    assert c.latest[source := id] - {source} == c.latest - {source};
  }

  /** An admitted snapshot's evidence becomes the latest of its source, unless it is a dqn snapshot that loses a name;
      of the dqn names Tachi and Textage change nothing. */
  lemma AdmittedIsLatest(nfc: Nfc, previous: Catalog, l: Ledger, s: Snapshot)
    ensures Admitted(l.catalog, s, Tachi) ==>
              && EvidenceRecorded(l.catalog, ApplyTachi(l, Some(s)).catalog, s, Tachi)
              && ApplyTachi(l, Some(s)).catalog.dqn == l.catalog.dqn
    ensures Admitted(l.catalog, s, Textage) ==>
              && EvidenceRecorded(l.catalog, ApplyTextage(nfc, l, Some(s)).catalog, s, Textage)
              && ApplyTextage(nfc, l, Some(s)).catalog.dqn == l.catalog.dqn
    ensures Admitted(l.catalog, s, Dqn) && !Loses(nfc, previous.dqn, l.catalog.songs, DqnRecords(s.observations)) ==>
              EvidenceRecorded(l.catalog, ApplyDqn(nfc, previous, l, Some(s)).catalog, s, Dqn)
  {
    RefusedExactly(l.catalog, s, Tachi);
    RefusedExactly(l.catalog, s, Textage);
    RefusedExactly(l.catalog, s, Dqn);
    RegressedIsLost(nfc, previous, l.catalog.songs, DqnRecords(s.observations));
    var tachi := Sorted(TachiRecords(s.observations), TachiKeyOf);
    var textage := Sorted(TextageRecords(s.observations), TextageKeyOf);
    TachiFoldKeepsRest(l, tachi, IdOf(s.evidence));
    TextageFoldKeepsRest(nfc, l, textage, IdOf(s.evidence));
    RecordedIsLatest(TachiFold(l, tachi, IdOf(s.evidence)).catalog, s, Tachi);
    RecordedIsLatest(TextageFold(nfc, l, textage, IdOf(s.evidence)).catalog, s, Textage);
    RecordedIsLatest(l.catalog.(dqn := DqnFold(nfc, l.catalog.songs, l.catalog.dqn, DqnRecords(s.observations),
                                               IdOf(s.evidence))), s, Dqn);
    hide Admitted, SnapshotRefusal, PolicyFor, Regressed, Loses, TachiFold, TextageFold, Sorted, DqnFold;
  }

  // ---------------------------------------------------------------- the end

  // Some dqn name stands for the song.
  ghost predicate Listed(c: Catalog, id: SongId) {
    exists name :: name in c.dqn && c.dqn[name].song == id
  }

  // The evidence is the latest of a source, or something in the catalog names it.
  ghost predicate Cited(c: Catalog, e: EvidenceId) {
    || (exists source :: source in c.latest && c.latest[source] == e)
    || (exists name :: name in c.dqn && e in c.dqn[name].packs)
    || (exists id :: id in c.songs && CitedBySong(c.songs[id], e))
  }

  ghost predicate CitedBySong(song: Song, e: EvidenceId) {
    || (exists t :: t in song.titles && t.evidence == e)
    || (exists k, a :: k in song.sheet.assertions && a in song.sheet.assertions[k] && a.evidence == e)
    || (exists b :: b in song.links.evidence && e in song.links.evidence[b])
  }

  lemma CitedIsReferenced(c: Catalog, e: EvidenceId)
    ensures Referenced(c, e) <==> Cited(c, e)
  {
    forall id | id in c.songs ensures ReferencedBySong(c.songs[id], e) <==> CitedBySong(c.songs[id], e) {}
    hide ReferencedBySong, CitedBySong;
  }

  lemma CitedAlike(c: Catalog, d: Catalog, e: EvidenceId)
    requires d.songs == c.songs && d.latest == c.latest && d.dqn == c.dqn
    ensures Cited(c, e) <==> Cited(d, e)
  {
    hide CitedBySong;
  }

  /** At the end a song is available exactly when it is primary or a dqn name stands for it, and the evidence kept is
      exactly the evidence that is cited; beside that the catalog is what the sources left. */
  lemma OutcomeHolds(nfc: Nfc, c: Catalog, input: Input)
    ensures
      var met, o := Applied(nfc, c, input), Federate(nfc, c, input);
      && o.quarantine == multiset(met.quarantine)
      && o.catalog.dqn == met.catalog.dqn && o.catalog.latest == met.catalog.latest
      && o.catalog.songs.Keys == met.catalog.songs.Keys
      && (forall id | id in o.catalog.songs ::
            var song := o.catalog.songs[id];
            && song == met.catalog.songs[id].(status := song.status)
            && song.status == if song.primary || Listed(o.catalog, song.id) then ConfirmedPresent else Unknown)
      && (forall e :: e in o.catalog.evidence <==> e in met.catalog.evidence && Cited(o.catalog, e))
      && (forall e | e in o.catalog.evidence :: o.catalog.evidence[e] == met.catalog.evidence[e])
  {
    hide Applied;
    var met, o := Applied(nfc, c, input), Federate(nfc, c, input);
    var refreshed := Refreshed(met.catalog);
    forall e ensures Referenced(refreshed, e) <==> Cited(o.catalog, e) {
      CitedIsReferenced(refreshed, e);
      CitedAlike(refreshed, o.catalog, e);
    }
    hide Referenced, Cited;
  }
}
