// `Catalog::validate` as it runs: one pass over the songs that collects every source binding, and a fold over the
// Tachi attributes of each song; proved to accept exactly the valid catalogs.
module CatalogValidation {
  import opened Common
  import opened CatalogModel

  // Every source record the song is bound to.
  function BindingsOf(links: Links): set<BindingKey> {
    set s, key | s in links.bindings && key in links.bindings[s] :: BindingKey(s, key)
  }

  /** The insertions into `global_bindings`: no binding is met twice. */
  method CollectBindings(links: Links, met: set<BindingKey>) returns (novel: bool, after: set<BindingKey>)
    ensures novel ==> BindingsOf(links) !! met
    ensures !novel ==> exists b :: b in BindingsOf(links) && b in met
    ensures novel ==> after == met + BindingsOf(links)
  {
    after := met;
    var rest := BindingsOf(links);
    while rest != {}
      invariant rest <= BindingsOf(links)
      invariant after == met + (BindingsOf(links) - rest)
      invariant (BindingsOf(links) - rest) !! met
      decreases |rest|
    {
      var b :| b in rest;
      if b in after {
        assert b in met;
        return false, after;
      }
      after := after + {b};
      rest := rest - {b};
    }
    novel := true;
  }

  // No two of these songs are bound to the same source record.
  predicate Apart(songs: map<SongId, Song>, ids: set<SongId>) {
    forall i, j | i in ids && j in ids && i in songs && j in songs && i != j ::
      BindingsOf(songs[i].links) !! BindingsOf(songs[j].links)
  }

  lemma ApartIsUnique(songs: map<SongId, Song>)
    ensures Apart(songs, songs.Keys) <==> UniqueBindings(songs)
  {
    forall i, s, key | i in songs
      ensures Binds(songs[i].links, s, key) <==> BindingKey(s, key) in BindingsOf(songs[i].links)
    {}
    hide BindingsOf, Binds;
    if UniqueBindings(songs) {
      forall i, j | i in songs && j in songs && i != j
        ensures BindingsOf(songs[i].links) !! BindingsOf(songs[j].links)
      {
        forall b | b in BindingsOf(songs[i].links) ensures b !in BindingsOf(songs[j].links) {
          assert Binds(songs[i].links, b.source, b.key);
        }
      }
    }
    if Apart(songs, songs.Keys) {
      forall i, j, s, key | i in songs && j in songs && Binds(songs[i].links, s, key) && Binds(songs[j].links, s, key)
        ensures i == j
      {
        assert BindingKey(s, key) in BindingsOf(songs[i].links);
        assert BindingKey(s, key) in BindingsOf(songs[j].links);
      }
    }
  }

  lemma SomeLeft(done: set<SongId>, all: set<SongId>)
    requires done <= all && done != all
    ensures all - done != {}
  {
    var x :| x in all && x !in done;
    assert x in all - done;
  }

  method BindingsAreUnique(songs: map<SongId, Song>) returns (ok: bool)
    ensures ok <==> UniqueBindings(songs)
  {
    ApartIsUnique(songs);
    hide BindingsOf, UniqueBindings;
    var met: set<BindingKey> := {};
    var done: set<SongId> := {};
    while done != songs.Keys
      invariant done <= songs.Keys
      invariant Apart(songs, done)
      invariant forall b :: b in met <==> exists id :: id in done && b in BindingsOf(songs[id].links)
      decreases songs.Keys - done
    {
      var rest := songs.Keys - done;
      SomeLeft(done, songs.Keys);
      var id :| id in rest;
      var novel, after := CollectBindings(songs[id].links, met);
      if !novel {
        ghost var b :| b in BindingsOf(songs[id].links) && b in met;
        ghost var other :| other in done && b in BindingsOf(songs[other].links);
        assert !(BindingsOf(songs[id].links) !! BindingsOf(songs[other].links)) && id != other;
        assert !Apart(songs, songs.Keys);
        return false;
      }
      met, done := after, done + {id};
    }
    ok := true;
  }

  /** `tachi_primary_from_attributes`: no value when the song lacks Tachi evidence or some attribute of it. */
  method TachiPrimary(links: Links, tachiId: string) returns (primary: Option<bool>)
    ensures primary.Some? <==>
              BindingKey(Tachi, tachiId) in links.evidence
              && forall e | e in links.evidence[BindingKey(Tachi, tachiId)] :: StatesPrimary(links, tachiId, e)
    ensures primary.Some? ==> (primary.value <==> exists e :: SaysPrimary(links, tachiId, e))
  {
    hide ParseBool;
    if BindingKey(Tachi, tachiId) !in links.evidence { return None; }
    var all := links.evidence[BindingKey(Tachi, tachiId)];
    var rest := all;
    var any := false;
    while rest != {}
      invariant rest <= all
      invariant forall e | e in all - rest :: StatesPrimary(links, tachiId, e)
      invariant any <==> exists e :: e in all - rest && SaysPrimary(links, tachiId, e)
      decreases |rest|
    {
      var e :| e in rest;
      if !StatesPrimary(links, tachiId, e) { return None; }
      var before := rest;
      rest := rest - {e};
      var says := ParseBool(links.attributes[AttributeKey(Tachi, tachiId, e)]["primary_infinitas"]).value;
      assert says <==> SaysPrimary(links, tachiId, e);
      assert all - rest == (all - before) + {e};
      any := any || says;
    }
    primary := Some(any);
    assert forall e | SaysPrimary(links, tachiId, e) :: e in all - rest;
  }

  // The evidence says whether the song is in INFINITAS.
  predicate StatesPrimary(links: Links, tachiId: string, e: EvidenceId) {
    var k := AttributeKey(Tachi, tachiId, e);
    && k in links.attributes && "primary_infinitas" in links.attributes[k]
    && ParseBool(links.attributes[k]["primary_infinitas"]).Some?
  }

  lemma ValidSongStates(id: SongId, song: Song, known: set<EvidenceId>)
    requires IdentityOk(id, song) && LinksOk(song.links, known) && RequiredOk(song.links)
    ensures BindingKey(Tachi, song.tachiId) in song.links.evidence
    ensures forall e | e in song.links.evidence[BindingKey(Tachi, song.tachiId)] ::
              StatesPrimary(song.links, song.tachiId, e)
  {
    assert song.tachiId in song.links.bindings[Tachi];
    assert ProvenanceOk(song.links, Tachi, song.tachiId, known);
    hide LinksOk, IdentityOk, ParseBool;
  }

  /** The checks of one song. */
  method SongIsValid(id: SongId, song: Song, known: set<EvidenceId>) returns (ok: bool)
    ensures ok <==> SongOk(id, song, known)
  {
    var shape := IdentityOk(id, song) && TitlesOk(song, known) && SheetOk(song.sheet, song.links, known)
                 && LinksOk(song.links, known) && RequiredOk(song.links);
    if !shape { return false; }
    ValidSongStates(id, song, known);
    hide TitlesOk, SheetOk, LinksOk, RequiredOk, IdentityOk, StatesPrimary, SaysPrimary;
    var primary := TachiPrimary(song.links, song.tachiId);
    ok := primary.Some? && song.primary == primary.value;
  }

  method SongsAreValid(songs: map<SongId, Song>, known: set<EvidenceId>) returns (ok: bool)
    ensures ok <==> forall id | id in songs :: SongOk(id, songs[id], known)
  {
    hide SongOk;
    var rest := songs.Keys;
    while rest != {}
      invariant rest <= songs.Keys
      invariant forall id | id in songs && id !in rest :: SongOk(id, songs[id], known)
      decreases |rest|
    {
      var id :| id in rest;
      var valid := SongIsValid(id, songs[id], known);
      if !valid { return false; }
      rest := rest - {id};
    }
    ok := true;
  }

  /** `validate`: true exactly for the valid catalogs. */
  method Validate(nfc: Nfc, c: Catalog) returns (ok: bool)
    ensures ok <==> Valid(nfc, c)
  {
    hide EvidencesOk, SongOk, UniqueBindings, DqnOk, ExpectedStatus, DqnSongs;
    if !EvidencesOk(c.evidence, c.latest) { return false; }
    var unique := BindingsAreUnique(c.songs);
    if !unique { return false; }
    var valid := SongsAreValid(c.songs, c.evidence.Keys);
    if !valid { return false; }
    ok := (forall name | name in c.dqn :: DqnOk(nfc, c.songs, name, c.dqn[name], c.evidence.Keys))
          && (forall id | id in c.songs :: c.songs[id].status == ExpectedStatus(c.songs[id], DqnSongs(c.dqn)));
  }
}
