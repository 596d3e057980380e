// Writing a validated catalog and reading it back: the writer fails exactly on a primary key clash, and otherwise the
// reader returns the identical catalog.
module SnapshotStore {
  import opened Common
  import opened CatalogModel
  import opened SnapshotTables
  import opened SnapshotRoundTrip

  // ---------------------------------------------------------------- validated catalogs lose nothing

  // Note counts and sizes are unsigned machine integers; only the note count's width shows in the tables.
  predicate Widths(c: Catalog) {
    forall id | id in c.songs ::
      forall k | k in c.songs[id].sheet.charts :: c.songs[id].sheet.charts[k].notes <= U32_MAX
  }

  lemma KnownKeyOk(c: Catalog, e: EvidenceId)
    requires EvidencesOk(c.evidence, c.latest) && e in c.evidence
    ensures KeyOk(e)
  {
    hide PolicyFor;
    assert EvidenceOk(e, c.evidence[e]);
  }

  lemma ValidLinksConsistent(c: Catalog, links: Links)
    requires EvidencesOk(c.evidence, c.latest) && LinksOk(links, c.evidence.Keys)
    ensures NoEmptyLinks(links)
    ensures forall b | b in links.evidence :: forall e | e in links.evidence[b] :: e.source == b.source && KeyOk(e)
    ensures forall k | k in links.attributes :: k.evidence.source == k.source && KeyOk(k.evidence)
  {
    hide EvidencesOk, KeyOk, CatalogText;
    forall b | b in links.evidence
      ensures links.evidence[b] != {}
      ensures forall e | e in links.evidence[b] :: e.source == b.source && KeyOk(e)
    {
      assert Binds(links, b.source, b.key);
      assert ProvenanceOk(links, b.source, b.key, c.evidence.Keys);
      forall e | e in links.evidence[b] ensures e.source == b.source && KeyOk(e) {
        KnownKeyOk(c, e);
      }
    }
    forall k | k in links.attributes
      ensures k.evidence.source == k.source && KeyOk(k.evidence) && links.attributes[k] != map[]
    {
      assert AttributesOk(links, k);
    }
  }

  lemma ValidSheetConsistent(c: Catalog, sheet: Sheet, links: Links)
    requires EvidencesOk(c.evidence, c.latest) && SheetOk(sheet, links, c.evidence.Keys)
    ensures forall k | k in sheet.charts :: sheet.charts[k].key == k && sheet.charts[k].level <= U8_MAX
    ensures forall k | k in sheet.assertions ::
              sheet.assertions[k] != {} && forall a | a in sheet.assertions[k] :: KeyOk(a.evidence)
  {
    hide EvidencesOk, KeyOk, Bound;
    forall k | k in sheet.assertions
      ensures sheet.assertions[k] != {} && forall a | a in sheet.assertions[k] :: KeyOk(a.evidence)
    {
      assert k in sheet.charts;
      forall a | a in sheet.assertions[k] ensures KeyOk(a.evidence) {
        assert AssertionOk(a, links, c.evidence.Keys);
        KnownKeyOk(c, a.evidence);
      }
    }
  }

  lemma ValidSongConsistent(c: Catalog, id: SongId)
    requires EvidencesOk(c.evidence, c.latest) && id in c.songs && SongOk(id, c.songs[id], c.evidence.Keys) && Widths(c)
    ensures ConsistentSong(id, c.songs[id]) && NoEmptyParts(c.songs[id])
  {
    var song := c.songs[id];
    ValidLinksConsistent(c, song.links);
    ValidSheetConsistent(c, song.sheet, song.links);
    hide EvidencesOk, KeyOk, SheetOk, LinksOk, RequiredOk, PrimaryOk, Bound, CatalogText, NoEmptyLinks;
    forall t | t in song.titles ensures t.evidence.source == t.source && KeyOk(t.evidence) {
      assert TitleOk(t, song.links, c.evidence.Keys);
      KnownKeyOk(c, t.evidence);
    }
  }

  lemma ValidPacksConsistent(nfc: Nfc, c: Catalog, name: TitleArtist)
    requires EvidencesOk(c.evidence, c.latest) && name in c.dqn
    requires DqnOk(nfc, c.songs, name, c.dqn[name], c.evidence.Keys)
    ensures ConsistentPacks(c.dqn[name].packs) && NoEmptyPacks(c.dqn[name])
  {
    hide EvidencesOk, KeyOk, NamedBy;
    var packs := c.dqn[name].packs;
    forall e | e in packs ensures KeyOk(e) {
      KnownKeyOk(c, e);
    }
  }

  lemma ValidEvidenceConsistent(c: Catalog)
    requires EvidencesOk(c.evidence, c.latest)
    ensures ConsistentEvidence(c)
  {
    hide IsLowerHex;
    forall id | id in c.evidence ensures IdOf(c.evidence[id]) == id && c.evidence[id].policy.source == id.source {
      assert EvidenceOk(id, c.evidence[id]);
    }
  }

  /** Validation excludes every catalog whose rows would lose something. */
  lemma ValidIsConsistent(nfc: Nfc, c: Catalog)
    requires Valid(nfc, c) && Widths(c)
    ensures Consistent(c) && Full(c)
  {
    hide EvidencesOk, SongOk, DqnOk, UniqueBindings, ConsistentEvidence, ConsistentSong, ConsistentPacks, NoEmptyParts;
    hide NoEmptyPacks, ExpectedStatus, Widths;
    ValidEvidenceConsistent(c);
    forall id | id in c.songs ensures ConsistentSong(id, c.songs[id]) && NoEmptyParts(c.songs[id]) {
      ValidSongConsistent(c, id);
    }
    forall name | name in c.dqn ensures ConsistentPacks(c.dqn[name].packs) && NoEmptyPacks(c.dqn[name]) {
      ValidPacksConsistent(nfc, c, name);
    }
  }

  // ---------------------------------------------------------------- the writer and the reader

  datatype WriteError = Invalid | KeyClash

  ghost function Write(nfc: Nfc, c: Catalog): Result<Tables, WriteError> {
    if !Valid(nfc, c) then Err(Invalid) else if Clash(c) then Err(KeyClash) else Ok(Rows(c))
  }

  ghost function ReadSnapshot(nfc: Nfc, t: Tables): Option<Catalog> {
    match Read(t)
    case None => None
    case Some(c) => if Valid(nfc, c) then Some(c) else None
  }

  /** What is written can be read, and is the identical catalog. */
  lemma WriteThenRead(nfc: Nfc, c: Catalog)
    requires Widths(c) && Write(nfc, c).Ok?
    ensures ReadSnapshot(nfc, Write(nfc, c).value) == Some(c)
  {
    ValidIsConsistent(nfc, c);
    hide Valid, Clash, Consistent, Full, Read, Rows;
    RoundTripExactly(c);
  }

  // ---------------------------------------------------------------- the inserts of the assertion tables

  datatype Item = Item(song: SongId, key: ChartKey, assertion: Assertion)

  function ColsOfItem(x: Item): AssertionCols {
    AssertionColsOf(x.song, x.key, x.assertion)
  }

  // The tables hold the rows of these assertions and no others, each under a key of its own.
  ghost predicate Stored(rows: map<AssertionCols, bool>, products: set<ProductRow>, done: set<Item>) {
    && !Collision(done)
    && (forall r :: r in rows <==> exists x :: x in done && ColsOfItem(x) == r)
    && (forall x | x in done :: rows[ColsOfItem(x)] == x.assertion.primary)
    && (forall p :: p in products <==>
          exists x :: x in done && p.of == ColsOfItem(x) && p.version in x.assertion.versions)
  }

  // Two different assertions with the same key columns.
  ghost predicate Collision(items: set<Item>) {
    exists x, y :: x in items && y in items && x != y && ColsOfItem(x) == ColsOfItem(y)
  }

  /** The two INSERTs of one assertion: the key must be new, then come the product rows. */
  method InsertAssertion(rows: map<AssertionCols, bool>, products: set<ProductRow>, x: Item, ghost done: set<Item>)
    returns (ok: bool, rows': map<AssertionCols, bool>, products': set<ProductRow>)
    requires Stored(rows, products, done) && x !in done
    ensures ok ==> Stored(rows', products', done + {x})
    ensures !ok ==> Collision(done + {x})
  {
    rows', products' := rows, products;
    var cols := ColsOfItem(x);
    hide ColsOfItem;
    if cols in rows {
      ghost var y :| y in done && ColsOfItem(y) == cols;
      assert y in done + {x} && x in done + {x};
      return false, rows', products';
    }
    rows' := rows[cols := x.assertion.primary];
    products' := products + set v | v in x.assertion.versions :: ProductRow(cols, v);
    ok := true;
    forall r ensures r in rows' <==> exists y :: y in done + {x} && ColsOfItem(y) == r {
      if r == cols {
        assert x in done + {x};
      }
    }
    forall p
      ensures p in products' <==>
                exists y :: y in done + {x} && p.of == ColsOfItem(y) && p.version in y.assertion.versions
    {
      if p in products' && p !in products {
        assert x in done + {x};
      }
    }
  }

  /** The loop over the assertions of one chart. */
  method WriteChart(rows: map<AssertionCols, bool>, products: set<ProductRow>, id: SongId, k: ChartKey,
                    assertions: set<Assertion>, ghost done: set<Item>)
    returns (ok: bool, rows': map<AssertionCols, bool>, products': set<ProductRow>)
    requires Stored(rows, products, done) && forall x | x in done :: !(x.song == id && x.key == k)
    ensures ok ==> Stored(rows', products', done + ChartItems(id, k, assertions))
    ensures !ok ==> Collision(done + ChartItems(id, k, assertions))
  {
    hide Stored, Collision;
    rows', products', ok := rows, products, true;
    var rest := assertions;
    assert done + ChartItems(id, k, assertions - rest) == done;
    while rest != {}
      invariant rest <= assertions && ok
      invariant Stored(rows', products', done + ChartItems(id, k, assertions - rest))
      decreases |rest|
    {
      var a :| a in rest;
      ghost var before := done + ChartItems(id, k, assertions - rest);
      ok, rows', products' := InsertAssertion(rows', products', Item(id, k, a), before);
      assert before + {Item(id, k, a)} == done + ChartItems(id, k, assertions - (rest - {a}));
      if !ok {
        MoreItemsCollide(before + {Item(id, k, a)}, done + ChartItems(id, k, assertions));
        return;
      }
      rest := rest - {a};
    }
    assert assertions - rest == assertions;
  }

  function ChartItems(id: SongId, k: ChartKey, assertions: set<Assertion>): set<Item> {
    set a | a in assertions :: Item(id, k, a)
  }

  lemma MoreItemsCollide(items: set<Item>, more: set<Item>)
    requires Collision(items) && items <= more
    ensures Collision(more)
  {
  }

  function KeyItems(id: SongId, all: map<ChartKey, set<Assertion>>, keys: set<ChartKey>): set<Item> {
    set k, a | k in keys && k in all && a in all[k] :: Item(id, k, a)
  }

  /** The loop over the charts of one song. */
  method WriteSong(rows: map<AssertionCols, bool>, products: set<ProductRow>, id: SongId,
                   all: map<ChartKey, set<Assertion>>, ghost done: set<Item>)
    returns (ok: bool, rows': map<AssertionCols, bool>, products': set<ProductRow>)
    requires Stored(rows, products, done) && forall x | x in done :: x.song != id
    ensures ok ==> Stored(rows', products', done + KeyItems(id, all, all.Keys))
    ensures !ok ==> Collision(done + KeyItems(id, all, all.Keys))
  {
    hide Stored, Collision;
    rows', products', ok := rows, products, true;
    var rest := all.Keys;
    assert done + KeyItems(id, all, all.Keys - rest) == done;
    while rest != {}
      invariant rest <= all.Keys && ok
      invariant Stored(rows', products', done + KeyItems(id, all, all.Keys - rest))
      decreases |rest|
    {
      var k :| k in rest;
      ghost var before := done + KeyItems(id, all, all.Keys - rest);
      ok, rows', products' := WriteChart(rows', products', id, k, all[k], before);
      assert before + ChartItems(id, k, all[k]) == done + KeyItems(id, all, all.Keys - (rest - {k}));
      if !ok {
        MoreItemsCollide(before + ChartItems(id, k, all[k]), done + KeyItems(id, all, all.Keys));
        return;
      }
      rest := rest - {k};
    }
    assert all.Keys - rest == all.Keys;
  }

  function SongItems(c: Catalog, ids: set<SongId>): set<Item> {
    set id, k, a | id in ids && id in c.songs && k in c.songs[id].sheet.assertions
                   && a in c.songs[id].sheet.assertions[k] :: Item(id, k, a)
  }

  /** The assertion tables of the whole catalog: written exactly when no two assertions clash. */
  method WriteAssertions(c: Catalog)
    returns (ok: bool, rows: map<AssertionCols, bool>, products: set<ProductRow>)
    requires Consistent(c)
    ensures ok <==> !Clash(c)
    ensures ok ==> rows == AssertionTable(c) && products == ProductTable(c)
  {
    rows, products, ok := map[], {}, true;
    var rest := c.songs.Keys;
    assert SongItems(c, c.songs.Keys - rest) == {};
    assert Stored(rows, products, {});
    hide Stored, Collision, Consistent, Clash, AssertionTable, ProductTable;
    while rest != {}
      invariant rest <= c.songs.Keys && ok
      invariant Stored(rows, products, SongItems(c, c.songs.Keys - rest))
      decreases |rest|
    {
      var id :| id in rest;
      ghost var before := SongItems(c, c.songs.Keys - rest);
      var all := c.songs[id].sheet.assertions;
      ok, rows, products := WriteSong(rows, products, id, all, before);
      assert before + KeyItems(id, all, all.Keys) == SongItems(c, c.songs.Keys - (rest - {id}));
      if !ok {
        MoreItemsCollide(before + KeyItems(id, all, all.Keys), SongItems(c, c.songs.Keys));
        CollisionIsClash(c);
        return;
      }
      rest := rest - {id};
    }
    assert c.songs.Keys - rest == c.songs.Keys;
    StoredIsWritten(c, rows, products);
  }

  lemma CollisionIsClash(c: Catalog)
    requires Consistent(c) && Collision(SongItems(c, c.songs.Keys))
    ensures Clash(c)
  {
    hide Consistent, AssertionColsOf;
    var x, y :| x in SongItems(c, c.songs.Keys) && y in SongItems(c, c.songs.Keys) && x != y
      && ColsOfItem(x) == ColsOfItem(y);
    assert Asserts(c, x.song, x.key, x.assertion) && Asserts(c, y.song, y.key, y.assertion);
    if !Clash(c) {
      RowDetermines(c, x.song, x.key, x.assertion, y.song, y.key, y.assertion);
    }
  }

  lemma ClashIsCollision(c: Catalog)
    requires Clash(c)
    ensures Collision(SongItems(c, c.songs.Keys))
  {
    var id :| id in c.songs && exists k | k in c.songs[id].sheet.assertions ::
      exists a, b | a in c.songs[id].sheet.assertions[k] && b in c.songs[id].sheet.assertions[k] :: Clashes(a, b);
    var k :| k in c.songs[id].sheet.assertions &&
      exists a, b | a in c.songs[id].sheet.assertions[k] && b in c.songs[id].sheet.assertions[k] :: Clashes(a, b);
    var a, b :| a in c.songs[id].sheet.assertions[k] && b in c.songs[id].sheet.assertions[k] && Clashes(a, b);
    var items := SongItems(c, c.songs.Keys);
    assert Item(id, k, a) in items && Item(id, k, b) in items;
    assert ColsOfItem(Item(id, k, a)) == ColsOfItem(Item(id, k, b));
  }

  lemma StoredIsWritten(c: Catalog, rows: map<AssertionCols, bool>, products: set<ProductRow>)
    requires Consistent(c) && Stored(rows, products, SongItems(c, c.songs.Keys))
    ensures !Clash(c) && rows == AssertionTable(c) && products == ProductTable(c)
  {
    hide Consistent, Clash, AssertionTable, ProductTable, AssertionColsOf;
    if Clash(c) {
      ClashIsCollision(c);
    }
    RowsStored(c, rows, products);
    ProductsStored(c, rows, products);
  }

  lemma RowsStored(c: Catalog, rows: map<AssertionCols, bool>, products: set<ProductRow>)
    requires Consistent(c) && !Clash(c) && Stored(rows, products, SongItems(c, c.songs.Keys))
    ensures rows == AssertionTable(c)
  {
    hide Consistent, Clash, AssertionColsOf, PrimaryAt, AssertionRows, Collision;
    var items := SongItems(c, c.songs.Keys);
    forall r ensures r in rows <==> r in AssertionTable(c) {
      AssertionTableHas(c, r);
      if r in rows {
        var x :| x in items && ColsOfItem(x) == r;
        assert Asserts(c, x.song, x.key, x.assertion);
      }
      if id, k, a :| Asserts(c, id, k, a) && r == AssertionColsOf(id, k, a) {
        assert Item(id, k, a) in items && ColsOfItem(Item(id, k, a)) == r;
      }
    }
    assert rows.Keys == AssertionTable(c).Keys;
    forall r | r in rows ensures rows[r] == AssertionTable(c)[r] {
      var x :| x in items && ColsOfItem(x) == r;
      PrimaryRead(c, x.song, x.key, x.assertion);
    }
  }

  lemma ProductsStored(c: Catalog, rows: map<AssertionCols, bool>, products: set<ProductRow>)
    requires Stored(rows, products, SongItems(c, c.songs.Keys))
    ensures products == ProductTable(c)
  {
    hide AssertionColsOf;
    var items := SongItems(c, c.songs.Keys);
    forall p | p in products ensures p in ProductTable(c) {
      var x :| x in items && p.of == ColsOfItem(x) && p.version in x.assertion.versions;
      assert p == ProductRow(AssertionColsOf(x.song, x.key, x.assertion), p.version);
    }
    forall p | p in ProductTable(c) ensures p in products {
      var id, k, a, v :| id in c.songs && k in c.songs[id].sheet.assertions
        && a in c.songs[id].sheet.assertions[k] && v in a.versions && p == ProductRow(AssertionColsOf(id, k, a), v);
      assert Item(id, k, a) in items && p.of == ColsOfItem(Item(id, k, a));
    }
  }
}
