// Merging one source record into one song keeps the song valid and loses nothing it held.
module FederationSongs {
  import opened Common
  import opened Text
  import opened CatalogModel
  import opened Federation

  // ---------------------------------------------------------------- texts written by the merge

  lemma {:induction false} AsciiText(s: string)
    requires forall c | c in s :: '\U{20}' <= c < '\U{7F}'
    ensures Utf8Length(s) == |s|
    ensures s != [] && |s| <= 512 ==> CatalogText(s)
  {
    if s != [] {
      var front := s[..|s| - 1];
      assert forall c | c in front :: c in s;
      AsciiText(front);
      assert s[|s| - 1] in s;
    }
  }

  lemma {:induction false} DecimalLength(n: nat, digits: nat, bound: nat)
    requires digits > 0 && n < bound
    requires bound == Power10(digits)
    ensures |Decimal(n)| <= digits
    decreases digits
  {
    if n >= 10 {
      DecimalLength(n / 10, digits - 1, bound / 10);
    }
  }

  function Power10(digits: nat): nat {
    if digits == 0 then 1 else 10 * Power10(digits - 1)
  }

  lemma TachiAttributesValid(r: TachiRecord)
    ensures TachiAttributesOk(TachiAttributes(r))
    ensures forall name | name in TachiAttributes(r) :: CatalogText(name) && CatalogText(TachiAttributes(r)[name])
  {
    var name := "primary_infinitas";
    assert forall i | 0 <= i < |name| :: '\U{20}' <= name[i] < '\U{7F}';
    AsciiText(name);
    AsciiText("true");
    AsciiText("false");
  }

  lemma U16Text(n: nat)
    requires n <= 65535
    ensures ParseU16(Decimal(n)) == Some(n) && CatalogText(Decimal(n))
  {
    ParseOfDecimal(n);
    assert Power10(5) == 100000;
    DecimalLength(n, 5, 100000);
    AsciiText(Decimal(n));
  }

  lemma TextageNamesAreText()
    ensures CatalogText("infinitas_flag") && CatalogText("bpm_min") && CatalogText("bpm_max")
    ensures CatalogText("true") && CatalogText("false")
  {
    AsciiText("infinitas_flag");
    AsciiText("bpm_min");
    AsciiText("bpm_max");
    AsciiText("true");
    AsciiText("false");
  }

  lemma TextageAttributesValid(r: TextageRecord)
    requires TextageRecordOk(r)
    ensures TextageAttributesOk(TextageAttributes(r))
    ensures forall name | name in TextageAttributes(r) :: CatalogText(name) && CatalogText(TextageAttributes(r)[name])
  {
    U16Text(r.bpmMin);
    U16Text(r.bpmMax);
    TextageNamesAreText();
    hide CatalogText, ParseU16, Decimal;
    ThreeKeys(TextageAttributes(r), "infinitas_flag", "bpm_min", "bpm_max");
  }

  lemma ThreeKeys(m: map<string, string>, a: string, b: string, c: string)
    requires m.Keys == {a, b, c} && a != b && b != c && a != c
    ensures |m| == 3
  {
    assert |{a, b, c}| == 3;
    assert |m| == |m.Keys|;
  }

  // ---------------------------------------------------------------- links

  function Linked(links: Links, b: BindingKey, attributes: map<string, string>, ev: EvidenceId): Links {
    WithAttributes(WithBinding(links, b), b, attributes, ev)
  }

  lemma AlreadyBound(links: Links, b: BindingKey)
    requires Binds(links, b.source, b.key)
    ensures WithBinding(links, b) == links
  {
    assert links.bindings[b.source] + {b.key} == links.bindings[b.source];
  }

  // What a source may record about a binding.
  predicate AttributesAllowed(source: SourceId, attributes: map<string, string>) {
    && attributes != map[]
    && (forall name | name in attributes :: CatalogText(name) && CatalogText(attributes[name]))
    && match source
       case Tachi => TachiAttributesOk(attributes)
       case Textage => TextageAttributesOk(attributes)
       case Dqn => false
  }

  lemma LinkedBindings(links: Links, b: BindingKey, attributes: map<string, string>, ev: EvidenceId)
    ensures
      var after := Linked(links, b, attributes, ev);
      && (forall s | s in after.bindings :: s in links.bindings || s == b.source)
      && (forall s, key :: Binds(after, s, key) <==> Binds(links, s, key) || BindingKey(s, key) == b)
      && (forall s :: Bound(links, s) ==> Bound(after, s))
      && Bound(after, b.source)
  {
    var after := Linked(links, b, attributes, ev);
    assert b.key in after.bindings[b.source];
  }

  lemma LinkedKeepsAttributes(links: Links, b: BindingKey, attributes: map<string, string>, ev: EvidenceId,
                              known: set<EvidenceId>)
    requires LinksOk(links, known) && AttributesAllowed(b.source, attributes) && ev.source == b.source
    ensures
      var after := Linked(links, b, attributes, ev);
      forall k | k in after.attributes :: AttributesOk(after, k)
  {
    var after := Linked(links, b, attributes, ev);
    forall k | k in after.attributes ensures AttributesOk(after, k) {
      if k in links.attributes {
        assert AttributesOk(links, k);
      }
    }
  }

  lemma LinkedKeepsProvenance(links: Links, b: BindingKey, attributes: map<string, string>, ev: EvidenceId,
                              known: set<EvidenceId>)
    requires LinksOk(links, known) && ev.source == b.source && ev in known && CatalogText(b.key)
    ensures
      var after := Linked(links, b, attributes, ev);
      && (forall s | s in after.bindings :: after.bindings[s] != {})
      && (forall s, key | s in after.bindings && key in after.bindings[s] ::
            CatalogText(key) && ProvenanceOk(after, s, key, known))
      && (forall x | x in after.evidence :: Binds(after, x.source, x.key))
  {
    var mid := WithBinding(links, b);
    var after := Linked(links, b, attributes, ev);
    forall s, key | s in after.bindings && key in after.bindings[s]
      ensures CatalogText(key) && ProvenanceOk(after, s, key, known)
    {
      if Binds(links, s, key) {
        assert ProvenanceOk(links, s, key, known);
      } else {
        assert BindingKey(s, key) == b && b !in links.evidence;
        assert !Attributed(mid, b, attributes);
        assert after.evidence[b] == {ev};
      }
    }
    forall x | x in after.evidence ensures Binds(after, x.source, x.key) {
      if x in links.evidence {
        assert Binds(links, x.source, x.key);
      }
    }
  }

  lemma LinkedKeepsRequired(links: Links, b: BindingKey, attributes: map<string, string>, ev: EvidenceId)
    requires RequiredOk(links) && AttributesAllowed(b.source, attributes)
    ensures RequiredOk(Linked(links, b, attributes, ev))
  {
    hide TachiAttributesOk, TextageAttributesOk;
  }

  lemma LinkedKeepsLinks(links: Links, b: BindingKey, attributes: map<string, string>, ev: EvidenceId,
                         known: set<EvidenceId>)
    requires LinksOk(links, known) && AttributesAllowed(b.source, attributes)
    requires ev.source == b.source && ev in known && CatalogText(b.key)
    ensures LinksOk(Linked(links, b, attributes, ev), known)
  {
    LinkedKeepsAttributes(links, b, attributes, ev, known);
    LinkedKeepsProvenance(links, b, attributes, ev, known);
    hide Linked, ProvenanceOk, AttributesOk, Binds;
  }

  // ---------------------------------------------------------------- availability

  // A Tachi record adds its own claim, and takes none back.
  lemma LinkedSays(links: Links, r: TachiRecord, ev: EvidenceId)
    requires LinksOk(links, {}) || Binds(links, Tachi, r.id)
    requires AttributeKey(Tachi, r.id, ev) in links.attributes ==>
               links.attributes[AttributeKey(Tachi, r.id, ev)] == TachiAttributes(r)
    ensures
      var after := Linked(links, TachiKey(r), TachiAttributes(r), ev);
      (exists e :: SaysPrimary(after, r.id, e)) <==> (r.primary || exists e :: SaysPrimary(links, r.id, e))
  {
    var b := TachiKey(r);
    var mid := WithBinding(links, b);
    var after := Linked(links, b, TachiAttributes(r), ev);
    if Attributed(mid, b, TachiAttributes(r)) {
      var e :| e in links.evidence[b] && AttributeKey(Tachi, r.id, e) in links.attributes
        && links.attributes[AttributeKey(Tachi, r.id, e)] == TachiAttributes(r);
      assert r.primary ==> SaysPrimary(links, r.id, e);
      forall x ensures SaysPrimary(after, r.id, x) <==> SaysPrimary(links, r.id, x) {}
    } else {
      forall x ensures SaysPrimary(after, r.id, x) <==> SaysPrimary(links, r.id, x) || (x == ev && r.primary) {}
      if exists e :: SaysPrimary(links, r.id, e) {
        var e :| SaysPrimary(links, r.id, e);
        assert SaysPrimary(after, r.id, e);
      }
      assert r.primary ==> SaysPrimary(after, r.id, ev);
    }
  }

  // A record of another source changes no claim of Tachi's.
  lemma LinkedLeavesTachi(links: Links, b: BindingKey, attributes: map<string, string>, ev: EvidenceId, id: string,
                          e: EvidenceId)
    requires b.source != Tachi
    ensures SaysPrimary(Linked(links, b, attributes, ev), id, e) <==> SaysPrimary(links, id, e)
  {
  }

  // ---------------------------------------------------------------- sheets

  lemma ChartKeepsSheet(sheet: Sheet, r: ChartRecord, ev: EvidenceId, links: Links, known: set<EvidenceId>)
    requires SheetOk(sheet, links, known) && ChartRecordOk(r) && ev in known && Bound(links, ev.source)
    ensures SheetOk(WithChart(sheet, r, ev), links, known)
  {
    var after := WithChart(sheet, r, ev);
    var k := r.chart.key;
    assert AssertionOk(AssertionOf(r, ev), links, known);
    forall x | x in after.charts
      ensures ChartOk(x, after.charts[x]) && x in after.assertions && after.assertions[x] != {}
      ensures forall a | a in after.assertions[x] :: AssertionOk(a, links, known)
    {
      if x in sheet.charts {
        assert ChartOk(x, sheet.charts[x]);
      } else {
        assert x == k && k !in sheet.assertions;
        assert AssertionOf(r, ev) in after.assertions[k];
      }
    }
  }

  lemma {:induction false} ChartsKeepSheet(sheet: Sheet, charts: seq<ChartRecord>, ev: EvidenceId, links: Links,
                                           known: set<EvidenceId>)
    requires SheetOk(sheet, links, known) && ev in known && Bound(links, ev.source)
    requires forall r | r in charts :: ChartRecordOk(r)
    ensures SheetOk(WithCharts(sheet, charts, ev), links, known)
  {
    if charts != [] {
      ChartsKeepSheet(sheet, charts[..|charts| - 1], ev, links, known);
      ChartKeepsSheet(WithCharts(sheet, charts[..|charts| - 1], ev), charts[|charts| - 1], ev, links, known);
    }
  }

  lemma MoreLinksKeepSheet(sheet: Sheet, before: Links, after: Links, known: set<EvidenceId>, more: set<EvidenceId>)
    requires SheetOk(sheet, before, known) && known <= more
    requires forall s :: Bound(before, s) ==> Bound(after, s)
    ensures SheetOk(sheet, after, more)
  {
    forall k, a | k in sheet.charts && a in sheet.assertions[k] ensures AssertionOk(a, after, more) {
      assert AssertionOk(a, before, known);
    }
  }

  // ---------------------------------------------------------------- nothing is lost

  // `after` has everything `before` has, under the same identity.
  ghost predicate Grows(before: Song, after: Song) {
    && after.id == before.id && after.tachiId == before.tachiId
    && after.artist == before.artist && after.version == before.version
    && before.titles <= after.titles
    && SheetGrows(before.sheet, after.sheet)
    && LinksGrow(before.links, after.links)
    && (before.primary ==> after.primary)
  }

  predicate SheetGrows(before: Sheet, after: Sheet) {
    && (forall k | k in before.charts :: k in after.charts && after.charts[k] == before.charts[k])
    && (forall k | k in before.assertions :: k in after.assertions && before.assertions[k] <= after.assertions[k])
  }

  ghost predicate LinksGrow(before: Links, after: Links) {
    && (forall s, key :: Binds(before, s, key) ==> Binds(after, s, key))
    && (forall b | b in before.evidence :: b in after.evidence && before.evidence[b] <= after.evidence[b])
    && before.attributes.Keys <= after.attributes.Keys
  }

  lemma {:induction false} ChartsGrow(sheet: Sheet, charts: seq<ChartRecord>, ev: EvidenceId)
    ensures SheetGrows(sheet, WithCharts(sheet, charts, ev))
  {
    if charts != [] {
      ChartsGrow(sheet, charts[..|charts| - 1], ev);
    }
  }

  lemma AttributesGrow(links: Links, b: BindingKey, attributes: map<string, string>, ev: EvidenceId)
    ensures LinksGrow(links, WithAttributes(links, b, attributes, ev))
  {
    var after := WithAttributes(links, b, attributes, ev);
    forall x | x in links.evidence ensures x in after.evidence && links.evidence[x] <= after.evidence[x] {}
  }

  lemma GrowsTransitive(a: Song, b: Song, c: Song)
    requires Grows(a, b) && Grows(b, c)
    ensures Grows(a, c)
  {
    assert SheetGrows(a.sheet, c.sheet);
    hide Binds;
    assert LinksGrow(a.links, c.links);
  }

  // ---------------------------------------------------------------- one record into one song

  lemma MergedTachiLinks(song: Song, r: TachiRecord, ev: EvidenceId)
    requires Binds(song.links, Tachi, r.id)
    ensures MergedTachi(song, r, ev).links == Linked(song.links, TachiKey(r), TachiAttributes(r), ev)
  {
    AlreadyBound(song.links, TachiKey(r));
  }

  lemma MergedTachiGrows(song: Song, r: TachiRecord, ev: EvidenceId)
    ensures Grows(song, MergedTachi(song, r, ev))
  {
    AttributesGrow(song.links, TachiKey(r), TachiAttributes(r), ev);
    ChartsGrow(song.sheet, r.charts, ev);
    hide WithCharts, LinksGrow, SheetGrows, WithAttributes;
  }

  lemma MergedTextageGrows(song: Song, r: TextageRecord, ev: EvidenceId)
    ensures Grows(song, MergedTextage(song, r, ev))
  {
    var bound := WithBinding(song.links, TextageKey(r));
    AttributesGrow(bound, TextageKey(r), TextageAttributes(r), ev);
    assert LinksGrow(song.links, bound);
    ChartsGrow(song.sheet, r.charts, ev);
    assert LinksGrow(song.links, WithAttributes(bound, TextageKey(r), TextageAttributes(r), ev)) by {
      hide WithBinding, WithAttributes, Binds;
    }
    hide WithCharts, LinksGrow, SheetGrows, WithAttributes, WithBinding, Titled;
  }

  lemma MoreLinksKeepTitles(titles: set<Title>, before: Links, after: Links, known: set<EvidenceId>,
                            more: set<EvidenceId>)
    requires forall t | t in titles :: TitleOk(t, before, known)
    requires known <= more && forall s :: Bound(before, s) ==> Bound(after, s)
    ensures forall t | t in titles :: TitleOk(t, after, more)
  {
    forall t | t in titles ensures TitleOk(t, after, more) {
      assert TitleOk(t, before, known);
    }
  }

  lemma MergedTachiTitles(song: Song, r: TachiRecord, ev: EvidenceId, known: set<EvidenceId>)
    requires TitlesOk(song, known) && TachiRecordOk(r) && ev.source == Tachi && ev in known
    requires Binds(song.links, Tachi, r.id)
    ensures TitlesOk(MergedTachi(song, r, ev), known)
  {
    MergedTachiLinks(song, r, ev);
    LinkedBindings(song.links, TachiKey(r), TachiAttributes(r), ev);
    var after := MergedTachi(song, r, ev);
    MoreLinksKeepTitles(song.titles, song.links, after.links, known, known);
    hide WithAttributes, Linked, TachiAttributes, Titled, WithCharts, ChartRecordsOk;
    forall t | t in after.titles ensures TitleOk(t, after.links, known) {
      if t !in song.titles {
        assert CatalogText(t.value);
      }
    }
  }

  lemma MergedTachiIsOk(id: SongId, song: Song, r: TachiRecord, ev: EvidenceId, known: set<EvidenceId>)
    requires SongOk(id, song, known) && TachiRecordOk(r) && FromTachi(r.id) == id
    requires ev.source == Tachi && ev in known
    requires AttributeKey(Tachi, r.id, ev) in song.links.attributes ==>
               song.links.attributes[AttributeKey(Tachi, r.id, ev)] == TachiAttributes(r)
    ensures SongOk(id, MergedTachi(song, r, ev), known)
  {
    var b, attributes := TachiKey(r), TachiAttributes(r);
    var after := MergedTachi(song, r, ev);
    assert Binds(song.links, Tachi, r.id);
    TachiAttributesValid(r);
    MergedTachiLinks(song, r, ev);
    LinkedKeepsLinks(song.links, b, attributes, ev, known);
    LinkedKeepsRequired(song.links, b, attributes, ev);
    LinkedSays(song.links, r, ev);
    MergedTachiTitles(song, r, ev, known);
    ChartsKeepSheet(song.sheet, r.charts, ev, song.links, known);
    LinkedBindings(song.links, b, attributes, ev);
    MoreLinksKeepSheet(after.sheet, song.links, after.links, known, known);
    assert after.links.bindings == song.links.bindings by { AlreadyBound(song.links, b); }
    hide Linked, WithCharts, SheetOk, LinksOk, RequiredOk, TitlesOk, TachiAttributes, SaysPrimary;
    hide WithAttributes, CatalogText;
  }

  lemma NewSongSheet(r: TachiRecord, ev: EvidenceId, known: set<EvidenceId>)
    requires TachiRecordOk(r) && ev.source == Tachi && ev in known
    ensures SheetOk(NewSong(r, ev).sheet, NewSong(r, ev).links, known)
  {
    var song := NewSong(r, ev);
    assert r.id in song.links.bindings[Tachi];
    hide CatalogText, TachiAttributes;
    forall k | k in song.sheet.charts
      ensures ChartOk(k, song.sheet.charts[k]) && k in song.sheet.assertions && song.sheet.assertions[k] != {}
      ensures forall a | a in song.sheet.assertions[k] :: AssertionOk(a, song.links, known)
    {
      var x := RecordAt(r.charts, k);
      assert ChartRecordOk(x);
      assert song.sheet.assertions[k] == {AssertionOf(x, ev)};
    }
  }

  lemma NewSongLinks(r: TachiRecord, ev: EvidenceId, known: set<EvidenceId>)
    requires TachiRecordOk(r) && ev.source == Tachi && ev in known
    ensures LinksOk(NewSong(r, ev).links, known) && RequiredOk(NewSong(r, ev).links)
    ensures PrimaryOk(NewSong(r, ev))
  {
    TachiAttributesValid(r);
    PrimarySaid(r);
    FirstLinks(r.id, TachiAttributes(r), ev, known);
    hide TachiAttributes, CatalogText, TachiAttributesOk, LinksOk, RequiredOk;
    var links := NewSong(r, ev).links;
    assert links.attributes[AttributeKey(Tachi, r.id, ev)] == TachiAttributes(r);
    assert links.evidence[BindingKey(Tachi, r.id)] == {ev};
    assert r.primary <==> SaysPrimary(links, r.id, ev);
  }

  lemma FirstLinks(id: string, attributes: map<string, string>, ev: EvidenceId, known: set<EvidenceId>)
    requires CatalogText(id) && ev.source == Tachi && ev in known && TachiAttributesOk(attributes)
    requires forall name | name in attributes :: CatalogText(name) && CatalogText(attributes[name])
    ensures
      var b := BindingKey(Tachi, id);
      var links := Links(map[Tachi := {id}], map[b := {ev}], map[AttributeKey(Tachi, id, ev) := attributes]);
      LinksOk(links, known) && RequiredOk(links)
  {
    assert "primary_infinitas" in attributes;
    hide CatalogText, TachiAttributesOk;
  }

  lemma PrimarySaid(r: TachiRecord)
    ensures "primary_infinitas" in TachiAttributes(r)
    ensures ParseBool(TachiAttributes(r)["primary_infinitas"]) == Some(r.primary)
  {
  }

  lemma NewSongIsOk(r: TachiRecord, ev: EvidenceId, known: set<EvidenceId>)
    requires TachiRecordOk(r) && ev.source == Tachi && ev in known
    ensures SongOk(FromTachi(r.id), NewSong(r, ev), known)
  {
    NewSongSheet(r, ev, known);
    NewSongLinks(r, ev, known);
    var song := NewSong(r, ev);
    assert r.id in song.links.bindings[Tachi];
    var t :| t in r.titles;
    assert Title(t.value, Tachi, t.kind, ev) in song.titles;
    hide SheetOk, LinksOk, RequiredOk, PrimaryOk, TachiAttributes, ChartRecordsOk;
    assert TitlesOk(song, known);
  }

  lemma MergedTextageTitles(song: Song, r: TextageRecord, ev: EvidenceId, known: set<EvidenceId>)
    requires TitlesOk(song, known) && TextageRecordOk(r) && ev.source == Textage && ev in known
    ensures TitlesOk(MergedTextage(song, r, ev), known)
  {
    var b := TextageKey(r);
    LinkedBindings(song.links, b, TextageAttributes(r), ev);
    var after := MergedTextage(song, r, ev);
    MoreLinksKeepTitles(song.titles, song.links, after.links, known, known);
    hide WithAttributes, WithBinding, TextageAttributes, Titled, WithCharts, ChartRecordsOk;
    forall t | t in after.titles ensures TitleOk(t, after.links, known) {}
  }

  lemma MergedTextageLinks(song: Song, r: TextageRecord, ev: EvidenceId, known: set<EvidenceId>)
    requires LinksOk(song.links, known) && RequiredOk(song.links)
    requires TextageRecordOk(r) && ev.source == Textage && ev in known
    ensures
      var after := MergedTextage(song, r, ev).links;
      && LinksOk(after, known) && RequiredOk(after)
      && (forall s :: Bound(song.links, s) ==> Bound(after, s)) && Bound(after, Textage)
      && (Tachi in song.links.bindings ==>
            Tachi in after.bindings && after.bindings[Tachi] == song.links.bindings[Tachi])
  {
    TextageAttributesValid(r);
    hide TextageAttributes, RequiredOk, LinksOk, TextageAttributesOk, CatalogText, Titled, WithCharts;
    LinkedKeepsLinks(song.links, TextageKey(r), TextageAttributes(r), ev, known);
    LinkedKeepsRequired(song.links, TextageKey(r), TextageAttributes(r), ev);
    LinkedBindings(song.links, TextageKey(r), TextageAttributes(r), ev);
  }

  lemma MergedTextagePrimary(song: Song, r: TextageRecord, ev: EvidenceId)
    requires PrimaryOk(song)
    ensures PrimaryOk(MergedTextage(song, r, ev))
  {
    hide TextageAttributes, WithCharts, Titled, SaysPrimary;
    var after := MergedTextage(song, r, ev);
    forall e ensures SaysPrimary(after.links, song.tachiId, e) <==> SaysPrimary(song.links, song.tachiId, e) {
      LinkedLeavesTachi(song.links, TextageKey(r), TextageAttributes(r), ev, song.tachiId, e);
    }
  }

  lemma MergedTextageIsOk(id: SongId, song: Song, r: TextageRecord, ev: EvidenceId, known: set<EvidenceId>)
    requires SongOk(id, song, known) && TextageRecordOk(r) && ev.source == Textage && ev in known
    ensures SongOk(id, MergedTextage(song, r, ev), known)
  {
    hide WithAttributes, WithBinding, TextageAttributes, CatalogText, Titled, WithCharts, SheetOk, LinksOk, RequiredOk;
    hide TitlesOk, PrimaryOk, Bound;
    var after := MergedTextage(song, r, ev);
    MergedTextageLinks(song, r, ev, known);
    MergedTextagePrimary(song, r, ev);
    MergedTextageTitles(song, r, ev, known);
    MoreLinksKeepSheet(song.sheet, song.links, after.links, known, known);
    ChartsKeepSheet(song.sheet, r.charts, ev, after.links, known);
  }

  // A valid song stays valid under any evidence that contains what the song cites.
  lemma CitedEvidenceSuffices(id: SongId, song: Song, known: set<EvidenceId>, other: set<EvidenceId>)
    requires SongOk(id, song, known)
    requires forall e | e in known && ReferencedBySong(song, e) :: e in other
    ensures SongOk(id, song, other)
  {
    hide RequiredOk, PrimaryOk, IdentityOk, AttributesOk, CatalogText, Bound, ChartOk;
    forall t | t in song.titles ensures TitleOk(t, song.links, other) {
      assert TitleOk(t, song.links, known);
    }
    forall k, a | k in song.sheet.charts && a in song.sheet.assertions[k] ensures AssertionOk(a, song.links, other) {
      assert AssertionOk(a, song.links, known);
    }
    forall s, key | s in song.links.bindings && key in song.links.bindings[s]
      ensures ProvenanceOk(song.links, s, key, other)
    {
      assert ProvenanceOk(song.links, s, key, known);
    }
  }
}
