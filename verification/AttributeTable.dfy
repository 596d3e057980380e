// The attribute table itself: saving recurses over the value inserting rows, loading grows the
// value row by row.
module AttributeTable {
  import opened Common
  import opened Text
  import opened Structured
  import opened StructuredRoundTrip

  type Table = map<Key, Row>

  /** What follows `path` in a key written under it. */
  function Relative(path: string, k: Key): string {
    if |path| <= |k.path| then k.path[|path|..] else ""
  }

  lemma RelativeOf(event: string, path: string, p: string)
    ensures Relative(path, Key(event, path + p)) == p
  {
  }

  /** A path whose first token, if it has one, is among `done`. */
  predicate Through(p: string, done: set<string>) {
    TokensOf(p) == [] || TokensOf(p)[0] in done
  }

  predicate HasRow(v: Value, p: string) {
    At(v, TokensOf(p)).Some? && RowOf(At(v, TokensOf(p)).value).Some?
  }

  function KeysUnder(event: string, path: string, v: Value): set<Key> {
    set p | p in Paths(v) :: Key(event, path + p)
  }

  /** The rows that `v` and its children in `done` have under `path`. */
  function RowsThrough(event: string, path: string, v: Value, done: set<string>): Table {
    map k | k in KeysUnder(event, path, v) && Through(Relative(path, k), done) && HasRow(v, Relative(path, k)) ::
      RowOf(At(v, TokensOf(Relative(path, k))).value).value
  }

  /** The rows that the whole of `v` has under `path`. */
  function RowsUnder(event: string, path: string, v: Value): Table {
    map k | k in KeysUnder(event, path, v) && HasRow(v, Relative(path, k)) ::
      RowOf(At(v, TokensOf(Relative(path, k))).value).value
  }

  function IndexTokens(count: nat): set<string> {
    set i: int | 0 <= i < count :: Decimal(i)
  }

  function ChildTokens(v: Value): set<string> {
    match v
    case Array(items) => IndexTokens(|items|)
    case Object(fields) => fields.Keys
    case _ => {}
  }

  lemma ChildrenHaveTokens(v: Value, token: string)
    requires Child(v, token).Some?
    ensures token in ChildTokens(v)
  {
  }

  lemma KeyMember(event: string, path: string, v: Value, t: Tokens)
    ensures TokensOf(Encode(t)) == t
    ensures Relative(path, Key(event, path + Encode(t))) == Encode(t)
    ensures Key(event, path + Encode(t)) in KeysUnder(event, path, v) <==> At(v, t).Some?
  {
    TokensOfEncode(t);
    NodesAreAddressable(v, t);
    RelativeOf(event, path, Encode(t));
    if Key(event, path + Encode(t)) in KeysUnder(event, path, v) {
      var p :| p in Paths(v) && Key(event, path + p) == Key(event, path + Encode(t));
      RelativeOf(event, path, p);
      PathIsNode(v, p);
    }
  }

  /** A key under `path` belongs to one node. */
  lemma KeyNode(event: string, path: string, v: Value, k: Key) returns (t: Tokens)
    requires k in KeysUnder(event, path, v)
    ensures At(v, t).Some? && k == Key(event, path + Encode(t))
    ensures Relative(path, k) == Encode(t) && TokensOf(Relative(path, k)) == t
  {
    var p :| p in Paths(v) && k == Key(event, path + p);
    RelativeOf(event, path, p);
    PathIsNode(v, p);
    t := TokensOf(p);
    TokensOfEncode(t);
  }

  lemma NoChildrenYet(event: string, path: string, v: Value)
    requires RowOf(v).Some?
    ensures RowsThrough(event, path, v, {}) == map[Key(event, path) := RowOf(v).value]
  {
    assert path + "" == path;
    KeyMember(event, path, v, []);
    forall k | k in RowsThrough(event, path, v, {}) ensures k == Key(event, path) {
      var t := KeyNode(event, path, v, k);
    }
  }

  lemma AllChildren(event: string, path: string, v: Value)
    ensures RowsThrough(event, path, v, ChildTokens(v)) == RowsUnder(event, path, v)
  {
    forall k | k in KeysUnder(event, path, v) ensures Through(Relative(path, k), ChildTokens(v)) {
      var t := KeyNode(event, path, v, k);
      if t != [] { ChildrenHaveTokens(v, t[0]); }
    }
  }

  function ChildPath(path: string, token: string): string {
    path + "/" + Escape(token)
  }

  lemma ChildKeyOf(event: string, path: string, token: string, t: Tokens)
    requires t != [] && t[0] == token
    ensures Key(event, path + Encode(t)) == Key(event, ChildPath(path, token) + Encode(t[1..]))
  {
    assert path + ("/" + Escape(token) + Encode(t[1..])) == ChildPath(path, token) + Encode(t[1..]);
  }

  /** The keys under a child are the parent's keys whose node starts with the child's token. */
  lemma ChildKeys(event: string, path: string, v: Value, token: string, k: Key)
    requires Child(v, token).Some?
    ensures
      var child, t := Child(v, token).value, TokensOf(Relative(path, k));
      && (k in KeysUnder(event, ChildPath(path, token), child) <==>
          k in KeysUnder(event, path, v) && t != [] && t[0] == token)
      && (k in KeysUnder(event, ChildPath(path, token), child) ==>
          At(v, t) == At(child, TokensOf(Relative(ChildPath(path, token), k))))
  {
    var child := Child(v, token).value;
    if k in KeysUnder(event, ChildPath(path, token), child) {
      var u := KeyNode(event, ChildPath(path, token), child, k);
      var t := [token] + u;
      assert t[1..] == u;
      ChildKeyOf(event, path, token, t);
      KeyMember(event, path, v, t);
    }
    if k in KeysUnder(event, path, v) {
      var t := KeyNode(event, path, v, k);
      if t != [] && t[0] == token {
        ChildKeyOf(event, path, token, t);
        KeyMember(event, ChildPath(path, token), child, t[1..]);
      }
    }
  }

  /** Adding one child's rows to those of the children before it. */
  lemma OneMoreChild(event: string, path: string, v: Value, done: set<string>, token: string)
    requires Child(v, token).Some? && token !in done
    ensures RowsThrough(event, path, v, done + {token}) ==
            RowsThrough(event, path, v, done) + RowsUnder(event, ChildPath(path, token), Child(v, token).value)
  {
    hide RowsThrough, RowsUnder;
    var before, after := RowsThrough(event, path, v, done), RowsThrough(event, path, v, done + {token});
    var below := RowsUnder(event, ChildPath(path, token), Child(v, token).value);
    forall k: Key
      ensures k in after <==> k in before || k in below
      ensures k in below ==> k !in before && after[k] == below[k]
      ensures k in before ==> after[k] == before[k]
    {
      OneKey(event, path, v, done, token, k);
    }
    assert after.Keys == (before + below).Keys;
    assert forall k | k in after :: after[k] == (before + below)[k];
  }

  lemma OneKey(event: string, path: string, v: Value, done: set<string>, token: string, k: Key)
    requires Child(v, token).Some? && token !in done
    ensures
      var before, after := RowsThrough(event, path, v, done), RowsThrough(event, path, v, done + {token});
      var below := RowsUnder(event, ChildPath(path, token), Child(v, token).value);
      && (k in after <==> k in before || k in below)
      && (k in below ==> k !in before && after[k] == below[k])
      && (k in before ==> after[k] == before[k])
  {
    ChildKeys(event, path, v, token, k);
  }

  /** No row of the next child has been written yet. */
  lemma FreshBelow(event: string, path: string, v: Value, done: set<string>, token: string, before: Table)
    requires Child(v, token).Some? && token !in done
    requires before.Keys !! KeysUnder(event, path, v)
    ensures (before + RowsThrough(event, path, v, done)).Keys !!
            KeysUnder(event, ChildPath(path, token), Child(v, token).value)
  {
    forall k | k in KeysUnder(event, ChildPath(path, token), Child(v, token).value)
      ensures k !in before && k !in RowsThrough(event, path, v, done)
    {
      ChildKeys(event, path, v, token, k);
    }
  }

  lemma NoElements()
    ensures IndexTokens(0) == {}
  {
  }

  lemma NextElement(path: string, items: seq<Value>, index: nat)
    requires index < |items|
    ensures ChildPath(path, Decimal(index)) == path + "/" + Decimal(index)
    ensures Child(Array(items), Decimal(index)) == Some(items[index])
    ensures Decimal(index) !in IndexTokens(index)
    ensures IndexTokens(index + 1) == IndexTokens(index) + {Decimal(index)}
  {
    IndexToken(index);
    DigitsOfDecimal(index);
    forall i: nat | i < index ensures Decimal(i) != Decimal(index) { DigitsOfDecimal(i); }
  }

  /** The rows of one event, keyed by path. */
  function EventRows(table: Table, event: string): map<string, Row> {
    map k | k in table && k.event == event :: k.path := table[k]
  }

  /** The table without one event's rows. */
  function Without(table: Table, event: string): Table {
    map k | k in table && k.event != event :: table[k]
  }

  predicate SameOtherEvents(before: Table, after: Table, event: string) {
    Without(before, event) == Without(after, event)
  }

  class Attributes {
    var rows: Table

    constructor ()
      ensures rows == map[]
    {
      rows := map[];
    }

    /** `INSERT`, whose primary key must be new. */
    method Insert(key: Key, row: Row)
      requires key !in rows
      modifies this
      ensures rows == old(rows)[key := row]
      ensures SameOtherEvents(old(rows), rows, key.event)
    {
      rows := rows[key := row];
    }

    /** Writes the rows of `v` under `path`; fails on a number that is not an i64. */
    method Write(event: string, path: string, v: Value) returns (r: Result<(), Error>)
      requires rows.Keys !! KeysUnder(event, path, v)
      modifies this
      ensures r.Ok? <==> Storable(v)
      ensures r.Ok? ==> rows == old(rows) + RowsUnder(event, path, v)
      ensures SameOtherEvents(old(rows), rows, event)
      decreases v, 1
    {
      hide RowsThrough, RowsUnder, KeysUnder, Without;
      if RowOf(v).None? {
        return Err(UnsupportedContract);
      }
      KeyMember(event, path, v, []);
      assert path + "" == path;
      ghost var before := rows;
      Insert(Key(event, path), RowOf(v).value);
      NoChildrenYet(event, path, v);
      AllChildren(event, path, v);
      if v.Object? {
        r := WriteFields(event, path, v, before);
      } else if v.Array? {
        r := WriteItems(event, path, v, before);
      } else {
        r := Ok(());
      }
    }

    method WriteFields(event: string, path: string, v: Value, ghost before: Table) returns (r: Result<(), Error>)
      requires v.Object? && before.Keys !! KeysUnder(event, path, v)
      requires rows == before + RowsThrough(event, path, v, {})
      modifies this
      ensures r.Ok? <==> Storable(v)
      ensures r.Ok? ==> rows == before + RowsThrough(event, path, v, ChildTokens(v))
      ensures SameOtherEvents(old(rows), rows, event)
      decreases v, 0
    {
      hide RowsThrough, RowsUnder, KeysUnder, Without;
      var names := v.fields.Keys;
      ghost var done: set<string> := {};
      while names != {}
        invariant names <= v.fields.Keys && done == v.fields.Keys - names
        invariant rows == before + RowsThrough(event, path, v, done)
        invariant SameOtherEvents(old(rows), rows, event)
        invariant forall name | name in done :: Storable(v.fields[name])
        decreases names
      {
        var name :| name in names;
        FreshBelow(event, path, v, done, name, before);
        OneMoreChild(event, path, v, done, name);
        r := Write(event, ChildPath(path, name), v.fields[name]);
        if r.Err? {
          return;
        }
        names := names - {name};
        done := done + {name};
      }
      assert done == ChildTokens(v);
      r := Ok(());
    }

    method WriteItems(event: string, path: string, v: Value, ghost before: Table) returns (r: Result<(), Error>)
      requires v.Array? && before.Keys !! KeysUnder(event, path, v)
      requires rows == before + RowsThrough(event, path, v, {})
      modifies this
      ensures r.Ok? <==> Storable(v)
      ensures r.Ok? ==> rows == before + RowsThrough(event, path, v, ChildTokens(v))
      ensures SameOtherEvents(old(rows), rows, event)
      decreases v, 0
    {
      hide RowsThrough, RowsUnder, KeysUnder, Without, IndexTokens, Decimal, ChildPath, Escape, Child;
      assert IndexTokens(0) == {} by { NoElements(); }
      var index := 0;
      ghost var done: set<string> := {};
      while index < |v.items|
        invariant 0 <= index <= |v.items| && done == IndexTokens(index)
        invariant rows == before + RowsThrough(event, path, v, done)
        invariant SameOtherEvents(old(rows), rows, event)
        invariant forall i | 0 <= i < index :: Storable(v.items[i])
      {
        var token := Decimal(index);
        NextElement(path, v.items, index);
        FreshBelow(event, path, v, done, token, before);
        OneMoreChild(event, path, v, done, token);
        ghost var earlier := rows;
        r := Write(event, path + "/" + token, v.items[index]);
        assert SameOtherEvents(earlier, rows, event);
        if r.Err? {
          return;
        }
        index := index + 1;
        done := done + {token};
      }
      assert done == ChildTokens(v);
      r := Ok(());
    }

    /** Replaces the event's rows by those of `result`. */
    method Save(event: string, result: Value) returns (r: Result<(), Error>)
      modifies this
      ensures r.Ok? <==> Storable(result)
      ensures r.Ok? ==> rows == Without(old(rows), event) + RowsUnder(event, "", result)
      ensures r.Ok? ==> EventRows(rows, event) == Rows(result)
      ensures SameOtherEvents(old(rows), rows, event)
    {
      rows := Without(rows, event);
      r := Write(event, "", result);
      if r.Ok? { SavedRows(rows, Without(old(rows), event), event, result); }
    }

    /** Rebuilds the event's value from its rows. */
    method Load(event: string) returns (r: Result<Option<Value>, Error>)
      ensures r == LoadRows(Select(EventRows(rows, event)))
    {
      var records := Select(EventRows(rows, event));
      var root: Option<Value> := None;
      var index := 0;
      while index < |records|
        invariant 0 <= index <= |records|
        invariant LoadRows(records[..index]) == Ok(root)
      {
        var step := LoadRow(root, records[index].path, records[index].row);
        LoadAppend(records, index);
        if step.Err? {
          ErrorPersists(records, index + 1, step.error);
          return Err(step.error);
        }
        root := step.value;
        index := index + 1;
      }
      assert records[..index] == records;
      return Ok(root);
    }

    /** Saving and then loading: the value itself, an error for its unloadable family, and None
        never. */
    method SaveThenLoad(event: string, result: Value) returns (saved: bool, r: Result<Option<Value>, Error>)
      modifies this
      ensures saved <==> Storable(result)
      ensures saved && !LongArrayBelowNul(result) ==> r == Ok(Some(result))
      ensures saved && LongArrayBelowNul(result) ==> r.Err?
    {
      var outcome := Save(event, result);
      saved := outcome.Ok?;
      r := Load(event);
      if saved { RoundTrip(result); }
    }
  }

  lemma SavedRows(table: Table, kept: Table, event: string, result: Value)
    requires Storable(result)
    requires forall k | k in kept :: k.event != event
    requires table == kept + RowsUnder(event, "", result)
    ensures EventRows(table, event) == Rows(result)
  {
    hide RowsUnder, Rows;
    var rows := EventRows(table, event);
    forall p: string
      ensures p in rows <==> p in Rows(result)
      ensures p in rows ==> rows[p] == Rows(result)[p]
    {
      RowSaved(event, result, p);
      OneRow(table, kept, event, result, p);
    }
  }

  lemma OneRow(table: Table, kept: Table, event: string, result: Value, p: string)
    requires forall k | k in kept :: k.event != event
    requires table == kept + RowsUnder(event, "", result)
    ensures p in EventRows(table, event) <==> Key(event, p) in RowsUnder(event, "", result)
    ensures p in EventRows(table, event) ==>
              EventRows(table, event)[p] == RowsUnder(event, "", result)[Key(event, p)]
  {
    hide RowsUnder;
    assert Key(event, p) !in kept;
  }

  // Below the empty path the saved rows are the rows themselves.
  lemma RowSaved(event: string, result: Value, p: string)
    requires Storable(result)
    ensures Key(event, p) in RowsUnder(event, "", result) <==> p in Rows(result)
    ensures p in Rows(result) ==> RowsUnder(event, "", result)[Key(event, p)] == Rows(result)[p]
  {
    assert "" + p == p;
    RelativeOf(event, "", p);
    hide Nodes, At, Encode, Decimal, TokensOf;
    if p in Paths(result) {
      PathIsNode(result, p);
      StorableRows(result, TokensOf(p));
      assert Key(event, "" + p) in KeysUnder(event, "", result);
    }
    if Key(event, p) in RowsUnder(event, "", result) {
      var t := KeyNode(event, "", result, Key(event, p));
      NodesAreAddressable(result, t);
    }
  }
}
