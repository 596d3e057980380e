// A JSON value stored as one row per node, keyed by an escaped path, and rebuilt from the rows
// listed by path length and then by path.
module Structured {
  import opened Common
  import opened Text
  import Ordering

  datatype Number = Integer(value: int) | Float(image: string)

  datatype Value =
    | Null
    | Boolean(truth: bool)
    | Num(number: Number)
    | Text(text: string)
    | Array(items: seq<Value>)
    | Object(fields: map<string, Value>)

  datatype Kind = ObjectKind | ArrayKind | StringKind | IntegerKind | BooleanKind | NullKind

  datatype Row = Row(kind: Kind, text: Option<string>, integer: Option<int>)

  /** Primary key of the attribute table. */
  datatype Key = Key(event: string, path: string)

  datatype Error = UnsupportedContract

  /** A node is addressed by the object keys and array-index numerals that lead to it. */
  type Tokens = seq<string>

  const I64_MIN: int := -0x8000_0000_0000_0000
  const I64_MAX: int := 0x7fff_ffff_ffff_ffff

  predicate IsI64(n: Number) {
    n.Integer? && I64_MIN <= n.value <= I64_MAX
  }

  /** The row of one node, or None for a number the table cannot hold. */
  function RowOf(v: Value): Option<Row> {
    match v
    case Object(_) => Some(Row(ObjectKind, None, None))
    case Array(_) => Some(Row(ArrayKind, None, None))
    case Text(s) => Some(Row(StringKind, Some(s), None))
    case Num(n) => if IsI64(n) then Some(Row(IntegerKind, None, Some(n.value))) else None
    case Boolean(b) => Some(Row(BooleanKind, None, Some(if b then 1 else 0)))
    case Null => Some(Row(NullKind, None, None))
  }

  // ----- nodes and their paths -----

  function Nodes(v: Value): (nodes: set<Tokens>)
    ensures [] in nodes
  {
    {[]} +
    match v
    case Array(items) => set i: int, t | 0 <= i < |items| && t in Nodes(items[i]) :: [Decimal(i)] + t
    case Object(fields) => set k, t | k in fields && t in Nodes(fields[k]) :: [k] + t
    case _ => {}
  }

  /** The child of `v` that `token` names, when there is one. */
  function Child(v: Value, token: string): Option<Value> {
    match v
    case Array(items) =>
      (match DigitsValue(token)
       case Some(i) => if i < |items| && token == Decimal(i) then Some(items[i]) else None
       case None => None)
    case Object(fields) => if token in fields then Some(fields[token]) else None
    case _ => None
  }

  function At(v: Value, t: Tokens): Option<Value>
    decreases |t|
  {
    if t == [] then Some(v)
    else
      match Child(v, t[0])
      case None => None
      case Some(c) => At(c, t[1..])
  }

  function Encode(t: Tokens): string {
    if t == [] then "" else "/" + Escape(t[0]) + Encode(t[1..])
  }

  /** Every number below `v` is an i64. */
  predicate Storable(v: Value) {
    && (v.Num? ==> IsI64(v.number))
    && (v.Array? ==> forall i :: 0 <= i < |v.items| ==> Storable(v.items[i]))
    && (v.Object? ==> forall k :: k in v.fields ==> Storable(v.fields[k]))
  }

  lemma NodeChild(v: Value, t: Tokens)
    requires t != []
    ensures t in Nodes(v) <==> (Child(v, t[0]).Some? && t[1..] in Nodes(Child(v, t[0]).value))
  {
    match v
    case Array(items) =>
      if t in Nodes(v) {
        var i: int, u :| 0 <= i < |items| && u in Nodes(items[i]) && t == [Decimal(i)] + u;
        DigitsOfDecimal(i);
        assert t[1..] == u;
      }
      if Child(v, t[0]).Some? && t[1..] in Nodes(Child(v, t[0]).value) {
        var i := DigitsValue(t[0]).value;
        assert t == [Decimal(i)] + t[1..];
      }
    case Object(fields) =>
      if t in Nodes(v) {
        var k, u :| k in fields && u in Nodes(fields[k]) && t == [k] + u;
        assert t[1..] == u;
      }
      if Child(v, t[0]).Some? && t[1..] in Nodes(Child(v, t[0]).value) {
        assert t == [t[0]] + t[1..];
      }
    case _ =>
  }

  lemma {:induction false} NodesAreAddressable(v: Value, t: Tokens)
    ensures t in Nodes(v) <==> At(v, t).Some?
    decreases |t|
  {
    if t != [] {
      NodeChild(v, t);
      if Child(v, t[0]).Some? {
        NodesAreAddressable(Child(v, t[0]).value, t[1..]);
      }
    }
  }

  lemma {:induction false} StorableRows(v: Value, t: Tokens)
    requires Storable(v) && At(v, t).Some?
    ensures Storable(At(v, t).value) && RowOf(At(v, t).value).Some?
    decreases |t|
  {
    if t != [] {
      StorableRows(Child(v, t[0]).value, t[1..]);
    }
  }

  lemma {:induction false} AtAppend(v: Value, t: Tokens, token: string)
    ensures At(v, t + [token]) == if At(v, t).Some? then Child(At(v, t).value, token) else None
    decreases |t|
  {
    if t == [] {
      assert t + [token] == [token];
    } else {
      assert (t + [token])[1..] == t[1..] + [token];
      if Child(v, t[0]).Some? {
        AtAppend(Child(v, t[0]).value, t[1..], token);
      }
    }
  }

  // ----- paths identify nodes -----

  lemma {:induction false} EncodeAppend(t: Tokens, u: Tokens)
    ensures Encode(t + u) == Encode(t) + Encode(u)
  {
    if t == [] {
      assert t + u == u;
    } else {
      assert (t + u)[1..] == t[1..] + u;
      EncodeAppend(t[1..], u);
    }
  }

  lemma EncodeLast(t: Tokens, token: string)
    ensures Encode(t + [token]) == Encode(t) + "/" + Escape(token)
  {
    EncodeAppend(t, [token]);
    assert [token][1..] == [];
    assert Encode([token]) == "/" + Escape(token);
  }

  /** `str::split('/')`. */
  function Split(s: string): (parts: seq<string>)
    ensures |parts| > 0
  {
    if s == "" then [""]
    else if s[0] == '/' then [""] + Split(s[1..])
    else
      var rest := Split(s[1..]);
      [[s[0]] + rest[0]] + rest[1..]
  }

  function UnescapeAll(parts: seq<string>): Tokens {
    if parts == [] then [] else [Unescape(parts[0])] + UnescapeAll(parts[1..])
  }

  /** The tokens of a JSON pointer: what follows its first slash, split and unescaped. */
  function PointerTokens(pointer: string): Option<Tokens> {
    if pointer == "" then Some([])
    else if pointer[0] != '/' then None
    else Some(UnescapeAll(Split(pointer[1..])))
  }

  lemma {:induction false} SplitPlain(a: string, rest: string)
    requires '/' !in a
    ensures Split(a + rest) == [a + Split(rest)[0]] + Split(rest)[1..]
  {
    if a == [] {
      assert a + rest == rest;
      assert a + Split(rest)[0] == Split(rest)[0];
    } else {
      assert a[0] in a;
      assert (a + rest)[1..] == a[1..] + rest;
      SplitPlain(a[1..], rest);
      assert [a[0]] + (a[1..] + Split(rest)[0]) == a + Split(rest)[0];
    }
  }

  lemma SplitHead(head: string, tail: string)
    requires '/' !in head && (tail == "" || tail[0] == '/')
    ensures Split(head + tail) == [head] + if tail == "" then [] else Split(tail[1..])
  {
    SplitPlain(head, tail);
    assert head + "" == head;
  }

  // A token in front of a path becomes the first part of the split.
  lemma PointerStep(token: string, tail: string)
    requires tail == "" || tail[0] == '/'
    ensures PointerTokens("/" + Escape(token) + tail)
            == Some([token] + if tail == "" then [] else UnescapeAll(Split(tail[1..])))
  {
    var head := Escape(token);
    assert ("/" + head + tail)[1..] == head + tail;
    EscapeHasNoSlash(token);
    UnescapeInvertsEscape(token);
    SplitHead(head, tail);
    hide Split, Escape, Unescape;
    var rest := if tail == "" then [] else Split(tail[1..]);
    assert Split(head + tail) == [head] + rest;
    assert ([head] + rest)[0] == head && ([head] + rest)[1..] == rest;
    assert UnescapeAll([head] + rest) == [token] + UnescapeAll(rest);
  }

  lemma {:induction false} PointerOfEncode(t: Tokens)
    requires t != []
    ensures PointerTokens(Encode(t)) == Some(t)
  {
    var tail := Encode(t[1..]);
    PointerStep(t[0], tail);
    hide Split, Escape, UnescapeAll;
    if |t| > 1 {
      PointerOfEncode(t[1..]);
    }
    assert t == [t[0]] + t[1..];
  }

  lemma TokensOfEncode(t: Tokens)
    ensures PointerTokens(Encode(t)) == Some(t)
  {
    if t != [] { PointerOfEncode(t); }
  }

  lemma EncodeInjective(t: Tokens, u: Tokens)
    requires Encode(t) == Encode(u)
    ensures t == u
  {
    TokensOfEncode(t);
    TokensOfEncode(u);
  }

  /** `str::rsplit_once('/')`. */
  function SplitLast(path: string): Option<(string, string)> {
    if path == "" then None
    else
      var last := |path| - 1;
      if path[last] == '/' then Some((path[..last], ""))
      else
        match SplitLast(path[..last])
        case None => None
        case Some(pair) => Some((pair.0, pair.1 + [path[last]]))
  }

  lemma {:induction false} SplitLastPlain(parent: string, name: string)
    requires '/' !in name
    ensures SplitLast(parent + "/" + name) == Some((parent, name))
    decreases |name|
  {
    var path := parent + "/" + name;
    if name == "" {
      assert path[..|path| - 1] == parent;
    } else {
      var shorter := name[..|name| - 1];
      assert path[|path| - 1] == name[|name| - 1] && name[|name| - 1] in name;
      assert path[..|path| - 1] == parent + "/" + shorter;
      SplitLastPlain(parent, shorter);
      assert shorter + [name[|name| - 1]] == name;
    }
  }

  // ----- rebuilding -----

  /** The value one row contributes; containers start empty. */
  function Leaf(row: Row): Result<Value, Error> {
    match row.kind
    case ObjectKind => Ok(Object(map[]))
    case ArrayKind => Ok(Array([]))
    case StringKind => if row.text.Some? then Ok(Text(row.text.value)) else Err(UnsupportedContract)
    case IntegerKind => if row.integer.Some? then Ok(Num(Integer(row.integer.value))) else Err(UnsupportedContract)
    case BooleanKind => if row.integer.Some? then Ok(Boolean(row.integer.value != 0)) else Err(UnsupportedContract)
    case NullKind => Ok(Null)
  }

  /** serde_json's array index of a pointer token: no sign, no leading zero. */
  function PointerIndex(token: string): Option<nat> {
    if |token| > 0 && (token[0] == '+' || (token[0] == '0' && |token| != 1)) then None
    else ParseUnsigned(token)
  }

  /** Walks `tokens` down from `target` and puts `value` there under the last path segment `name`. */
  function InsertAt(target: Value, tokens: Tokens, name: string, value: Value): Result<Value, Error>
    decreases |tokens|
  {
    if tokens == [] then
      match target
      case Object(fields) => Ok(Object(fields[Unescape(name) := value]))
      case Array(items) =>
        (match ParseUnsigned(name)
         case None => Err(UnsupportedContract)
         case Some(index) => if index == |items| then Ok(Array(items + [value])) else Err(UnsupportedContract))
      case _ => Err(UnsupportedContract)
    else
      match target
      case Object(fields) =>
        if tokens[0] !in fields then Err(UnsupportedContract)
        else
          (match InsertAt(fields[tokens[0]], tokens[1..], name, value)
           case Err(e) => Err(e)
           case Ok(child) => Ok(Object(fields[tokens[0] := child])))
      case Array(items) =>
        (match PointerIndex(tokens[0])
         case None => Err(UnsupportedContract)
         case Some(i) =>
           if i >= |items| then Err(UnsupportedContract)
           else
             match InsertAt(items[i], tokens[1..], name, value)
             case Err(e) => Err(e)
             case Ok(child) => Ok(Array(items[i := child])))
      case _ => Err(UnsupportedContract)
  }

  /** One iteration of the loading loop. */
  function LoadRow(root: Option<Value>, path: string, row: Row): Result<Option<Value>, Error> {
    match Leaf(row)
    case Err(e) => Err(e)
    case Ok(value) =>
      if path == "" then Ok(Some(value))
      else
        match (root, SplitLast(path))
        case (Some(target), Some((parent, name))) =>
          (match PointerTokens(parent)
           case None => Err(UnsupportedContract)
           case Some(tokens) =>
             match InsertAt(target, tokens, name, value)
             case Err(e) => Err(e)
             case Ok(updated) => Ok(Some(updated)))
        case _ => Err(UnsupportedContract)
  }

  datatype Record = Record(path: string, row: Row)

  /** The loading loop over a query result; the first failing row ends it. */
  function LoadRows(records: seq<Record>): Result<Option<Value>, Error> {
    if records == [] then Ok(None)
    else
      var last := |records| - 1;
      match LoadRows(records[..last])
      case Err(e) => Err(e)
      case Ok(root) => LoadRow(root, records[last].path, records[last].row)
  }

  // ----- SQL listing order -----

  /** SQLite's `length` of a text: the characters before its first NUL. */
  function SqlLength(s: string): (n: nat)
    ensures n <= |s|
  {
    if s == "" || s[0] == '\0' then 0 else 1 + SqlLength(s[1..])
  }

  /** `ORDER BY length(path), path`. */
  predicate PathLess(a: string, b: string) {
    SqlLength(a) < SqlLength(b) || (SqlLength(a) == SqlLength(b) && Less(a, b))
  }

  lemma PathOrder()
    ensures Ordering.StrictTotal(PathLess)
  {
    forall a ensures !PathLess(a, a) { LessIrreflexive(a); }
    forall a, b, c | PathLess(a, b) && PathLess(b, c) ensures PathLess(a, c) {
      if SqlLength(a) == SqlLength(b) == SqlLength(c) { LessTransitive(a, b, c); }
    }
    forall a, b ensures PathLess(a, b) || a == b || PathLess(b, a) { LessTotal(a, b); }
  }

  function Listing(paths: set<string>): (listing: seq<string>)
    ensures |listing| == |paths|
    ensures forall p :: p in listing <==> p in paths
    ensures forall i, j :: 0 <= i < j < |listing| ==> PathLess(listing[i], listing[j])
  {
    PathOrder();
    Ordering.Ascending(paths, PathLess)
  }

  /** `SELECT path, row ... ORDER BY length(path), path`. */
  function Select(rows: map<string, Row>): (records: seq<Record>)
    ensures |records| == |rows|
    ensures forall k :: 0 <= k < |records| ==> records[k].path in rows && records[k].row == rows[records[k].path]
  {
    var listing := Listing(rows.Keys);
    assert forall k :: 0 <= k < |listing| ==> listing[k] in listing;
    seq(|listing|, k requires 0 <= k < |listing| => Record(listing[k], rows[listing[k]]))
  }

  lemma {:induction false} SqlLengthAppend(p: string, s: string)
    ensures SqlLength(p + s) == if '\0' in p then SqlLength(p) else |p| + SqlLength(s)
  {
    if p == "" {
      assert p + s == s;
    } else {
      assert (p + s)[1..] == p[1..] + s;
      assert p == [p[0]] + p[1..];
      SqlLengthAppend(p[1..], s);
    }
  }

  lemma {:induction false} LengthWithoutNul(s: string)
    requires '\0' !in s
    ensures SqlLength(s) == |s|
  {
    if s != "" { LengthWithoutNul(s[1..]); }
  }

  /** A parent's row is listed before its descendants' rows, whatever characters the path holds. */
  lemma AncestorFirst(t: Tokens, u: Tokens)
    requires u != []
    ensures PathLess(Encode(t), Encode(t + u))
  {
    EncodeAppend(t, u);
    assert Encode(u) != "";
    PrefixIsLess(Encode(t), Encode(u));
    SqlLengthAppend(Encode(t), Encode(u));
    SqlLengthAppend(Encode(t), "");
    assert Encode(t) + "" == Encode(t);
  }

  ghost predicate HasNul(t: Tokens) {
    '\0' in Encode(t)
  }

  /** Siblings of an array are listed in index order: always without a NUL, and up to index 9 with one. */
  lemma SiblingOrder(t: Tokens, i: nat, j: nat)
    requires i < j
    requires !HasNul(t) || j < 10
    ensures PathLess(Encode(t + [Decimal(i)]), Encode(t + [Decimal(j)]))
  {
    IndexPath(t, i);
    IndexPath(t, j);
    DecimalOrder(i, j);
    if |Decimal(i)| == |Decimal(j)| {
      LessAfterPrefix(Encode(t) + "/", Decimal(i), Decimal(j));
    }
  }

  /** Under a NUL the tenth index sorts between 1 and 2. */
  lemma TenBeforeTwo(t: Tokens)
    requires HasNul(t)
    ensures PathLess(Encode(t + [Decimal(10)]), Encode(t + [Decimal(2)]))
  {
    IndexPath(t, 10);
    IndexPath(t, 2);
    assert Decimal(10) == "10" && Decimal(2) == "2";
    assert Less("10", "2");
    LessAfterPrefix(Encode(t) + "/", "10", "2");
  }

  lemma IndexToken(i: nat)
    ensures Escape(Decimal(i)) == Decimal(i) && '\0' !in "/" + Decimal(i)
  {
    EscapeOfPlain(Decimal(i));
  }

  lemma IndexPath(t: Tokens, i: nat)
    ensures Encode(t + [Decimal(i)]) == Encode(t) + "/" + Decimal(i)
    ensures SqlLength(Encode(t + [Decimal(i)])) ==
            if HasNul(t) then SqlLength(Encode(t)) else |Encode(t)| + 1 + |Decimal(i)|
  {
    var path, tail := Encode(t), "/" + Decimal(i);
    assert Encode(t + [Decimal(i)]) == path + tail by {
      EncodeLast(t, Decimal(i));
      IndexToken(i);
      assert path + tail == path + "/" + Decimal(i);
    }
    IndexToken(i);
    LengthAfter(path, tail);
  }

  lemma LengthAfter(p: string, s: string)
    requires '\0' !in s
    ensures SqlLength(p + s) == if '\0' in p then SqlLength(p) else |p| + |s|
  {
    SqlLengthAppend(p, s);
    LengthWithoutNul(s);
  }
}
