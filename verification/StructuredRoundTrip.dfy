// Loading what was saved: the value grows node by node and comes back whole, except for one
// family of values, which the loader rejects.
module StructuredRoundTrip {
  import opened Common
  import opened Text
  import opened Structured

  function Paths(v: Value): set<string> {
    set t | t in Nodes(v) :: Encode(t)
  }

  function TokensOf(path: string): Tokens {
    match PointerTokens(path)
    case Some(t) => t
    case None => []
  }

  lemma PathIsNode(v: Value, path: string)
    requires path in Paths(v)
    ensures TokensOf(path) in Nodes(v) && Encode(TokensOf(path)) == path
    ensures At(v, TokensOf(path)).Some?
  {
    var t :| t in Nodes(v) && Encode(t) == path;
    TokensOfEncode(t);
    NodesAreAddressable(v, t);
  }

  /** The table content that saving `v` leaves: one row per node. */
  function Rows(v: Value): map<string, Row>
    requires Storable(v)
  {
    map p | p in Paths(v) ::
      PathIsNode(v, p);
      StorableRows(v, TokensOf(p));
      RowOf(At(v, TokensOf(p)).value).value
  }

  // ----- the value as far as it is known -----

  /** How many leading elements of an array at `here` have been seen. */
  function Present(i: nat, count: nat, here: Tokens, seen: set<Tokens>): (m: nat)
    requires i <= count
    ensures i <= m <= count
    ensures forall j :: i <= j < m ==> here + [Decimal(j)] in seen
    ensures m < count ==> here + [Decimal(m)] !in seen
    decreases count - i
  {
    if i < count && here + [Decimal(i)] in seen then Present(i + 1, count, here, seen) else i
  }

  /** `v`, standing at `here`, cut down to the nodes in `seen`. */
  function Prune(v: Value, here: Tokens, seen: set<Tokens>): Value {
    match v
    case Array(items) =>
      Array(seq(Present(0, |items|, here, seen),
                i requires 0 <= i < |items| => Prune(items[i], here + [Decimal(i)], seen)))
    case Object(fields) =>
      Object(map k | k in fields && here + [k] in seen :: Prune(fields[k], here + [k], seen))
    case _ => v
  }

  /** What a node looks like before any of its children arrive. */
  function Empty(v: Value): Value {
    match v
    case Array(_) => Array([])
    case Object(_) => Object(map[])
    case _ => v
  }

  ghost predicate Below(here: Tokens, u: Tokens) {
    here <= u && |here| < |u|
  }

  lemma {:induction false} PruneFrame(v: Value, here: Tokens, s1: set<Tokens>, s2: set<Tokens>)
    requires forall u :: Below(here, u) ==> (u in s1 <==> u in s2)
    ensures Prune(v, here, s1) == Prune(v, here, s2)
  {
    match v
    case Array(items) =>
      var m1, m2 := Present(0, |items|, here, s1), Present(0, |items|, here, s2);
      assert m1 == m2 by {
        if m1 < m2 { assert Below(here, here + [Decimal(m1)]); }
        if m2 < m1 { assert Below(here, here + [Decimal(m2)]); }
      }
      forall i | 0 <= i < |items|
        ensures Prune(items[i], here + [Decimal(i)], s1) == Prune(items[i], here + [Decimal(i)], s2)
      {
        BelowChild(here, Decimal(i), s1, s2);
        PruneFrame(items[i], here + [Decimal(i)], s1, s2);
      }
    case Object(fields) =>
      forall k | k in fields
        ensures here + [k] in s1 <==> here + [k] in s2
        ensures Prune(fields[k], here + [k], s1) == Prune(fields[k], here + [k], s2)
      {
        assert Below(here, here + [k]);
        BelowChild(here, k, s1, s2);
        PruneFrame(fields[k], here + [k], s1, s2);
      }
    case _ =>
  }

  lemma BelowChild(here: Tokens, token: string, s1: set<Tokens>, s2: set<Tokens>)
    requires forall u :: Below(here, u) ==> (u in s1 <==> u in s2)
    ensures forall u :: Below(here + [token], u) ==> (u in s1 <==> u in s2)
  {
    forall u | Below(here + [token], u) ensures u in s1 <==> u in s2 {
      assert u[..|here| + 1] == here + [token];
      assert u[..|here|] == here;
      assert Below(here, u);
    }
  }

  lemma PruneEmpty(v: Value, here: Tokens, seen: set<Tokens>)
    requires forall u :: Below(here, u) ==> u !in seen
    ensures Prune(v, here, seen) == Empty(v)
  {
    match v
    case Array(items) =>
      if |items| > 0 { assert Below(here, here + [Decimal(0)]); }
    case Object(fields) =>
      forall k | k in fields ensures here + [k] !in seen { assert Below(here, here + [k]); }
    case _ =>
  }

  lemma {:induction false} PruneFull(v: Value, here: Tokens, seen: set<Tokens>)
    requires forall u :: u in Nodes(v) ==> here + u in seen
    ensures Prune(v, here, seen) == v
  {
    match v
    case Array(items) =>
      forall i | 0 <= i < |items|
        ensures here + [Decimal(i)] in seen && Prune(items[i], here + [Decimal(i)], seen) == items[i]
      {
        assert [Decimal(i)] + [] in Nodes(v);
        assert here + ([Decimal(i)] + []) == here + [Decimal(i)];
        forall u | u in Nodes(items[i]) ensures here + [Decimal(i)] + u in seen {
          assert [Decimal(i)] + u in Nodes(v);
          assert here + [Decimal(i)] + u == here + ([Decimal(i)] + u);
        }
        PruneFull(items[i], here + [Decimal(i)], seen);
      }
    case Object(fields) =>
      forall k | k in fields
        ensures here + [k] in seen && Prune(fields[k], here + [k], seen) == fields[k]
      {
        assert [k] + [] in Nodes(v);
        assert here + ([k] + []) == here + [k];
        forall u | u in Nodes(fields[k]) ensures here + [k] + u in seen {
          assert [k] + u in Nodes(v);
          assert here + [k] + u == here + ([k] + u);
        }
        PruneFull(fields[k], here + [k], seen);
      }
    case _ =>
  }

  /** Among the seen elements of each array there is no gap. */
  ghost predicate Contiguous(root: Value, seen: set<Tokens>) {
    forall u: Tokens, i: nat, j: nat ::
      j < i && At(root, u).Some? && At(root, u).value.Array? && u + [Decimal(i)] in seen
      ==> u + [Decimal(j)] in seen
  }

  lemma PresentIs(root: Value, here: Tokens, seen: set<Tokens>, i: nat)
    requires Contiguous(root, seen)
    requires At(root, here).Some? && At(root, here).value.Array?
    requires i < |At(root, here).value.items|
    ensures here + [Decimal(i)] in seen <==> i < Present(0, |At(root, here).value.items|, here, seen)
  {
  }

  ghost predicate Extends(root: Value, here: Tokens, v: Value) {
    At(root, here) == Some(v)
  }

  /** Inserting a node under its known parent gives the value known after it, or an error when an
      array element arrives out of turn. */
  lemma {:induction false} InsertPrune(root: Value, here: Tokens, v: Value, seen: set<Tokens>,
                                       parent: Tokens, token: string)
    requires Extends(root, here, v) && Contiguous(root, seen)
    requires At(v, parent + [token]).Some?
    requires forall k :: 0 < k <= |parent| ==> here + parent[..k] in seen
    requires forall u :: here + parent + [token] <= u ==> u !in seen
    ensures At(v, parent).Some?
    ensures
      var p := At(v, parent).value;
      InsertAt(Prune(v, here, seen), parent, Escape(token), Empty(At(v, parent + [token]).value)) ==
      if p.Array? && token != Decimal(Present(0, |p.items|, here + parent, seen))
      then Err(UnsupportedContract)
      else Ok(Prune(v, here, seen + {here + parent + [token]}))
    decreases |parent|
  {
    AtAppend(v, parent, token);
    if parent == [] {
      assert here + parent == here;
      assert parent + [token] == [token];
      InsertChild(root, here, v, seen, token);
    } else {
      var first, rest := parent[0], parent[1..];
      var child := Child(v, first).value;
      var below := here + [first];
      assert (parent + [token])[1..] == rest + [token];
      AtAppend(root, here, first);
      forall k | 0 < k <= |rest| ensures below + rest[..k] in seen {
        assert below + rest[..k] == here + parent[..k + 1];
      }
      assert below + rest == here + parent;
      assert below + rest + [token] == here + parent + [token];
      InsertPrune(root, below, child, seen, rest, token);
      assert here + parent[..1] == below;
      InsertBelow(root, here, v, seen, first, here + parent + [token]);
    }
  }

  lemma InsertChild(root: Value, here: Tokens, v: Value, seen: set<Tokens>, token: string)
    requires Extends(root, here, v) && Contiguous(root, seen)
    requires Child(v, token).Some?
    requires forall u :: here + [token] <= u ==> u !in seen
    ensures
      InsertAt(Prune(v, here, seen), [], Escape(token), Empty(Child(v, token).value)) ==
      if v.Array? && token != Decimal(Present(0, |v.items|, here, seen))
      then Err(UnsupportedContract)
      else Ok(Prune(v, here, seen + {here + [token]}))
  {
    var c, after := Child(v, token).value, seen + {here + [token]};
    assert Prune(c, here + [token], after) == Empty(c) by {
      forall u | Below(here + [token], u) ensures u !in after { }
      PruneEmpty(c, here + [token], after);
    }
    assert here + [token] + [] == here + [token];
    OtherChildren(v, here, seen, token, []);
    match v
    case Object(fields) => InsertField(here, fields, seen, token);
    case Array(items) =>
      AppendChild(root, here, items, seen, token);
    case _ =>
  }

  lemma InsertField(here: Tokens, fields: map<string, Value>, seen: set<Tokens>, token: string)
    requires token in fields && Unaffected(Object(fields), here, seen, seen + {here + [token]}, token)
    requires Prune(fields[token], here + [token], seen + {here + [token]}) == Empty(fields[token])
    ensures InsertAt(Prune(Object(fields), here, seen), [], Escape(token), Empty(fields[token])) ==
            Ok(Prune(Object(fields), here, seen + {here + [token]}))
  {
    var after := seen + {here + [token]};
    UnescapeInvertsEscape(token);
    hide Escape, Unescape;
    var grown := map k | k in fields && here + [k] in after :: Prune(fields[k], here + [k], after);
    var before := map k | k in fields && here + [k] in seen :: Prune(fields[k], here + [k], seen);
    forall k | k in fields && k != token
      ensures here + [k] in after <==> here + [k] in seen
      ensures Prune(fields[k], here + [k], after) == Prune(fields[k], here + [k], seen)
    {
      assert Child(Object(fields), k).Some?;
    }
    assert grown == before[token := Empty(fields[token])];
  }

  /** An array child's token reads back as its index, through the pointer and as a last segment. */
  lemma ElementToken(items: seq<Value>, token: string)
    requires Child(Array(items), token).Some?
    ensures
      var i := DigitsValue(token).value;
      token == Decimal(i) && Escape(token) == token &&
      ParseUnsigned(token) == Some(i) && PointerIndex(token) == Some(i)
  {
    var i := DigitsValue(token).value;
    IndexToken(i);
    ParseOfDecimal(i);
    NoLeadingZero(i);
    assert Decimal(i)[0] in Decimal(i);
  }

  lemma {:induction false} PresentUnique(i: nat, count: nat, here: Tokens, seen: set<Tokens>, m: nat)
    requires i <= m <= count
    requires forall j :: i <= j < m ==> here + [Decimal(j)] in seen
    requires m < count ==> here + [Decimal(m)] !in seen
    ensures Present(i, count, here, seen) == m
    decreases m - i
  {
    if i < m { PresentUnique(i + 1, count, here, seen, m); }
  }

  lemma AppendChild(root: Value, here: Tokens, items: seq<Value>, seen: set<Tokens>, token: string)
    requires Extends(root, here, Array(items)) && Contiguous(root, seen)
    requires Child(Array(items), token).Some?
    requires here + [token] !in seen
    requires Prune(Child(Array(items), token).value, here + [token], seen + {here + [token]})
             == Empty(Child(Array(items), token).value)
    requires Unaffected(Array(items), here, seen, seen + {here + [token]}, token)
    ensures
      InsertAt(Prune(Array(items), here, seen), [], Escape(token), Empty(Child(Array(items), token).value)) ==
      if token != Decimal(Present(0, |items|, here, seen))
      then Err(UnsupportedContract)
      else Ok(Prune(Array(items), here, seen + {here + [token]}))
  {
    var i := DigitsValue(token).value;
    ElementToken(items, token);
    var m := Present(0, |items|, here, seen);
    var before := Prune(Array(items), here, seen).items;
    assert |before| == m;
    if i == m {
      assert Prune(Array(items), here, seen + {here + [token]}).items == before + [Empty(items[m])] by {
        GrownItems(root, here, items, seen, m);
      }
    } else if token == Decimal(m) {
      DecimalInjective(i, m);
    }
  }

  lemma GrownItems(root: Value, here: Tokens, items: seq<Value>, seen: set<Tokens>, m: nat)
    requires Extends(root, here, Array(items)) && Contiguous(root, seen)
    requires m == Present(0, |items|, here, seen) < |items|
    requires Prune(items[m], here + [Decimal(m)], seen + {here + [Decimal(m)]}) == Empty(items[m])
    requires Unaffected(Array(items), here, seen, seen + {here + [Decimal(m)]}, Decimal(m))
    ensures Prune(Array(items), here, seen + {here + [Decimal(m)]}).items
            == Prune(Array(items), here, seen).items + [Empty(items[m])]
  {
    PresentGrows(root, here, items, seen, m);
    var before := Prune(Array(items), here, seen).items;
    var grown := Prune(Array(items), here, seen + {here + [Decimal(m)]}).items;
    forall j | 0 <= j < m ensures grown[j] == before[j] {
      OtherIndex(items, j, m);
    }
  }

  lemma OtherIndex(items: seq<Value>, j: nat, i: nat)
    requires j < |items| && j != i
    ensures Decimal(j) != Decimal(i)
    ensures Child(Array(items), Decimal(j)) == Some(items[j])
  {
    DigitsOfDecimal(j);
    DigitsOfDecimal(i);
  }

  lemma PresentGrows(root: Value, here: Tokens, items: seq<Value>, seen: set<Tokens>, m: nat)
    requires Extends(root, here, Array(items)) && Contiguous(root, seen)
    requires m == Present(0, |items|, here, seen) < |items|
    ensures Present(0, |items|, here, seen + {here + [Decimal(m)]}) == m + 1
  {
    var added := here + [Decimal(m)];
    if m + 1 < |items| {
      PresentIs(root, here, seen, m + 1);
      OtherIndex(items, m + 1, m);
      assert (here + [Decimal(m + 1)])[|here|] != added[|here|];
    }
    PresentUnique(0, |items|, here, seen + {added}, m + 1);
  }

  /** The children of `v` other than `token` look the same through both sets. */
  ghost predicate Unaffected(v: Value, here: Tokens, seen: set<Tokens>, after: set<Tokens>, token: string) {
    forall k :: k != token && Child(v, k).Some? ==>
      && (here + [k] in after <==> here + [k] in seen)
      && Prune(Child(v, k).value, here + [k], after) == Prune(Child(v, k).value, here + [k], seen)
  }

  lemma OtherChildren(v: Value, here: Tokens, seen: set<Tokens>, token: string, rest: Tokens)
    ensures Unaffected(v, here, seen, seen + {here + [token] + rest}, token)
  {
    var added := here + [token] + rest;
    var after := seen + {added};
    assert added[|here|] == token;
    forall k | k != token && Child(v, k).Some?
      ensures here + [k] in after <==> here + [k] in seen
      ensures Prune(Child(v, k).value, here + [k], after) == Prune(Child(v, k).value, here + [k], seen)
    {
      assert (here + [k])[|here|] == k;
      forall u | Below(here + [k], u) ensures u in seen <==> u in after {
        assert u[|here|] == (here + [k])[|here|];
      }
      PruneFrame(Child(v, k).value, here + [k], seen, after);
    }
  }

  /** An insertion below `first` only replaces that child. */
  lemma InsertBelow(root: Value, here: Tokens, v: Value, seen: set<Tokens>, first: string, added: Tokens)
    requires Extends(root, here, v) && Contiguous(root, seen)
    requires Child(v, first).Some?
    requires here + [first] in seen
    requires Below(here + [first], added)
    ensures
      var after := seen + {added};
      var child := Child(v, first).value;
      match v
      case Object(fields) =>
        && first in Prune(v, here, seen).fields
        && Prune(v, here, seen).fields[first] == Prune(child, here + [first], seen)
        && Prune(v, here, after) == Object(Prune(v, here, seen).fields[first := Prune(child, here + [first], after)])
      case Array(items) =>
        && PointerIndex(first).Some?
        && var i := PointerIndex(first).value;
        && i < |Prune(v, here, seen).items|
        && Prune(v, here, seen).items[i] == Prune(child, here + [first], seen)
        && Prune(v, here, after) == Array(Prune(v, here, seen).items[i := Prune(child, here + [first], after)])
      case _ => false
  {
    var after := seen + {added};
    var rest := added[|here| + 1..];
    assert added == here + [first] + rest;
    OtherChildren(v, here, seen, first, rest);
    match v
    case Object(fields) =>
      var grown := Prune(v, here, after).fields;
      var before := Prune(v, here, seen).fields;
      forall k | k in fields && k != first
        ensures here + [k] in after <==> here + [k] in seen
        ensures Prune(fields[k], here + [k], after) == Prune(fields[k], here + [k], seen)
      {
        assert Child(v, k).Some?;
      }
      assert grown == before[first := Prune(fields[first], here + [first], after)];
    case Array(items) =>
      ReplaceElement(root, here, items, seen, first, added);
    case _ =>
  }

  // A pruned array keeps the leading elements that have been seen, each pruned.
  lemma PrunedItems(items: seq<Value>, here: Tokens, seen: set<Tokens>)
    ensures Prune(Array(items), here, seen).Array?
    ensures |Prune(Array(items), here, seen).items| == Present(0, |items|, here, seen)
    ensures forall j | 0 <= j < Present(0, |items|, here, seen) ::
              Prune(Array(items), here, seen).items[j] == Prune(items[j], here + [Decimal(j)], seen)
  {
    hide Present;
  }

  // The elements but the one in question have not been touched.
  lemma OtherElements(items: seq<Value>, here: Tokens, seen: set<Tokens>, after: set<Tokens>, i: nat)
    requires Unaffected(Array(items), here, seen, after, Decimal(i))
    ensures forall j | 0 <= j < |items| && j != i ::
              && (here + [Decimal(j)] in after <==> here + [Decimal(j)] in seen)
              && Prune(items[j], here + [Decimal(j)], after) == Prune(items[j], here + [Decimal(j)], seen)
  {
    hide Prune, Decimal, Child;
    forall j | 0 <= j < |items| && j != i
      ensures here + [Decimal(j)] in after <==> here + [Decimal(j)] in seen
      ensures Prune(items[j], here + [Decimal(j)], after) == Prune(items[j], here + [Decimal(j)], seen)
    {
      OtherIndex(items, j, i);
    }
  }

  lemma ReplaceElement(root: Value, here: Tokens, items: seq<Value>, seen: set<Tokens>, first: string, added: Tokens)
    requires Extends(root, here, Array(items)) && Contiguous(root, seen)
    requires Child(Array(items), first).Some?
    requires here + [first] in seen
    requires Below(here + [first], added)
    requires Unaffected(Array(items), here, seen, seen + {added}, first)
    ensures PointerIndex(first) == DigitsValue(first)
    ensures
      var after := seen + {added};
      var v := Array(items);
      var i := DigitsValue(first).value;
      && i < |Prune(v, here, seen).items|
      && Prune(v, here, seen).items[i] == Prune(items[i], here + [first], seen)
      && Prune(v, here, after).items == Prune(v, here, seen).items[i := Prune(items[i], here + [first], after)]
  {
    var after := seen + {added};
    var i := DigitsValue(first).value;
    ElementToken(items, first);
    PresentIs(root, here, seen, i);
    var m := Present(0, |items|, here, seen);
    assert Present(0, |items|, here, after) == m by {
      forall j | 0 <= j < |items| ensures here + [Decimal(j)] in after <==> here + [Decimal(j)] in seen {
        assert |here + [Decimal(j)]| < |added|;
      }
      PresentUnique(0, |items|, here, after, m);
    }
    PrunedItems(items, here, seen);
    PrunedItems(items, here, after);
    OtherElements(items, here, seen, after, i);
    hide Prune, Present, Decimal, Unaffected, Contiguous, Extends;
    var before := Prune(Array(items), here, seen).items;
    var grown := Prune(Array(items), here, after).items;
    assert grown == before[i := Prune(items[i], here + [first], after)];
  }

  // ----- reading the rows in order -----

  /** Every node once, none before one of its ancestors. */
  ghost predicate AncestorsFirst(v: Value, nodes: seq<Tokens>) {
    && (forall k :: 0 <= k < |nodes| ==> At(v, nodes[k]).Some?)
    && (forall t :: At(v, t).Some? ==> t in nodes)
    && (forall a, b :: 0 <= a < b < |nodes| ==> !(nodes[b] <= nodes[a]))
  }

  ghost predicate Describes(v: Value, nodes: seq<Tokens>, records: seq<Record>) {
    && |records| == |nodes|
    && forall k :: 0 <= k < |nodes| ==>
         && records[k].path == Encode(nodes[k])
         && At(v, nodes[k]).Some?
         && Some(records[k].row) == RowOf(At(v, nodes[k]).value)
  }

  function Seen(nodes: seq<Tokens>, k: nat): set<Tokens>
    requires k <= |nodes|
  {
    set t | t in nodes[..k]
  }

  lemma {:induction false} AtPrefix(v: Value, t: Tokens, u: Tokens)
    requires At(v, t + u).Some?
    ensures At(v, t).Some?
    decreases |t|
  {
    if t != [] {
      assert (t + u)[1..] == t[1..] + u;
      AtPrefix(Child(v, t[0]).value, t[1..], u);
    }
  }

  /** When a row is read, all its ancestors have been read and none of its descendants has. */
  lemma StepFacts(v: Value, nodes: seq<Tokens>, k: nat)
    requires AncestorsFirst(v, nodes) && k < |nodes|
    ensures forall n :: 0 <= n < |nodes[k]| ==> nodes[k][..n] in Seen(nodes, k)
    ensures forall u :: nodes[k] <= u ==> u !in Seen(nodes, k)
    ensures nodes[k] == [] <==> k == 0
  {
    var t := nodes[k];
    forall n | 0 <= n < |t| ensures t[..n] in Seen(nodes, k) {
      assert t == t[..n] + t[n..];
      AtPrefix(v, t[..n], t[n..]);
      var a :| 0 <= a < |nodes| && nodes[a] == t[..n];
      assert nodes[a] <= nodes[k];
      assert nodes[..k][a] == t[..n];
    }
    forall a | 0 <= a < k ensures !(t <= nodes[..k][a]) { assert nodes[..k][a] == nodes[a]; }
    forall u | t <= u ensures u !in Seen(nodes, k) { }
    assert k > 0 ==> !(nodes[k] <= nodes[0]);
    if t != [] {
      assert t[..0] in Seen(nodes, k);
    }
  }

  /** The elements before this one, if it is an array element, have been read. */
  ghost predicate InTurn(v: Value, nodes: seq<Tokens>, k: nat)
    requires k < |nodes|
  {
    forall parent: Tokens, i: nat, j: nat ::
      && j < i && nodes[k] == parent + [Decimal(i)]
      && At(v, parent).Some? && At(v, parent).value.Array?
      ==> parent + [Decimal(j)] in Seen(nodes, k)
  }

  lemma InTurnContiguous(v: Value, nodes: seq<Tokens>, k: nat)
    requires k <= |nodes|
    requires forall j :: 0 <= j < k ==> InTurn(v, nodes, j)
    ensures Contiguous(v, Seen(nodes, k))
  {
    forall u: Tokens, i: nat, j: nat
      | j < i && At(v, u).Some? && At(v, u).value.Array? && u + [Decimal(i)] in Seen(nodes, k)
      ensures u + [Decimal(j)] in Seen(nodes, k)
    {
      var a :| 0 <= a < k && nodes[..k][a] == u + [Decimal(i)];
      assert InTurn(v, nodes, a);
      assert u + [Decimal(j)] in Seen(nodes, a);
      assert nodes[..a] == nodes[..k][..a];
    }
  }

  lemma SeenNext(nodes: seq<Tokens>, k: nat)
    requires k < |nodes|
    ensures Seen(nodes, k + 1) == Seen(nodes, k) + {nodes[k]}
  {
    assert nodes[..k + 1] == nodes[..k] + [nodes[k]];
  }

  /** Reading row `k` after rows that all came in turn. */
  // A row below the root is inserted under its parent.
  lemma LoadRowInserts(root: Value, parent: Tokens, token: string, row: Row, leaf: Value)
    requires Leaf(row) == Ok(leaf)
    ensures
      LoadRow(Some(root), Encode(parent + [token]), row) ==
      match InsertAt(root, parent, Escape(token), leaf)
      case Err(e) => Err(e)
      case Ok(updated) => Ok(Some(updated))
  {
    hide InsertAt, Escape, Split;
    EncodeLast(parent, token);
    EscapeHasNoSlash(token);
    SplitLastPlain(Encode(parent), Escape(token));
    TokensOfEncode(parent);
  }

  lemma LoadStep(v: Value, nodes: seq<Tokens>, k: nat, row: Row)
    requires AncestorsFirst(v, nodes) && 0 < k < |nodes|
    requires forall j :: 0 <= j < k ==> InTurn(v, nodes, j)
    requires RowOf(At(v, nodes[k]).value) == Some(row)
    ensures
      LoadRow(Some(Prune(v, [], Seen(nodes, k))), Encode(nodes[k]), row) ==
      if InTurn(v, nodes, k) then Ok(Some(Prune(v, [], Seen(nodes, k + 1)))) else Err(UnsupportedContract)
  {
    var seen, t := Seen(nodes, k), nodes[k];
    StepFacts(v, nodes, k);
    var parent, token := t[..|t| - 1], t[|t| - 1];
    assert t == parent + [token];
    var node := At(v, t).value;
    assert Leaf(row) == Ok(Empty(node));
    LoadRowInserts(Prune(v, [], seen), parent, token, row, Empty(node));
    hide LoadRow, InsertAt, Prune, Encode, Escape, Leaf;
    InTurnContiguous(v, nodes, k);
    assert [] + parent == parent;
    InsertPruneAtRoot(v, seen, parent, token);
    SeenNext(nodes, k);
    AtAppend(v, parent, token);
    TurnIsPresent(v, nodes, k, parent, token);
  }

  lemma InsertPruneAtRoot(v: Value, seen: set<Tokens>, parent: Tokens, token: string)
    requires Contiguous(v, seen) && At(v, parent + [token]).Some?
    requires forall n :: 0 <= n < |parent + [token]| ==> (parent + [token])[..n] in seen
    requires forall u :: parent + [token] <= u ==> u !in seen
    ensures At(v, parent).Some?
    ensures
      var p := At(v, parent).value;
      InsertAt(Prune(v, [], seen), parent, Escape(token), Empty(At(v, parent + [token]).value)) ==
      if p.Array? && token != Decimal(Present(0, |p.items|, parent, seen))
      then Err(UnsupportedContract)
      else Ok(Prune(v, [], seen + {parent + [token]}))
  {
    assert [] + parent == parent;
    assert [] + parent + [token] == parent + [token];
    forall n | 0 < n <= |parent| ensures [] + parent[..n] in seen {
      assert [] + parent[..n] == (parent + [token])[..n];
    }
    InsertPrune(v, [], v, seen, parent, token);
  }

  lemma TurnIsPresent(v: Value, nodes: seq<Tokens>, k: nat, parent: Tokens, token: string)
    requires k < |nodes| && nodes[k] == parent + [token]
    requires At(v, parent).Some?
    requires Child(At(v, parent).value, token).Some?
    requires nodes[k] !in Seen(nodes, k)
    ensures
      var p := At(v, parent).value;
      InTurn(v, nodes, k) <==> (p.Array? ==> token == Decimal(Present(0, |p.items|, parent, Seen(nodes, k))))
  {
    var seen := Seen(nodes, k);
    if At(v, parent).value.Array? {
      var items := At(v, parent).value.items;
      var i := DigitsValue(token).value;
      ElementToken(items, token);
      var m := Present(0, |items|, parent, seen);
      if InTurn(v, nodes, k) {
        forall j: nat | j < i ensures parent + [Decimal(j)] in seen {
          assert nodes[k] == parent + [Decimal(i)];
        }
        PresentUnique(0, |items|, parent, seen, i);
      }
      if token == Decimal(m) {
        DecimalInjective(i, m);
        forall p: Tokens, a: nat, j: nat
          | j < a && nodes[k] == p + [Decimal(a)] && At(v, p).Some? && At(v, p).value.Array?
          ensures p + [Decimal(j)] in seen
        {
          LastToken(p, Decimal(a), parent, token);
          DecimalInjective(a, i);
        }
      }
    } else {
      forall p: Tokens, a: nat | nodes[k] == p + [Decimal(a)] ensures p == parent {
        LastToken(p, Decimal(a), parent, token);
      }
    }
  }

  lemma LastToken(p: Tokens, x: string, q: Tokens, y: string)
    requires p + [x] == q + [y]
    ensures p == q && x == y
  {
    assert |p| == |q|;
    assert (p + [x])[..|p|] == p && (q + [y])[..|q|] == q;
    assert (p + [x])[|p|] == x && (q + [y])[|q|] == y;
  }

  lemma {:induction false} LoadGood(v: Value, nodes: seq<Tokens>, records: seq<Record>, k: nat)
    requires AncestorsFirst(v, nodes) && Describes(v, nodes, records) && k <= |nodes|
    requires forall j :: 0 <= j < k ==> InTurn(v, nodes, j)
    ensures LoadRows(records[..k]) == Ok(if k == 0 then None else Some(Prune(v, [], Seen(nodes, k))))
  {
    if k > 0 {
      LoadGood(v, nodes, records, k - 1);
      var last := records[k - 1];
      LoadAppend(records, k - 1);
      assert last.path == Encode(nodes[k - 1]);
      if k == 1 {
        StepFacts(v, nodes, 0);
        LoadFirst(v, nodes, last.row);
      } else {
        LoadStep(v, nodes, k - 1, last.row);
      }
    }
  }

  lemma LoadAppend(records: seq<Record>, k: nat)
    requires k < |records|
    requires LoadRows(records[..k]).Ok?
    ensures LoadRows(records[..k + 1]) == LoadRow(LoadRows(records[..k]).value, records[k].path, records[k].row)
  {
    assert records[..k + 1][..k] == records[..k];
  }

  lemma LoadFirst(v: Value, nodes: seq<Tokens>, row: Row)
    requires |nodes| > 0 && nodes[0] == [] && RowOf(v) == Some(row)
    ensures LoadRow(None, Encode(nodes[0]), row) == Ok(Some(Prune(v, [], Seen(nodes, 1))))
  {
    assert nodes[..1] == [[]];
    PruneEmpty(v, [], Seen(nodes, 1));
  }

  lemma {:induction false} ErrorPersists(records: seq<Record>, k: nat, e: Error)
    requires k <= |records|
    requires LoadRows(records[..k]) == Err(e)
    ensures LoadRows(records) == Err(e)
    decreases |records| - k
  {
    if k == |records| {
      assert records[..k] == records;
    } else {
      assert records[..k + 1][..k] == records[..k];
      ErrorPersists(records, k + 1, e);
    }
  }

  /** A row out of turn makes the whole load fail. */
  lemma {:induction false} LoadBad(v: Value, nodes: seq<Tokens>, records: seq<Record>, bad: nat)
    requires AncestorsFirst(v, nodes) && Describes(v, nodes, records)
    requires bad < |nodes| && !InTurn(v, nodes, bad)
    ensures LoadRows(records).Err?
    decreases bad
  {
    if j :| 0 <= j < bad && !InTurn(v, nodes, j) {
      LoadBad(v, nodes, records, j);
    } else {
      StepFacts(v, nodes, bad);
      LoadGood(v, nodes, records, bad);
      LoadStep(v, nodes, bad, records[bad].row);
      assert records[..bad + 1][..bad] == records[..bad];
      ErrorPersists(records, bad + 1, UnsupportedContract);
    }
  }

  // ----- the listing of a saved value -----

  /** The nodes in the order in which the query lists their rows. */
  function Order(v: Value): seq<Tokens> {
    var listing := Listing(Paths(v));
    seq(|listing|, k requires 0 <= k < |listing| => TokensOf(listing[k]))
  }

  lemma OrderPaths(v: Value)
    ensures |Order(v)| == |Listing(Paths(v))|
    ensures forall k :: 0 <= k < |Order(v)| ==>
              Encode(Order(v)[k]) == Listing(Paths(v))[k] && At(v, Order(v)[k]).Some?
    ensures forall t :: At(v, t).Some? ==> t in Order(v)
  {
    hide At, Encode, Nodes, Listing, TokensOf;
    var listing, nodes := Listing(Paths(v)), Order(v);
    forall k | 0 <= k < |nodes| ensures Encode(nodes[k]) == listing[k] && At(v, nodes[k]).Some? {
      assert listing[k] in listing;
      PathIsNode(v, listing[k]);
    }
    forall t | At(v, t).Some? ensures t in nodes {
      NodeIsListed(v, t);
    }
  }

  lemma NodeIsListed(v: Value, t: Tokens)
    requires At(v, t).Some?
    ensures t in Order(v)
  {
    NodesAreAddressable(v, t);
    TokensOfEncode(t);
    hide At, Nodes, Listing;
    var listing := Listing(Paths(v));
    assert Encode(t) in listing;
    var k :| 0 <= k < |listing| && listing[k] == Encode(t);
    assert Order(v)[k] == t;
  }

  /** All nodes, in the query's order. */
  ghost predicate Sorted(v: Value, nodes: seq<Tokens>) {
    && (forall k :: 0 <= k < |nodes| ==> At(v, nodes[k]).Some?)
    && (forall t :: At(v, t).Some? ==> t in nodes)
    && (forall a, b :: 0 <= a < b < |nodes| ==> Precedes(nodes[a], nodes[b]))
  }

  ghost predicate Precedes(t: Tokens, u: Tokens) {
    PathLess(Encode(t), Encode(u))
  }

  lemma OrderIsSorted(v: Value)
    ensures Sorted(v, Order(v))
  {
    OrderPaths(v);
    var listing := Listing(Paths(v));
    forall a, b | 0 <= a < b < |Order(v)| ensures Precedes(Order(v)[a], Order(v)[b]) {
      assert PathLess(listing[a], listing[b]);
    }
  }

  lemma PrecedesIsOrder(t: Tokens, u: Tokens)
    ensures !(Precedes(t, u) && Precedes(u, t)) && !Precedes(t, t)
  {
    PathOrder();
  }

  lemma SortedIndex(v: Value, nodes: seq<Tokens>, t: Tokens, b: nat) returns (a: nat)
    requires Sorted(v, nodes) && At(v, t).Some?
    requires b < |nodes| && Precedes(t, nodes[b])
    ensures a < b && nodes[a] == t
  {
    assert t in nodes;
    a :| 0 <= a < |nodes| && nodes[a] == t;
    PrecedesIsOrder(t, nodes[b]);
  }

  lemma SortedAncestorsFirst(v: Value, nodes: seq<Tokens>)
    requires Sorted(v, nodes)
    ensures AncestorsFirst(v, nodes)
  {
    forall a, b | 0 <= a < b < |nodes| ensures !(nodes[b] <= nodes[a]) {
      assert Precedes(nodes[a], nodes[b]);
      PrecedesIsOrder(nodes[a], nodes[b]);
      if nodes[b] <= nodes[a] { PrefixPrecedes(nodes[b], nodes[a]); }
    }
  }

  lemma PrefixPrecedes(t: Tokens, u: Tokens)
    requires t <= u
    ensures t == u || Precedes(t, u)
  {
    var rest := u[|t|..];
    assert u == t + rest;
    if rest == [] {
      assert u == t;
    } else {
      AncestorFirst(t, rest);
    }
  }

  /** An array of more than ten elements stands below an object key that contains a NUL. */
  ghost predicate LongArrayBelowNul(v: Value) {
    exists t :: IsLongArrayBelowNul(v, t)
  }

  ghost predicate IsLongArrayBelowNul(v: Value, t: Tokens) {
    At(v, t).Some? && HasNul(t) && At(v, t).value.Array? && |At(v, t).value.items| > 10
  }

  lemma ElementAt(v: Value, t: Tokens, i: nat)
    requires At(v, t).Some? && At(v, t).value.Array?
    ensures At(v, t + [Decimal(i)]).Some? <==> i < |At(v, t).value.items|
  {
    AtAppend(v, t, Decimal(i));
    DigitsOfDecimal(i);
  }

  lemma ShortArraysInTurn(v: Value, nodes: seq<Tokens>, k: nat)
    requires Sorted(v, nodes) && k < |nodes|
    requires !LongArrayBelowNul(v)
    ensures InTurn(v, nodes, k)
  {
    forall parent: Tokens, i: nat, j: nat
      | j < i && nodes[k] == parent + [Decimal(i)] && At(v, parent).Some? && At(v, parent).value.Array?
      ensures parent + [Decimal(j)] in Seen(nodes, k)
    {
      ElementAt(v, parent, i);
      ElementAt(v, parent, j);
      assert !IsLongArrayBelowNul(v, parent);
      SiblingOrder(parent, j, i);
      assert Precedes(parent + [Decimal(j)], nodes[k]);
      var a := SortedIndex(v, nodes, parent + [Decimal(j)], k);
      assert nodes[..k][a] == parent + [Decimal(j)];
    }
  }

  lemma LongArrayOutOfTurn(v: Value, nodes: seq<Tokens>, t: Tokens) returns (k: nat)
    requires Sorted(v, nodes)
    requires IsLongArrayBelowNul(v, t)
    ensures k < |nodes| && !InTurn(v, nodes, k)
  {
    var ten, two := t + [Decimal(10)], t + [Decimal(2)];
    ElementAt(v, t, 10);
    ElementAt(v, t, 2);
    assert two in nodes;
    var b :| 0 <= b < |nodes| && nodes[b] == two;
    TenBeforeTwo(t);
    k := SortedIndex(v, nodes, ten, b);
    PrecedesIsOrder(two, two);
    forall a | 0 <= a < k ensures nodes[..k][a] != two {
      assert Precedes(nodes[a], nodes[b]);
    }
    assert two !in Seen(nodes, k);
  }

  lemma SelectDescribes(v: Value)
    requires Storable(v)
    ensures Describes(v, Order(v), Select(Rows(v)))
  {
    OrderPaths(v);
    assert Rows(v).Keys == Paths(v);
    var listing := Listing(Paths(v));
    forall k | 0 <= k < |listing|
      ensures Select(Rows(v))[k].path == listing[k]
      ensures Some(Select(Rows(v))[k].row) == RowOf(At(v, TokensOf(listing[k])).value)
    {
      assert listing[k] in listing;
      PathIsNode(v, listing[k]);
      StorableRows(v, TokensOf(listing[k]));
    }
  }

  /** The round trip: loading the saved rows returns the value, exactly when no array of more than
      ten elements stands below a key with a NUL; in that case loading reports an error. */
  lemma RoundTrip(v: Value)
    requires Storable(v)
    ensures LoadRows(Select(Rows(v))) == Ok(Some(v)) <==> !LongArrayBelowNul(v)
    ensures LoadRows(Select(Rows(v))).Err? <==> LongArrayBelowNul(v)
  {
    OrderIsSorted(v);
    SelectDescribes(v);
    LoadSorted(v, Order(v), Select(Rows(v)));
  }

  lemma LoadSorted(v: Value, nodes: seq<Tokens>, records: seq<Record>)
    requires Sorted(v, nodes) && Describes(v, nodes, records)
    ensures if LongArrayBelowNul(v) then LoadRows(records).Err? else LoadRows(records) == Ok(Some(v))
  {
    SortedAncestorsFirst(v, nodes);
    if t :| IsLongArrayBelowNul(v, t) {
      var bad := LongArrayOutOfTurn(v, nodes, t);
      LoadBad(v, nodes, records, bad);
    } else {
      forall j | 0 <= j < |nodes| ensures InTurn(v, nodes, j) {
        ShortArraysInTurn(v, nodes, j);
      }
      LoadGood(v, nodes, records, |nodes|);
      assert records[..|nodes|] == records;
      AllSeen(v, nodes);
    }
  }

  lemma AllSeen(v: Value, nodes: seq<Tokens>)
    requires AncestorsFirst(v, nodes)
    ensures |nodes| > 0 && Prune(v, [], Seen(nodes, |nodes|)) == v
  {
    assert At(v, []).Some?;
    assert nodes[..|nodes|] == nodes;
    forall u | u in Nodes(v) ensures [] + u in Seen(nodes, |nodes|) {
      assert [] + u == u;
      NodesAreAddressable(v, u);
    }
    PruneFull(v, [], Seen(nodes, |nodes|));
  }

  ghost predicate NulFreeKeys(v: Value) {
    && (v.Array? ==> forall i :: 0 <= i < |v.items| ==> NulFreeKeys(v.items[i]))
    && (v.Object? ==> forall k :: k in v.fields ==> '\0' !in k && NulFreeKeys(v.fields[k]))
  }

  lemma {:induction false} NulFreePaths(v: Value, t: Tokens)
    requires NulFreeKeys(v) && At(v, t).Some?
    ensures !HasNul(t)
    decreases |t|
  {
    if t != [] {
      NulFreePaths(Child(v, t[0]).value, t[1..]);
      if v.Array? {
        IndexToken(DigitsValue(t[0]).value);
      }
      EscapeKeepsNul(t[0]);
      assert Encode(t) == "/" + Escape(t[0]) + Encode(t[1..]);
    }
  }

  /** The documented promise: i64 numbers and NUL-free keys come back exactly. */
  lemma NulFreeRoundTrip(v: Value)
    requires Storable(v) && NulFreeKeys(v)
    ensures LoadRows(Select(Rows(v))) == Ok(Some(v))
  {
    if t :| IsLongArrayBelowNul(v, t) {
      NulFreePaths(v, t);
      assert false;
    }
    RoundTrip(v);
  }
}
