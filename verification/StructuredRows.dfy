// What the attribute rows of a value say, read off the value alone: the JSON pointer of every node, and the columns
// of its row.
module StructuredRows {
  import opened Common
  import opened Text
  import opened Structured
  import opened StructuredRoundTrip

  // ---------------------------------------------------------------- pointers

  // A member name in a pointer, character by character (section 3 of RFC 6901).
  function Escaped(name: string): string {
    if name == "" then ""
    else (if name[0] == '~' then "~0" else if name[0] == '/' then "~1" else [name[0]]) + Escaped(name[1..])
  }

  function Pointer(t: Tokens): string {
    if t == [] then "" else "/" + Escaped(t[0]) + Pointer(t[1..])
  }

  // The value of digits read from the left.
  function Horner(s: string, high: int): int {
    if s == "" then high else Horner(s[1..], high * 10 + (s[0] as int - '0' as int))
  }

  // The text is the numeral of `i`: digits, without a leading zero unless it is the only one.
  predicate IsNumeral(s: string, i: int) {
    && s != "" && (forall c | c in s :: '0' <= c <= '9') && (s[0] == '0' ==> |s| == 1) && Horner(s, 0) == i
  }

  // The node that the tokens lead to: members by name, elements by their numeral.
  ghost predicate LeadsTo(v: Value, t: Tokens, node: Value)
    decreases |t|
  {
    if t == [] then node == v
    else
      match v
      case Object(fields) => t[0] in fields && LeadsTo(fields[t[0]], t[1..], node)
      case Array(items) => exists i :: 0 <= i < |items| && IsNumeral(t[0], i) && LeadsTo(items[i], t[1..], node)
      case _ => false
  }

  ghost predicate PointsToNode(v: Value, p: string) {
    exists t, node :: p == Pointer(t) && LeadsTo(v, t, node)
  }

  // The columns of a node's row.
  predicate RowSays(r: Row, node: Value) {
    match node
    case Object(_) => r.kind.ObjectKind? && r.text.None? && r.integer.None?
    case Array(_) => r.kind.ArrayKind? && r.text.None? && r.integer.None?
    case Text(s) => r.kind.StringKind? && r.text == Some(s) && r.integer.None?
    case Num(n) =>
      && r.kind.IntegerKind? && r.text.None? && n.Integer? && r.integer == Some(n.value)
      && -0x8000_0000_0000_0000 <= n.value <= 0x7fff_ffff_ffff_ffff
    case Boolean(b) => r.kind.BooleanKind? && r.text.None? && r.integer == Some(if b then 1 else 0)
    case Null => r.kind.NullKind? && r.text.None? && r.integer.None?
  }

  lemma {:induction false} EscapedIsEscape(name: string)
    ensures Escape(name) == Escaped(name)
  {
    if name == "" {
    } else {
      EscapedIsEscape(name[1..]);
      EscapeStep(name);
    }
  }

  lemma {:induction false} PointerIsPath(t: Tokens)
    ensures Encode(t) == Pointer(t)
  {
    if t != [] {
      EscapedIsEscape(t[0]);
      PointerIsPath(t[1..]);
    }
  }

  // ---------------------------------------------------------------- numerals

  lemma {:induction false} HornerLast(s: string, c: char, high: int)
    ensures Horner(s + [c], high) == Horner(s, high) * 10 + (c as int - '0' as int)
  {
    if s == "" {
      assert s + [c] == [c] && [c][1..] == "";
    } else {
      assert (s + [c])[1..] == s[1..] + [c];
      HornerLast(s[1..], c, high * 10 + (s[0] as int - '0' as int));
    }
  }

  lemma {:induction false} HornerOfDecimal(n: nat)
    ensures Horner(Decimal(n), 0) == n
  {
    if n < 10 {
      assert Decimal(n) == "" + [Digit(n)];
      HornerLast("", Digit(n), 0);
      DigitValue(n);
    } else {
      HornerOfDecimal(n / 10);
      HornerLast(Decimal(n / 10), Digit(n % 10), 0);
      DigitValue(n % 10);
    }
  }

  lemma DigitValue(d: nat)
    requires d < 10
    ensures Digit(d) as int - '0' as int == d
  {
  }

  lemma DecimalIsNumeral(n: nat)
    ensures IsNumeral(Decimal(n), n)
  {
    HornerOfDecimal(n);
    NoLeadingZero(n);
  }

  lemma LastDigit(i: int, high: int, d: int)
    requires i == high * 10 + d && 0 <= d < 10 && high > 0
    ensures i >= 10 && i / 10 == high && i % 10 == d
  {
  }

  lemma {:induction false} NumeralIsDecimal(s: string, i: int)
    requires IsNumeral(s, i)
    ensures i >= 0 && s == Decimal(i)
    decreases |s|
  {
    var n := |s| - 1;
    var front, c := s[..n], s[n];
    assert s == front + [c] && c in s;
    HornerLast(front, c, 0);
    if n == 0 {
      assert front == "";
      DigitValue(i);
    } else {
      assert forall d | d in front :: d in s;
      NumeralIsDecimal(front, Horner(front, 0));
      assert Decimal(0) == "0" && front[0] == s[0];
      LastDigit(i, Horner(front, 0), c as int - '0' as int);
      DigitValue(i % 10);
    }
  }

  // ---------------------------------------------------------------- nodes

  lemma ChildIs(v: Value, token: string, i: int)
    requires v.Array? && 0 <= i < |v.items|
    ensures IsNumeral(token, i) <==> token == Decimal(i)
    ensures token == Decimal(i) ==> Child(v, token) == Some(v.items[i])
  {
    DecimalIsNumeral(i);
    if IsNumeral(token, i) {
      NumeralIsDecimal(token, i);
    }
    DigitsOfDecimal(i);
  }

  lemma {:induction false} LeadsToIsAt(v: Value, t: Tokens, node: Value)
    ensures LeadsTo(v, t, node) <==> At(v, t) == Some(node)
    decreases |t|
  {
    hide IsNumeral, Decimal, DigitsValue;
    if t != [] {
      match v
      case Object(fields) =>
        if t[0] in fields {
          LeadsToIsAt(fields[t[0]], t[1..], node);
        }
      case Array(items) =>
        forall i | 0 <= i < |items|
          ensures LeadsTo(items[i], t[1..], node) <==> At(items[i], t[1..]) == Some(node)
          ensures IsNumeral(t[0], i) <==> t[0] == Decimal(i)
          ensures t[0] == Decimal(i) ==> Child(v, t[0]) == Some(items[i])
        {
          LeadsToIsAt(items[i], t[1..], node);
          ChildIs(v, t[0], i);
        }
        ElementIsNamed(v, t[0]);
      case _ =>
    }
  }

  lemma ElementIsNamed(v: Value, token: string)
    requires v.Array?
    ensures Child(v, token).Some? ==>
              exists i :: 0 <= i < |v.items| && token == Decimal(i) && Child(v, token) == Some(v.items[i])
  {
  }

  lemma NodeRow(v: Value, t: Tokens, node: Value)
    requires Storable(v) && At(v, t) == Some(node)
    ensures RowOf(node).Some? && RowSays(RowOf(node).value, node)
  {
    StorableRows(v, t);
  }

  /** The rows of a storable value are one for each node, under its JSON pointer, with the columns of its kind. */
  lemma RowsSayTheValue(v: Value)
    requires Storable(v)
    ensures forall p :: p in Rows(v) <==> PointsToNode(v, p)
    ensures forall t, node | LeadsTo(v, t, node) :: Pointer(t) in Rows(v) && RowSays(Rows(v)[Pointer(t)], node)
  {
    hide RowSays, LeadsTo;
    forall t, node | LeadsTo(v, t, node)
      ensures Pointer(t) in Rows(v) && RowSays(Rows(v)[Pointer(t)], node)
    {
      LeadsToIsAt(v, t, node);
      PointerIsPath(t);
      NodesAreAddressable(v, t);
      TokensOfEncode(t);
      NodeRow(v, t, node);
    }
    forall p ensures p in Rows(v) <==> PointsToNode(v, p) {
      if p in Rows(v) {
        PathIsNode(v, p);
        var t := TokensOf(p);
        LeadsToIsAt(v, t, At(v, t).value);
        PointerIsPath(t);
        assert p == Pointer(t) && LeadsTo(v, t, At(v, t).value);
      }
      if t, node :| p == Pointer(t) && LeadsTo(v, t, node) {
        assert Pointer(t) in Rows(v);
      }
    }
  }
}
