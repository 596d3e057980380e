// Strings as sequences of code points: binary collation, decimal numerals, RFC 6901 token escaping.
module Text {
  import opened Common

  /** Code-point lexicographic order; for UTF-8 this is the byte order SQLite's BINARY collation uses. */
  predicate Less(a: string, b: string) {
    |b| > 0 && (|a| == 0 || a[0] < b[0] || (a[0] == b[0] && Less(a[1..], b[1..])))
  }

  lemma {:induction false} LessIrreflexive(a: string)
    ensures !Less(a, a)
  {
    if a != [] { LessIrreflexive(a[1..]); }
  }

  lemma {:induction false} LessTransitive(a: string, b: string, c: string)
    requires Less(a, b) && Less(b, c)
    ensures Less(a, c)
  {
    if a != [] && a[0] == b[0] && b[0] == c[0] {
      LessTransitive(a[1..], b[1..], c[1..]);
    }
  }

  lemma {:induction false} LessTotal(a: string, b: string)
    ensures Less(a, b) || a == b || Less(b, a)
  {
    if a != [] && b != [] && a[0] == b[0] {
      LessTotal(a[1..], b[1..]);
      assert a == [a[0]] + a[1..] && b == [b[0]] + b[1..];
    }
  }

  lemma {:induction false} LessAfterPrefix(p: string, a: string, b: string)
    ensures Less(p + a, p + b) <==> Less(a, b)
  {
    if p == [] {
      assert p + a == a && p + b == b;
    } else {
      LessAfterPrefix(p[1..], a, b);
      assert (p + a)[1..] == p[1..] + a && (p + b)[1..] == p[1..] + b;
    }
  }

  lemma {:induction false} PrefixIsLess(p: string, a: string)
    requires a != []
    ensures Less(p, p + a)
  {
    LessAfterPrefix(p, [], a);
    assert p + [] == p;
  }

  // ----- decimal numerals -----

  function Digit(d: nat): (c: char)
    requires d < 10
  {
    "0123456789"[d]
  }

  function Decimal(n: nat): (s: string)
    ensures |s| > 0
    ensures forall c | c in s :: '0' <= c <= '9'
  {
    if n < 10 then [Digit(n)] else Decimal(n / 10) + [Digit(n % 10)]
  }

  /** The value of a run of digits, or None when some character is not a digit. */
  function DigitsValue(s: string): Option<nat> {
    if |s| == 0 then Some(0)
    else
      var c := s[|s| - 1];
      if !('0' <= c <= '9') then None
      else
        match DigitsValue(s[..|s| - 1])
        case None => None
        case Some(high) => Some(high * 10 + (c as int - '0' as int))
  }

  /** Rust's `usize::from_str`, without its overflow error: an index that large is rejected anyway. */
  function ParseUnsigned(s: string): Option<nat> {
    var digits := if |s| > 0 && s[0] == '+' then s[1..] else s;
    if |digits| == 0 then None else DigitsValue(digits)
  }

  lemma {:induction false} DigitsOfDecimal(n: nat)
    ensures DigitsValue(Decimal(n)) == Some(n)
  {
    if n < 10 {
      assert Decimal(n)[..0] == "";
    } else {
      DigitsOfDecimal(n / 10);
      assert Decimal(n)[..|Decimal(n)| - 1] == Decimal(n / 10);
    }
  }

  lemma ParseOfDecimal(n: nat)
    ensures ParseUnsigned(Decimal(n)) == Some(n)
  {
    DigitsOfDecimal(n);
    assert Decimal(n)[0] in Decimal(n);
  }

  lemma DecimalInjective(i: nat, j: nat)
    requires Decimal(i) == Decimal(j)
    ensures i == j
  {
    DigitsOfDecimal(i);
    DigitsOfDecimal(j);
  }

  /** No numeral but "0" starts with a zero. */
  lemma {:induction false} NoLeadingZero(n: nat)
    ensures Decimal(n)[0] == '0' ==> n == 0
  {
    if n >= 10 { NoLeadingZero(n / 10); }
  }

  /** A larger number has a longer numeral, or an equally long one that sorts later. */
  lemma {:induction false} DecimalOrder(i: nat, j: nat)
    requires i < j
    ensures |Decimal(i)| < |Decimal(j)| ||
            (|Decimal(i)| == |Decimal(j)| && Less(Decimal(i), Decimal(j)))
  {
    if j >= 10 && i >= 10 {
      var a, b := Decimal(i / 10), Decimal(j / 10);
      if i / 10 == j / 10 {
        LessAfterPrefix(a, [Digit(i % 10)], [Digit(j % 10)]);
      } else {
        DecimalOrder(i / 10, j / 10);
        if |a| == |b| {
          LessExtended(a, b, [Digit(i % 10)], [Digit(j % 10)]);
        }
      }
    }
  }

  lemma {:induction false} LessExtended(a: string, b: string, x: string, y: string)
    requires |a| == |b| && Less(a, b)
    ensures Less(a + x, b + y)
  {
    if a[0] == b[0] {
      LessExtended(a[1..], b[1..], x, y);
      assert (a + x)[1..] == a[1..] + x && (b + y)[1..] == b[1..] + y;
    }
  }

  // ----- RFC 6901 token escaping -----

  /** `str::replace` of one character by a string. */
  function ReplaceChar(s: string, c: char, with: string): string {
    if s == [] then [] else (if s[0] == c then with else [s[0]]) + ReplaceChar(s[1..], c, with)
  }

  /** `str::replace` of a two-character pattern by one character, left to right without overlap. */
  function ReplacePair(s: string, a: char, b: char, with: char): string {
    if |s| < 2 then s
    else if s[0] == a && s[1] == b then [with] + ReplacePair(s[2..], a, b, with)
    else [s[0]] + ReplacePair(s[1..], a, b, with)
  }

  function Escape(name: string): string {
    ReplaceChar(ReplaceChar(name, '~', "~0"), '/', "~1")
  }

  function Unescape(token: string): string {
    ReplacePair(ReplacePair(token, '~', '1', '/'), '~', '0', '~')
  }

  /** Both replacements of `Escape` act on one character at a time. */
  lemma EscapeStep(s: string)
    requires s != []
    ensures Escape(s) == (if s[0] == '~' then "~0" else if s[0] == '/' then "~1" else [s[0]]) + Escape(s[1..])
  {
    var inner := ReplaceChar(s[1..], '~', "~0");
    if s[0] == '~' {
      assert ReplaceChar(s, '~', "~0") == "~0" + inner;
      assert ("~0" + inner)[1..] == "0" + inner;
      assert ("0" + inner)[1..] == inner;
      assert ReplaceChar("0" + inner, '/', "~1") == "0" + ReplaceChar(inner, '/', "~1");
      assert "~" + ("0" + ReplaceChar(inner, '/', "~1")) == "~0" + ReplaceChar(inner, '/', "~1");
    } else {
      assert ([s[0]] + inner)[1..] == inner;
    }
  }

  lemma {:induction false} UnescapeSlashes(s: string)
    ensures ReplacePair(Escape(s), '~', '1', '/') == ReplaceChar(s, '~', "~0")
  {
    if s != [] {
      UnescapeSlashes(s[1..]);
      EscapeStep(s);
      var rest := Escape(s[1..]);
      if s[0] == '~' {
        assert ("~0" + rest)[1..] == "0" + rest;
        PlainThenPair('0', rest, '1', '/');
      } else if s[0] == '/' {
        assert ("~1" + rest)[2..] == rest;
      } else {
        PlainThenPair(s[0], rest, '1', '/');
      }
    }
  }

  lemma PlainThenPair(c: char, rest: string, b: char, with: char)
    requires c != '~'
    ensures ReplacePair([c] + rest, '~', b, with) == [c] + ReplacePair(rest, '~', b, with)
  {
    assert ([c] + rest)[1..] == rest;
  }

  lemma {:induction false} UnescapeTildes(s: string)
    ensures ReplacePair(ReplaceChar(s, '~', "~0"), '~', '0', '~') == s
  {
    if s != [] {
      UnescapeTildes(s[1..]);
      var rest := ReplaceChar(s[1..], '~', "~0");
      if s[0] == '~' {
        assert ("~0" + rest)[2..] == rest;
      } else {
        PlainThenPair(s[0], rest, '0', '~');
      }
      assert s == [s[0]] + s[1..];
    }
  }

  lemma UnescapeInvertsEscape(name: string)
    ensures Unescape(Escape(name)) == name
  {
    UnescapeSlashes(name);
    UnescapeTildes(name);
  }

  lemma {:induction false} EscapeHasNoSlash(name: string)
    ensures '/' !in Escape(name)
  {
    if name != [] {
      EscapeHasNoSlash(name[1..]);
      EscapeStep(name);
    }
  }

  lemma {:induction false} EscapeOfPlain(name: string)
    requires '~' !in name && '/' !in name
    ensures Escape(name) == name
  {
    if name != [] {
      EscapeOfPlain(name[1..]);
      EscapeStep(name);
      assert name[0] in name;
    }
  }

  lemma {:induction false} EscapeKeepsNul(name: string)
    ensures '\0' in Escape(name) <==> '\0' in name
  {
    if name != [] {
      EscapeKeepsNul(name[1..]);
      EscapeStep(name);
      assert name == [name[0]] + name[1..];
    }
  }
}
