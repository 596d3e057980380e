// Strict total orders and the ordered listing of a finite set (SQL ORDER BY, BTreeSet iteration).
module Ordering {

  ghost predicate StrictTotal<T(!new)>(less: (T, T) -> bool) {
    && (forall a :: !less(a, a))
    && (forall a, b, c :: less(a, b) && less(b, c) ==> less(a, c))
    && (forall a, b :: less(a, b) || a == b || less(b, a))
  }

  /** `m` is the first element of `s`. */
  predicate IsFirst<T(==, !new)>(m: T, s: set<T>, less: (T, T) -> bool) {
    m in s && forall x | x in s :: x == m || less(m, x)
  }

  lemma {:induction false} FirstExists<T(!new)>(s: set<T>, less: (T, T) -> bool)
    requires StrictTotal(less)
    requires s != {}
    ensures exists m :: IsFirst(m, s, less)
    decreases s
  {
    var x :| x in s;
    var rest := s - {x};
    assert forall y | y in s :: y == x || y in rest;
    if rest == {} {
      assert IsFirst(x, s, less);
    } else {
      FirstExists(rest, less);
      var m :| IsFirst(m, rest, less);
      if less(x, m) {
        assert IsFirst(x, s, less);
      } else {
        assert IsFirst(m, s, less);
      }
    }
  }

  /** The elements of `s`, each once, in increasing order. */
  function Ascending<T(==, !new)>(s: set<T>, less: (T, T) -> bool): (r: seq<T>)
    requires StrictTotal(less)
    ensures |r| == |s|
    ensures forall x :: x in r <==> x in s
    ensures forall i, j :: 0 <= i < j < |r| ==> less(r[i], r[j])
    decreases s
  {
    if s == {} then []
    else
      FirstExists(s, less);
      var m :| IsFirst(m, s, less);
      [m] + Ascending(s - {m}, less)
  }

  /** An increasing listing is determined by its elements. */
  lemma {:induction false} AscendingUnique<T(!new)>(r: seq<T>, q: seq<T>, less: (T, T) -> bool)
    requires StrictTotal(less)
    requires forall i, j :: 0 <= i < j < |r| ==> less(r[i], r[j])
    requires forall i, j :: 0 <= i < j < |q| ==> less(q[i], q[j])
    requires |r| == |q| && forall x :: x in r <==> x in q
    ensures r == q
  {
    if r != [] {
      assert r[0] in q && q[0] in r;
      assert r[0] == q[0];
      forall x ensures x in r[1..] <==> x in q[1..] {
        if x in r[1..] { assert x in r && x != r[0]; }
        if x in q[1..] { assert x in q && x != q[0]; }
      }
      AscendingUnique(r[1..], q[1..], less);
    }
  }
}
