// Score facts: the best value seen per field, and the choice among the three sources of a best.
module ScoreFacts {
  import opened Common

  datatype Source = FromResult | FromPreviousBest | FromSelect

  datatype Origin = Origin(
    eventId: string,
    invocationId: string,
    sequence: nat,
    emittedMs: int,
    receivedMs: nat,
    revision: Option<nat>,
    observationId: Option<string>,
    session: Option<string>)

  /** A fact without a value says that the game shows no record. */
  datatype Fact = Fact(value: Option<int>, source: Source, origin: Origin)

  type Slot = Option<Fact>

  /** Score, miss count and clear type. */
  type Fields = f: seq<Slot> | |f| == 3 witness [None, None, None]

  /** Result, previous best and select fields, then the integrated best of each field. */
  type Facts = f: seq<Slot> | |f| == 12 witness seq(12, _ => None)

  const NO_FIELDS: Fields := [None, None, None]

  predicate Better(field: nat, left: int, right: int) {
    if field == 1 then left < right else left > right
  }

  function Value(slot: Slot): Option<int> {
    match slot
    case Some(fact) => fact.value
    case None => None
  }

  predicate Improves(field: nat, candidate: Slot, current: Slot) {
    && Value(candidate).Some?
    && (Value(current).None? || Better(field, Value(candidate).value, Value(current).value))
  }

  // ----- accumulation over plays -----

  function Accumulate(existing: Fields, incoming: Fields): Fields {
    seq(3, i requires 0 <= i < 3 => if Improves(i, incoming[i], existing[i]) then incoming[i] else existing[i])
  }

  /** `cumulative` on three slots of an array, in place. */
  method Cumulative(existing: array<Slot>, base: nat, incoming: Fields)
    requires base + 3 <= existing.Length
    modifies existing
    ensures existing[..] == old(existing[..base]) + Accumulate(old(existing[base..base + 3]), incoming)
                            + old(existing[base + 3..])
  {
    var field := 0;
    while field < 3
      invariant 0 <= field <= 3
      invariant forall i :: 0 <= i < existing.Length && !(base <= i < base + field) ==> existing[i] == old(existing[i])
      invariant forall i :: base <= i < base + field ==>
                  existing[i] == Accumulate(old(existing[base..base + 3]), incoming)[i - base]
    {
      if Improves(field, incoming[field], existing[base + field]) {
        existing[base + field] := incoming[field];
      }
      field := field + 1;
    }
  }

  function AccumulateAll(existing: Fields, plays: seq<Fields>): Fields {
    if plays == [] then existing
    else Accumulate(AccumulateAll(existing, plays[..|plays| - 1]), plays[|plays| - 1])
  }

  /** `best` is the best of the values that the plays have for a field. */
  ghost predicate IsBest(field: nat, best: Option<int>, plays: seq<Fields>)
    requires field < 3
  {
    match best
    case None => forall p :: 0 <= p < |plays| ==> Value(plays[p][field]).None?
    case Some(b) =>
      && (exists p :: 0 <= p < |plays| && Value(plays[p][field]) == Some(b))
      && (forall p :: 0 <= p < |plays| && Value(plays[p][field]).Some? ==>
            !Better(field, Value(plays[p][field]).value, b))
  }

  /** Accumulating from nothing finds the best value of every field. */
  lemma {:induction false} AccumulatedIsBest(plays: seq<Fields>, field: nat)
    requires field < 3
    ensures IsBest(field, Value(AccumulateAll(NO_FIELDS, plays)[field]), plays)
  {
    if plays != [] {
      var last := |plays| - 1;
      AccumulatedIsBest(plays[..last], field);
      assert forall p :: 0 <= p < last ==> plays[..last][p] == plays[p];
    }
  }

  lemma BestIsUnique(field: nat, a: Option<int>, b: Option<int>, plays: seq<Fields>)
    requires field < 3 && IsBest(field, a, plays) && IsBest(field, b, plays)
    ensures a == b
  {
    if a.Some? {
      var p :| 0 <= p < |plays| && Value(plays[p][field]) == a;
      assert b.Some?;
    }
  }

  /** The accumulated values do not depend on the order of the plays. */
  lemma AccumulationIgnoresOrder(plays: seq<Fields>, others: seq<Fields>, field: nat)
    requires field < 3
    requires forall f :: f in plays <==> f in others
    ensures Value(AccumulateAll(NO_FIELDS, plays)[field]) == Value(AccumulateAll(NO_FIELDS, others)[field])
  {
    AccumulatedIsBest(plays, field);
    AccumulatedIsBest(others, field);
    var b := Value(AccumulateAll(NO_FIELDS, others)[field]);
    assert IsBest(field, b, plays) by {
      forall p | 0 <= p < |plays| ensures exists q :: 0 <= q < |others| && others[q] == plays[p] {
        assert plays[p] in plays;
      }
      if b.Some? {
        var q :| 0 <= q < |others| && Value(others[q][field]) == b;
        assert others[q] in plays;
      }
    }
    BestIsUnique(field, Value(AccumulateAll(NO_FIELDS, plays)[field]), b, plays);
  }

  // ----- integration over sources -----

  /** The best of the three sources; an earlier source wins a tie. */
  function Choose(facts: Facts, field: nat, sources: nat): Slot
    requires field < 3 && sources <= 3
  {
    if sources == 0 then None
    else
      var best := Choose(facts, field, sources - 1);
      var candidate := facts[(sources - 1) * 3 + field];
      if Improves(field, candidate, best) then candidate else best
  }

  /** An integrated fact stays while it has the best value and is still one of the sources. */
  predicate Keeps(facts: Facts, field: nat)
    requires field < 3
  {
    var old_, best := facts[9 + field], Choose(facts, field, 3);
    && old_.Some?
    && old_.value.value == Value(best)
    && (facts[field] == old_ || facts[3 + field] == old_ || facts[6 + field] == old_)
  }

  function Integrated(facts: Facts): Facts {
    facts[..9] + seq(3, i requires 0 <= i < 3 => if Keeps(facts, i) then facts[9 + i] else Choose(facts, i, 3))
  }

  method ChooseBest(facts: array<Slot>, field: nat) returns (best: Slot)
    requires facts.Length == 12 && field < 3
    ensures best == Choose(facts[..], field, 3)
  {
    best := None;
    var source := 0;
    while source < 3
      invariant 0 <= source <= 3
      invariant best == Choose(facts[..], field, source)
    {
      if Improves(field, facts[source * 3 + field], best) {
        best := facts[source * 3 + field];
      }
      source := source + 1;
    }
  }

  lemma {:induction false} ChooseFrame(a: Facts, b: Facts, field: nat, sources: nat)
    requires field < 3 && sources <= 3
    requires forall i :: 0 <= i < 9 ==> a[i] == b[i]
    ensures Choose(a, field, sources) == Choose(b, field, sources)
  {
    if sources > 0 { ChooseFrame(a, b, field, sources - 1); }
  }

  /** `integrate`, in place. */
  method Integrate(facts: array<Slot>)
    requires facts.Length == 12
    modifies facts
    ensures facts[..] == Integrated(old(facts[..]))
  {
    ghost var was: Facts := facts[..];
    var field := 0;
    while field < 3
      invariant 0 <= field <= 3
      invariant forall i :: 0 <= i < 12 && !(9 <= i < 9 + field) ==> facts[i] == was[i]
      invariant forall i :: 9 <= i < 9 + field ==> facts[i] == Integrated(was)[i]
    {
      var best := ChooseBest(facts, field);
      ChooseFrame(facts[..], was, field, 3);
      var current := facts[9 + field];
      if !(current.Some? && current.value.value == Value(best) &&
           (facts[field] == current || facts[3 + field] == current || facts[6 + field] == current))
      {
        facts[9 + field] := best;
      }
      field := field + 1;
    }
  }

  /** The three sources of a field, as plays of one field. */
  function Sources(facts: Facts): seq<Fields> {
    [facts[0..3], facts[3..6], facts[6..9]]
  }

  /** An integrated slot holds the best value of its sources, whatever was integrated before. */
  lemma IntegratedIsBest(facts: Facts, field: nat)
    requires field < 3
    ensures IsBest(field, Value(Integrated(facts)[9 + field]), Sources(facts))
    ensures Integrated(facts)[..9] == facts[..9]
  {
    var c1, c2, c3 := Choose(facts, field, 1), Choose(facts, field, 2), Choose(facts, field, 3);
    assert Sources(facts)[0][field] == facts[field];
    assert Sources(facts)[1][field] == facts[3 + field];
    assert Sources(facts)[2][field] == facts[6 + field];
    assert Choose(facts, field, 0) == None;
    assert Value(Integrated(facts)[9 + field]) == Value(c3);
  }

  predicate SameValues(a: seq<Slot>, b: seq<Slot>) {
    |a| == |b| && forall i :: 0 <= i < |a| ==> Value(a[i]) == Value(b[i])
  }

  // The fact is that of the first of the three sources with this value.
  ghost predicate IsFirstSource(facts: Facts, field: nat, slot: Slot)
    requires field < 3
  {
    exists s :: && 0 <= s < 3 && slot == facts[3 * s + field]
                && forall r | 0 <= r < s :: Value(facts[3 * r + field]) != Value(slot)
  }

  /** An integrated slot keeps the fact it had exactly as long as that is a fact of one of its sources with the best
      value; otherwise it takes the fact of the first source with that value, and none when no source has a value. */
  lemma IntegratedFact(facts: Facts, field: nat)
    requires field < 3
    ensures
      var slot, saved := Integrated(facts)[9 + field], facts[9 + field];
      if saved.Some? && Value(saved) == Value(slot)
         && saved in {facts[field], facts[3 + field], facts[6 + field]} then slot == saved
      else if Value(slot).None? then slot.None?
      else IsFirstSource(facts, field, slot)
  {
    var slot := Integrated(facts)[9 + field];
    IntegratedIsBest(facts, field);
    var c0, c1, c2, c3 := Choose(facts, field, 0), Choose(facts, field, 1), Choose(facts, field, 2),
      Choose(facts, field, 3);
    if !Keeps(facts, field) && Value(slot).Some? {
      assert slot == c3 && c0.None?;
      if slot == facts[field] && c1 == slot {
        assert slot == facts[3 * 0 + field];
        assert IsFirstSource(facts, field, slot);
      } else if slot == facts[3 + field] && c2 == slot {
        assert slot == facts[3 * 1 + field];
        assert IsFirstSource(facts, field, slot);
      } else {
        assert slot == facts[3 * 2 + field];
        assert IsFirstSource(facts, field, slot);
      }
    }
  }

  /** The accumulated fact is that of the first play with the best value. */
  lemma {:induction false} AccumulatedIsFirst(plays: seq<Fields>, field: nat)
    requires field < 3
    ensures
      var slot := AccumulateAll(NO_FIELDS, plays)[field];
      if Value(slot).None? then slot.None?
      else exists p :: && 0 <= p < |plays| && slot == plays[p][field]
                       && forall q | 0 <= q < p :: Value(plays[q][field]) != Value(slot)
  {
    if plays != [] {
      var last := |plays| - 1;
      AccumulatedIsFirst(plays[..last], field);
      AccumulatedIsBest(plays[..last], field);
      var before, slot := AccumulateAll(NO_FIELDS, plays[..last])[field], AccumulateAll(NO_FIELDS, plays)[field];
      assert forall p :: 0 <= p < last ==> plays[..last][p] == plays[p];
      if Improves(field, plays[last][field], before) {
        assert slot == plays[last][field];
        forall q | 0 <= q < last ensures Value(plays[q][field]) != Value(slot) {
          assert plays[..last][q] == plays[q];
        }
      } else if Value(slot).Some? {
        var p :| 0 <= p < last && slot == plays[..last][p][field]
          && forall q | 0 <= q < p :: Value(plays[..last][q][field]) != Value(slot);
        assert slot == plays[p][field];
        forall q | 0 <= q < p ensures Value(plays[q][field]) != Value(slot) {
          assert plays[..last][q] == plays[q];
        }
      }
    }
  }

  /** The integrated values are a function of the source values. */
  lemma IntegrationOfValues(a: Facts, b: Facts)
    requires SameValues(a[..9], b[..9])
    ensures SameValues(Integrated(a), Integrated(b))
  {
    forall i | 0 <= i < 12 ensures Value(Integrated(a)[i]) == Value(Integrated(b)[i]) {
      if i < 9 {
        assert Value(a[..9][i]) == Value(b[..9][i]);
      } else {
        IntegratedIsBest(a, i - 9);
        IntegratedIsBest(b, i - 9);
        SourceValues(a, b, i - 9);
        BestIsUnique(i - 9, Value(Integrated(a)[i]), Value(Integrated(b)[i]), Sources(a));
      }
    }
  }

  lemma SourceValues(a: Facts, b: Facts, field: nat)
    requires field < 3
    requires SameValues(a[..9], b[..9])
    ensures forall best :: IsBest(field, best, Sources(a)) <==> IsBest(field, best, Sources(b))
  {
    forall s | 0 <= s < 3 ensures Value(Sources(a)[s][field]) == Value(Sources(b)[s][field]) {
      assert Value(a[..9][s * 3 + field]) == Value(b[..9][s * 3 + field]);
    }
  }
}
