// Score progress on the rank scale: thresholds, rank, rate and nearest boundary, in unsigned 64-bit arithmetic.
module Rank {
  import opened Common

  const U32_MAX := 4294967295
  const U64_MAX := 18446744073709551615

  // The numerators of the rank boundaries, in ninths of the maximum score.
  function Numerator(index: nat): nat
    requires index < 8
  {
    if index == 0 then 0 else index + 1
  }

  function CeilDiv(n: nat, d: nat): nat
    requires d > 0
  {
    n / d + if n % d == 0 then 0 else 1
  }

  function Boundary(max: nat, numerator: nat): nat {
    CeilDiv(max * numerator, 9)
  }

  // The threshold of a rank index, or the maximum score past the last rank.
  function Threshold(notes: nat, index: nat): nat
    requires index <= 8
  {
    if index == 8 then 2 * notes else Boundary(2 * notes, Numerator(index))
  }

  /** A boundary is the least score that reaches its share of the maximum. */
  lemma BoundaryReached(max: nat, numerator: nat, score: nat)
    ensures score >= Boundary(max, numerator) <==> 9 * score >= max * numerator
  {
    var n := max * numerator;
    assert n == 9 * (n / 9) + n % 9;
  }

  lemma ThresholdReached(notes: nat, index: nat, score: nat)
    requires index < 8
    ensures score >= Threshold(notes, index) <==> 9 * score >= 2 * notes * Numerator(index)
  {
    BoundaryReached(2 * notes, Numerator(index), score);
  }

  lemma Scaled(a: nat, b: nat, c: nat)
    requires b <= c
    ensures a * b <= a * c
  {
  }

  lemma ThresholdsAscend(notes: nat, i: nat, j: nat)
    requires i <= j <= 8
    ensures Threshold(notes, i) <= Threshold(notes, j)
  {
    if i < 8 {
      var reached := Threshold(notes, j);
      ThresholdReached(notes, i, reached);
      Scaled(2 * notes, Numerator(i), if j < 8 then Numerator(j) else 9);
      if j < 8 {
        ThresholdReached(notes, j, reached);
      }
      hide Threshold;
    }
  }

  lemma ProductFits(max: nat, numerator: nat)
    requires max <= 2 * U32_MAX && numerator <= 8
    ensures max * numerator <= U64_MAX
  {
    assert max * numerator <= max * 8;
  }

  /** `rank_thresholds`: fills the nine thresholds; no product leaves 64 bits. */
  method RankThresholds(notes: nat) returns (thresholds: Option<seq<nat>>)
    requires notes <= U64_MAX
    ensures thresholds.Some? <==> 0 < notes <= U32_MAX
    ensures thresholds.Some? ==>
              |thresholds.value| == 9 && forall i | 0 <= i <= 8 :: thresholds.value[i] == Threshold(notes, i)
  {
    if notes * 2 > U64_MAX || notes == 0 || notes > U32_MAX {
      return None;
    }
    var max := notes * 2;
    var filled := new nat[9](i => 0);
    for index := 0 to 8
      invariant forall i | 0 <= i < index :: filled[i] == Threshold(notes, i)
    {
      assert max * Numerator(index) <= U64_MAX by {
        ProductFits(max, Numerator(index));
      }
      assert Threshold(notes, index) == Boundary(max, Numerator(index));
      hide Threshold, Boundary, Numerator;
      filled[index] := Boundary(max, Numerator(index));
    }
    filled[8] := max;
    thresholds := Some(filled[..]);
  }

  datatype Progress = Progress(score: nat, max: nat, rate: nat, rank: nat)

  // The highest rank whose threshold the score reaches.
  predicate IsRank(notes: nat, score: nat, rank: nat) {
    rank < 8 && (rank > 0 ==> score >= Threshold(notes, rank))
    && forall i | rank < i < 8 :: score < Threshold(notes, i)
  }

  // Percentage in hundredths, rounded to the nearest.
  predicate IsRate(score: nat, max: nat, rate: nat) {
    2 * rate * max <= 2 * score * 10000 + max && 2 * score * 10000 < 2 * rate * max + max
  }

  function RateOf(score: nat, max: nat): nat
    requires max > 0
  {
    (score * 10000 + max / 2) / max
  }

  lemma RateRounds(score: nat, max: nat)
    requires max > 0 && max % 2 == 0
    ensures IsRate(score, max, RateOf(score, max))
  {
    var n := score * 10000 + max / 2;
    var rate := n / max;
    assert n == rate * max + n % max;
    assert 2 * (rate * max) == 2 * rate * max;
  }

  // The search for the rank, from the highest index down.
  method FindRank(notes: nat, score: nat, thresholds: seq<nat>) returns (rank: nat)
    requires |thresholds| == 9 && forall i | 0 <= i <= 8 :: thresholds[i] == Threshold(notes, i)
    ensures IsRank(notes, score, rank)
  {
    hide Threshold;
    rank := 7;
    while rank > 0 && score < thresholds[rank]
      invariant rank <= 7
      invariant forall i | rank < i < 8 :: score < Threshold(notes, i)
    {
      rank := rank - 1;
    }
  }

  /** `score_progress`: nothing for an impossible score or chart; nothing overflows on the way. */
  method ScoreProgress(score: nat, notes: nat) returns (p: Option<Progress>)
    requires score <= U64_MAX && notes <= U64_MAX
    ensures p.Some? <==> 0 < notes <= U32_MAX && score <= 2 * notes
    ensures p.Some? ==>
              && p.value.score == score && p.value.max == 2 * notes
              && IsRank(notes, score, p.value.rank) && IsRate(score, 2 * notes, p.value.rate)
  {
    var thresholds := RankThresholds(notes);
    if thresholds.None? { return None; }
    assert Threshold(notes, 8) == 2 * notes;
    hide Threshold, IsRate, IsRank, RateOf;
    var max := thresholds.value[8];
    if score > max { return None; }
    var rank := FindRank(notes, score, thresholds.value);
    assert score * 10000 + max / 2 <= U64_MAX;
    RateRounds(score, max);
    p := Some(Progress(score, max, RateOf(score, max), rank));
  }

  datatype Direction = Above | Below | ExactMax

  datatype Distance = Distance(boundary: nat, difference: nat, direction: Direction)

  function Gap(a: nat, b: nat): nat {
    if a < b then b - a else a - b
  }

  // The distance names a threshold, and no threshold is nearer.
  predicate IsNearest(notes: nat, score: nat, d: Distance) {
    && d.boundary <= 8
    && d.difference == Gap(score, Threshold(notes, d.boundary))
    && (forall i | 0 <= i <= 8 :: d.difference <= Gap(score, Threshold(notes, i)))
    && (d.direction.ExactMax? <==> d.boundary == 8 && d.difference == 0)
    && (d.direction.Above? ==> score >= Threshold(notes, d.boundary))
    && (d.direction.Below? ==> score < Threshold(notes, d.boundary))
  }

  /** `nearest_boundary`: nothing when the supplied rank is not the score's. */
  method NearestBoundary(p: Progress, supplied: nat) returns (d: Option<Distance>)
    requires p.max % 2 == 0 && 0 < p.max / 2 <= U32_MAX && p.score <= p.max
    requires IsRank(p.max / 2, p.score, p.rank)
    ensures d.Some? <==> supplied == p.rank
    ensures d.Some? ==> IsNearest(p.max / 2, p.score, d.value)
    ensures d.Some? ==> (d.value.direction.ExactMax? <==> p.score == p.max)
    ensures d.Some? && d.value.direction.Above? ==> d.value.boundary == p.rank
    ensures d.Some? && d.value.direction.Below? ==>
              d.value.boundary == p.rank + 1 && d.value.difference < p.score - Threshold(p.max / 2, p.rank)
  {
    if p.rank != supplied { return None; }
    var notes := p.max / 2;
    var thresholds := RankThresholds(notes);
    RankBrackets(notes, p.score, p.rank);
    var lower := p.score - thresholds.value[p.rank];
    var upper := thresholds.value[p.rank + 1] - p.score;
    NeighboursAreNearest(notes, p.score, p.rank);
    MaximumHasTopRank(notes, p.rank);
    hide IsRank, Threshold;
    if p.rank == 7 && upper == 0 {
      d := Some(Distance(8, 0, ExactMax));
    } else if lower <= upper {
      d := Some(Distance(p.rank, lower, Above));
    } else {
      d := Some(Distance(p.rank + 1, upper, Below));
    }
  }

  lemma MaximumHasTopRank(notes: nat, rank: nat)
    requires rank < 8
    ensures IsRank(notes, 2 * notes, rank) ==> rank == 7
    ensures Threshold(notes, 8) == 2 * notes
  {
    ThresholdsAscend(notes, 7, 8);
    hide Boundary;
  }

  // The score lies between the thresholds of its rank and of the next.
  lemma RankBrackets(notes: nat, score: nat, rank: nat)
    requires IsRank(notes, score, rank) && score <= 2 * notes
    ensures Threshold(notes, rank) <= score <= Threshold(notes, rank + 1)
    ensures rank < 7 ==> score < Threshold(notes, rank + 1)
  {
    assert Threshold(notes, 0) == 0;
  }

  // Every other threshold is at least as far away as one of those two, also when thresholds coincide.
  lemma NeighboursAreNearest(notes: nat, score: nat, rank: nat)
    requires IsRank(notes, score, rank) && score <= 2 * notes
    ensures forall i | 0 <= i <= rank :: Gap(score, Threshold(notes, i)) >= score - Threshold(notes, rank)
    ensures forall i | rank < i <= 8 :: Gap(score, Threshold(notes, i)) >= Threshold(notes, rank + 1) - score
  {
    RankBrackets(notes, score, rank);
    forall i | 0 <= i <= rank ensures Threshold(notes, i) <= Threshold(notes, rank) {
      ThresholdsAscend(notes, i, rank);
    }
    forall i | rank < i <= 8 ensures Threshold(notes, rank + 1) <= Threshold(notes, i) {
      ThresholdsAscend(notes, rank + 1, i);
    }
  }

  // ---------------------------------------------------------------- the second implementation

  const RANKS := ["F", "E", "D", "C", "B", "A", "AA", "AAA"]

  // `dj_level` of a known score and chart; the score is a signed integer, clamped at zero.
  function DjLevel(score: int, notes: nat): string
    requires notes > 0
  {
    var clamped := if score < 0 then 0 else score;
    var ninths := clamped * 9 / (notes * 2);
    var band := if ninths < 8 then ninths else 8;
    match band
    case 8 => "AAA"
    case 7 => "AA"
    case 6 => "A"
    case 5 => "B"
    case 4 => "C"
    case 3 => "D"
    case 2 => "E"
    case _ => "F"
  }

  lemma NinthsReach(score: nat, notes: nat, k: nat)
    requires notes > 0
    ensures score * 9 / (notes * 2) >= k <==> 9 * score >= 2 * notes * k
  {
    var n, d := score * 9, notes * 2;
    var q := n / d;
    assert n == q * d + n % d;
    if q >= k {
      assert q * d >= k * d;
    } else {
      assert (q + 1) * d <= k * d;
      assert (q + 1) * d == q * d + d;
    }
    assert k * d == 2 * notes * k;
  }

  /** Both implementations name the same rank. */
  lemma SameRank(notes: nat, score: nat, rank: nat)
    requires notes > 0 && IsRank(notes, score, rank)
    ensures RANKS[rank] == DjLevel(score, notes)
  {
    NinthsReach(score, notes, rank + 1);
    NinthsReach(score, notes, 8);
    if rank > 0 {
      ThresholdReached(notes, rank, score);
    }
    if rank < 7 {
      ThresholdReached(notes, rank + 1, score);
      NinthsReach(score, notes, rank + 2);
    }
  }

  /** The rank of a score is unique. */
  lemma RankIsUnique(notes: nat, score: nat, a: nat, b: nat)
    requires IsRank(notes, score, a) && IsRank(notes, score, b)
    ensures a == b
  {
  }
}
