// The music-select resolver: which best values of the selected chart are published, and under which ids.
module SelectResolver {
  import opened Common
  import opened Text

  const U64_MAX := 18446744073709551615

  // ---------------------------------------------------------------- observed values

  datatype Best<T> = Known(value: T) | NoRecord | NotDisplayed | Unknown

  // A field is accepted once it has been observed twice in a row.
  datatype Stable<T> = Stable(observed: Best<T>, consecutive: nat)

  function Fresh<T>(): Stable<T> {
    Stable(Unknown, 0)
  }

  function Observe<T(==)>(f: Stable<T>, x: Best<T>): Stable<T> {
    Stable(x, if x.Unknown? then 0
              else if f.observed == x then (if f.consecutive + 1 < 2 then f.consecutive + 1 else 2)
              else 1)
  }

  function Accepted<T>(f: Stable<T>): Best<T> {
    if f.consecutive >= 2 then f.observed else Unknown
  }

  // The field after a series of observations since its reset.
  function Observed<T(==)>(xs: seq<Best<T>>): Stable<T> {
    if xs == [] then Fresh() else Observe(Observed(xs[..|xs| - 1]), xs[|xs| - 1])
  }

  /** What is accepted is a known outcome that the last two observations agree on, and any such outcome is accepted. */
  lemma {:induction false} AcceptedIsRepeated<T>(xs: seq<Best<T>>)
    ensures !Accepted(Observed(xs)).Unknown? <==>
              |xs| >= 2 && !xs[|xs| - 1].Unknown? && xs[|xs| - 1] == xs[|xs| - 2]
    ensures !Accepted(Observed(xs)).Unknown? ==> Accepted(Observed(xs)) == xs[|xs| - 1]
  {
    if |xs| >= 2 {
      var front := xs[..|xs| - 1];
      assert front[|front| - 1] == xs[|xs| - 2];
      LastObserved(front);
    }
  }

  lemma LastObserved<T>(xs: seq<Best<T>>)
    requires xs != []
    ensures Observed(xs).observed == xs[|xs| - 1]
    ensures !xs[|xs| - 1].Unknown? ==> Observed(xs).consecutive >= 1
  {
  }

  datatype ClearType = NoPlay | Failed | Cleared(name: string)

  datatype Values = Values(score: Best<nat>, missCount: Best<nat>, clear: Best<ClearType>)

  predicate HasValue(v: Values) {
    !v.score.Unknown? || !v.missCount.Unknown? || !v.clear.Unknown?
  }

  // ---------------------------------------------------------------- publications

  datatype Chart = Chart(song: string, side: string, play: string, difficulty: string, notes: nat)

  datatype Identity =
    | AwaitingEvidence | AwaitingDifficulty | AwaitingPlayType | Stabilizing | CurrentFrameConflict | Resolved

  datatype FrameIdentity = Confirmed(chart: Chart) | Missing(reason: Identity) | Conflicting(reason: Identity)

  datatype Output = IdentityUnresolved | StabilizingValues | Partial | Complete

  datatype Snapshot = Snapshot(
    id: string,
    episode: nat,
    interval: nat,
    revision: nat,
    chart: Chart,
    values: Values)

  function ObservationId(session: string, episode: nat, interval: nat, revision: nat): string {
    session + ":" + Decimal(episode) + ":" + Decimal(interval) + ":" + Decimal(revision)
  }

  // Published later: in a later interval, or in the same one with a higher revision.
  predicate Later(a: Snapshot, b: Snapshot) {
    a.interval < b.interval || (a.interval == b.interval && a.revision < b.revision)
  }

  lemma {:induction false} LastColon(a: string, b: string, x: string, y: string)
    requires a + ":" + x == b + ":" + y && ':' !in x && ':' !in y
    ensures x == y && a == b
    decreases |x|
  {
    var s := a + ":" + x;
    var last := s[|s| - 1];
    assert last == (if x == [] then ':' else x[|x| - 1]);
    assert s == b + ":" + y && last == (if y == [] then ':' else y[|y| - 1]);
    assert x == [] <==> y == [];
    if x == [] {
      assert s[..|s| - 1] == a && s[..|s| - 1] == b;
    } else {
      assert s[..|s| - 1] == a + ":" + x[..|x| - 1];
      assert s[..|s| - 1] == b + ":" + y[..|y| - 1];
      LastColon(a, b, x[..|x| - 1], y[..|y| - 1]);
    }
  }

  /** Ids are equal only for the same interval and revision, whatever the session and the episode. */
  lemma SameIdSamePublication(s: string, e: nat, i: nat, r: nat, s': string, e': nat, i': nat, r': nat)
    requires ObservationId(s, e, i, r) == ObservationId(s', e', i', r')
    ensures i == i' && r == r'
  {
    var a, b := s + ":" + Decimal(e), s' + ":" + Decimal(e');
    LastColon(a + ":" + Decimal(i), b + ":" + Decimal(i'), Decimal(r), Decimal(r'));
    LastColon(a, b, Decimal(i), Decimal(i'));
    DecimalInjective(i, i');
    DecimalInjective(r, r');
  }

  // A score the chart allows.
  predicate Possible(score: Best<nat>, chart: Chart) {
    score.Known? ==> score.value <= 2 * chart.notes
  }

  // An impossible score counts as not observed.
  function PossibleScore(score: Best<nat>, chart: Chart): Best<nat> {
    if Possible(score, chart) then score else Unknown
  }

  // The scores of some frames, with those the chart does not allow taken as not observed.
  function Scores(frames: seq<Values>, notes: nat): seq<Best<nat>> {
    seq(|frames|, i requires 0 <= i < |frames| =>
      if frames[i].score.Known? && frames[i].score.value > 2 * notes then Unknown else frames[i].score)
  }

  function MissCounts(frames: seq<Values>): seq<Best<nat>> {
    seq(|frames|, i requires 0 <= i < |frames| => frames[i].missCount)
  }

  function Clears(frames: seq<Values>): seq<Best<ClearType>> {
    seq(|frames|, i requires 0 <= i < |frames| => frames[i].clear)
  }

  // What the last two observations agree on, if they do on something known.
  predicate Agreed<T(==)>(x: Best<T>, xs: seq<Best<T>>) {
    if |xs| >= 2 && xs[|xs| - 1] == xs[|xs| - 2] then x == xs[|xs| - 1] else x.Unknown?
  }

  predicate AllAgreed(v: Values, frames: seq<Values>, notes: nat) {
    Agreed(v.score, Scores(frames, notes)) && Agreed(v.missCount, MissCounts(frames)) && Agreed(v.clear, Clears(frames))
  }

  // The fields after these frames of the chart.
  predicate Tracks(score: Stable<nat>, missCount: Stable<nat>, clear: Stable<ClearType>, frames: seq<Values>,
                   notes: nat) {
    && score == Observed(Scores(frames, notes)) && missCount == Observed(MissCounts(frames))
    && clear == Observed(Clears(frames))
  }

  lemma TrackedIsAgreed(score: Stable<nat>, missCount: Stable<nat>, clear: Stable<ClearType>, frames: seq<Values>,
                        notes: nat)
    requires Tracks(score, missCount, clear, frames, notes)
    ensures AllAgreed(Values(Accepted(score), Accepted(missCount), Accepted(clear)), frames, notes)
  {
    AcceptedIsRepeated(Scores(frames, notes));
    AcceptedIsRepeated(MissCounts(frames));
    AcceptedIsRepeated(Clears(frames));
  }

  lemma OneMoreFrame(score: Stable<nat>, missCount: Stable<nat>, clear: Stable<ClearType>, frames: seq<Values>,
                     chart: Chart, v: Values)
    requires Tracks(score, missCount, clear, frames, chart.notes)
    ensures Tracks(Observe(score, PossibleScore(v.score, chart)), Observe(missCount, v.missCount),
                   Observe(clear, v.clear), frames + [v], chart.notes)
  {
    var more := frames + [v];
    assert Scores(more, chart.notes)[..|frames|] == Scores(frames, chart.notes);
    assert MissCounts(more)[..|frames|] == MissCounts(frames);
    assert Clears(more)[..|frames|] == Clears(frames);
  }

  ghost predicate HasItsId(s: Snapshot) {
    exists session :: s.id == ObservationId(session, s.episode, s.interval, s.revision)
  }

  // Publications ascend, none repeats an id, neighbours of one interval differ, and no score is impossible.
  ghost predicate Orderly(log: seq<Snapshot>) {
    && (forall i, j | 0 <= i < j < |log| :: Later(log[i], log[j]) && log[i].id != log[j].id)
    && (forall i | 0 < i < |log| && log[i - 1].interval == log[i].interval :: log[i - 1].values != log[i].values)
    && (forall s | s in log :: Possible(s.values.score, s.chart) && HasItsId(s))
  }

  lemma OneMorePublication(log: seq<Snapshot>, s: Snapshot, session: string)
    requires Orderly(log) && Possible(s.values.score, s.chart)
    requires s.id == ObservationId(session, s.episode, s.interval, s.revision)
    requires log != [] ==>
               Later(log[|log| - 1], s)
               && (log[|log| - 1].interval == s.interval ==> log[|log| - 1].values != s.values)
    ensures Orderly(log + [s])
    ensures forall x | x in log :: Later(x, s) && x.id != s.id
  {
    hide ObservationId;
    forall i | 0 <= i < |log| ensures Later(log[i], s) && log[i].id != s.id {
      assert i < |log| - 1 ==> Later(log[i], log[|log| - 1]);
      var x := log[i];
      assert HasItsId(x);
      var other :| x.id == ObservationId(other, x.episode, x.interval, x.revision);
      if x.id == s.id {
        SameIdSamePublication(other, x.episode, x.interval, x.revision, session, s.episode, s.interval, s.revision);
      }
    }
    assert HasItsId(s);
  }

  lemma NothingTracked(notes: nat)
    ensures Tracks(Fresh(), Fresh(), Fresh(), [], notes)
  {
  }

  // ---------------------------------------------------------------- the resolver

  class Resolver {
    var suspended: bool
    var episode: nat
    var interval: nat
    var chart: Option<Chart>
    var identity: Identity
    var score: Stable<nat>
    var missCount: Stable<nat>
    var clear: Stable<ClearType>
    var output: Output
    var revision: nat
    var snapshot: Option<Snapshot>
    var lastPublished: Option<Snapshot>
    // Everything published so far, oldest first.
    ghost var log: seq<Snapshot>
    // The values of the selected chart's frames since the fields started over, oldest first.
    ghost var frames: seq<Values>

    constructor ()
      ensures Valid() && log == [] && frames == []
    {
      suspended, episode, interval, chart, identity := false, 0, 0, None, AwaitingEvidence;
      score, missCount, clear := Fresh(), Fresh(), Fresh();
      output, revision, snapshot, lastPublished, log, frames := IdentityUnresolved, 0, None, None, [], [];
    }

    ghost predicate Valid()
      reads this
    {
      && snapshot == lastPublished
      && (chart.None? ==> lastPublished.None? && score == Fresh())
      && (chart.Some? ==> Possible(score.observed, chart.value))
      && (chart.None? ==> frames == [])
      && (chart.Some? ==> Tracks(score, missCount, clear, frames, chart.value.notes))
      && Orderly(log)
      && (log != [] ==> log[|log| - 1].interval <= interval)
      && (lastPublished.Some? ==>
            log != [] && lastPublished.value == log[|log| - 1]
            && lastPublished.value.interval == interval && lastPublished.value.revision == revision)
      && (lastPublished.None? && chart.Some? && log != [] ==> log[|log| - 1].interval < interval)
    }

    function CurrentValues(): Values
      reads this
    {
      Values(Accepted(score), Accepted(missCount), Accepted(clear))
    }

    /** `hold`: the fields start over, the last publication stays in place. */
    method Hold(reason: Identity)
      requires Valid()
      modifies this
      ensures Valid() && log == old(log) && chart == old(chart) && interval == old(interval)
      ensures revision == old(revision) && lastPublished == old(lastPublished) && episode == old(episode)
      ensures identity == reason && output == IdentityUnresolved && CurrentValues() == Values(Unknown, Unknown, Unknown)
      ensures suspended == old(suspended) && score == Fresh() && missCount == Fresh() && clear == Fresh()
      ensures frames == []
    {
      hide Orderly, Tracks, Observed;
      if chart.Some? {
        NothingTracked(chart.value.notes);
      }
      frames := [];
      score, missCount, clear := Fresh(), Fresh(), Fresh();
      identity := reason;
      output := IdentityUnresolved;
      snapshot := lastPublished;
    }

    /** `end_interval`: nothing is selected and nothing is on display. */
    method EndInterval(reason: Identity)
      requires Valid()
      modifies this
      ensures Valid() && log == old(log) && chart.None? && snapshot.None? && revision == 0
      ensures interval == old(interval) && identity == reason && episode == old(episode)
      ensures suspended == old(suspended) && output == IdentityUnresolved
      ensures score == Fresh() && missCount == Fresh() && clear == Fresh()
      ensures CurrentValues() == Values(Unknown, Unknown, Unknown) && frames == []
    {
      hide Orderly;
      Hold(reason);
      chart := None;
      snapshot := None;
      lastPublished := None;
      revision := 0;
    }

    /** `observe`: another chart starts a new interval; an impossible score counts as not observed. */
    method ObserveChart(selected: Chart, values: Values)
      requires Valid() && interval < U64_MAX
      modifies this
      ensures Valid() && log == old(log) && chart == Some(selected) && identity == Resolved
      ensures interval == old(interval) + (if old(chart) == Some(selected) then 0 else 1)
      ensures old(chart) == Some(selected) ==> revision == old(revision) && lastPublished == old(lastPublished)
      ensures old(chart) != Some(selected) ==> revision == 0 && lastPublished.None?
      ensures episode == old(episode) && suspended == old(suspended)
      ensures output != IdentityUnresolved && (output.StabilizingValues? <==> !HasValue(CurrentValues()))
      ensures old(chart) != Some(selected) ==> !HasValue(CurrentValues())
      ensures old(chart) == Some(selected) ==>
                && score == Observe(old(score), PossibleScore(values.score, selected))
                && missCount == Observe(old(missCount), values.missCount) && clear == Observe(old(clear), values.clear)
      ensures frames == (if old(chart) == Some(selected) then old(frames) else []) + [values]
    {
      hide Orderly, Tracks;
      if chart != Some(selected) {
        EndInterval(Stabilizing);
        interval := interval + 1;
        chart := Some(selected);
        NothingTracked(selected.notes);
      }
      RecordValues(selected, values);
    }

    // The fields of the selected chart take the frame's values.
    method RecordValues(selected: Chart, values: Values)
      requires Valid() && chart == Some(selected)
      modifies this`identity, this`score, this`missCount, this`clear, this`output, this`snapshot, this`frames
      ensures Valid() && identity == Resolved && frames == old(frames) + [values]
      ensures score == Observe(old(score), PossibleScore(values.score, selected))
      ensures missCount == Observe(old(missCount), values.missCount) && clear == Observe(old(clear), values.clear)
      ensures output.Complete? <==>
                !CurrentValues().score.Unknown? && !CurrentValues().missCount.Unknown?
                && !CurrentValues().clear.Unknown?
      ensures output.StabilizingValues? <==> !HasValue(CurrentValues())
      ensures output != IdentityUnresolved
    {
      hide Orderly, Tracks;
      identity := Resolved;
      OneMoreFrame(score, missCount, clear, frames, selected, values);
      frames := frames + [values];
      score := Observe(score, PossibleScore(values.score, selected));
      missCount := Observe(missCount, values.missCount);
      clear := Observe(clear, values.clear);
      var accepted := CurrentValues();
      output := if !HasValue(accepted) then StabilizingValues
                else if accepted.score.Unknown? || accepted.missCount.Unknown? || accepted.clear.Unknown? then Partial
                else Complete;
      if !HasValue(accepted) {
        snapshot := lastPublished;
      }
    }

    /**
     * `observe_frame`: a confirmed chart is selected and its values are observed, a missing identity keeps the
     * selection and what was last published for it, and a conflicting one ends the selection.
     */
    method ObserveFrame(frame: FrameIdentity, values: Values)
      requires Valid() && interval < U64_MAX
      modifies this
      ensures Valid() && log == old(log) && episode == old(episode) && suspended == old(suspended)
      ensures snapshot == lastPublished
      ensures frame.Confirmed? ==>
                && chart == Some(frame.chart) && identity == Resolved && output != IdentityUnresolved
                && (old(chart) == chart ==>
                      && snapshot == old(lastPublished) && revision == old(revision) && interval == old(interval)
                      && frames == old(frames) + [values])
                && (old(chart) != chart ==>
                      snapshot.None? && revision == 0 && interval == old(interval) + 1 && frames == [values])
                && AllAgreed(CurrentValues(), frames, frame.chart.notes)
      ensures frame.Missing? ==>
                && chart == old(chart) && snapshot == old(lastPublished) && revision == old(revision)
                && interval == old(interval) && identity == frame.reason && output == IdentityUnresolved
                && CurrentValues() == Values(Unknown, Unknown, Unknown) && frames == []
      ensures frame.Conflicting? ==>
                && chart.None? && snapshot.None? && revision == 0
                && interval == old(interval) && identity == frame.reason && output == IdentityUnresolved
                && CurrentValues() == Values(Unknown, Unknown, Unknown) && frames == []
    {
      hide Orderly, Tracks, AllAgreed, Observe;
      match frame
      case Confirmed(c) =>
        ObserveChart(c, values);
        TrackedIsAgreed(score, missCount, clear, frames, c.notes);
      case Missing(reason) => Hold(reason);
      case Conflicting(reason) => EndInterval(reason);
    }

    /** The reducer names the episode before it observes a frame, and suspends the resolver. */
    method Place(newEpisode: nat, isSuspended: bool)
      requires Valid()
      modifies this
      ensures Valid() && log == old(log) && chart == old(chart) && interval == old(interval)
      ensures revision == old(revision) && lastPublished == old(lastPublished)
      ensures episode == newEpisode && suspended == isSuspended && frames == old(frames)
    {
      episode, suspended := newEpisode, isSuspended;
    }

    /**
     * `publish_candidate`: publishes exactly when the selected chart has accepted values that differ from the last ones
     * published for it.  What it publishes is later than everything before, under an id never used before, and each of
     * its values is what the last two frames of the chart agree on.
     */
    method PublishCandidate(session: string) returns (published: Option<Snapshot>)
      requires Valid() && revision < U64_MAX
      modifies this
      ensures Valid() && chart == old(chart) && interval == old(interval) && frames == old(frames)
      ensures published.Some? <==>
                && !old(suspended) && old(identity).Resolved? && old(chart).Some?
                && HasValue(old(CurrentValues()))
                && !(old(lastPublished).Some? && old(lastPublished).value.values == old(CurrentValues()))
      ensures published.None? ==> log == old(log) && lastPublished == old(lastPublished)
      ensures published.Some? ==>
                && log == old(log) + [published.value] && lastPublished == published
                && published.value == Snapshot(ObservationId(session, old(episode), old(interval), old(revision) + 1),
                                               old(episode), old(interval), old(revision) + 1, old(chart).value,
                                               old(CurrentValues()))
                && (forall s | s in old(log) :: Later(s, published.value) && s.id != published.value.id)
                && (published.value.values.score.Known? ==>
                      published.value.values.score.value <= 2 * published.value.chart.notes)
                && AllAgreed(published.value.values, frames, published.value.chart.notes)
                && published.value.id == session + ":" + Decimal(old(episode)) + ":" + Decimal(old(interval))
                                         + ":" + Decimal(old(revision) + 1)
    {
      hide Tracks, AllAgreed, Orderly;
      if suspended || !identity.Resolved? || chart.None? { return None; }
      var values := CurrentValues();
      if !HasValue(values) { return None; }
      if lastPublished.Some? && lastPublished.value.values == values {
        snapshot := lastPublished;
        return None;
      }
      revision := revision + 1;
      var s := Snapshot(ObservationId(session, episode, interval, revision), episode, interval, revision, chart.value,
                        values);
      OneMorePublication(log, s, session);
      TrackedIsAgreed(score, missCount, clear, frames, chart.value.notes);
      snapshot := Some(s);
      lastPublished := Some(s);
      log := log + [s];
      published := Some(s);
    }
  }
}
