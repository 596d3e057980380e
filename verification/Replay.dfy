// Validating a recording, and the replay walk that decodes its retained frames segment by segment.
module Replay {
  import opened Common

  const MAX_TICKS := 250000

  datatype Screen = Title | ResultScreen | MusicSelect | ModeSelect | DecideTransition | Play | Unknown

  datatype Elision = TitleScreen | PlayInterior | ModeSelectInterior | UnknownInterior | RecordingFailure

  // A tick keeps its frame unless it was elided for a reason.
  datatype Disposition = Kept | Elided(reason: Elision)

  datatype Tick = Tick(sequence: nat, source: nat, screen: Screen, disposition: Disposition)

  // `CanonicalTick::validate`: the reason for an elision fits the screen.
  predicate ReasonFits(t: Tick) {
    match t.disposition
    case Kept => true
    case Elided(reason) =>
      match reason
      case TitleScreen => t.screen.Title?
      case PlayInterior => t.screen.Play?
      case ModeSelectInterior => t.screen.ModeSelect?
      case UnknownInterior => t.screen.Unknown?
      case RecordingFailure => true
  }

  predicate Failed(t: Tick) {
    t.disposition == Elided(RecordingFailure)
  }

  datatype Segment = Segment(frames: nat, first: nat, last: nat)

  // ---------------------------------------------------------------- what an accepted recording is

  function Retained(ticks: seq<Tick>): seq<nat> {
    if ticks == [] then []
    else
      Retained(ticks[..|ticks| - 1])
      + (if ticks[|ticks| - 1].disposition.Kept? then [ticks[|ticks| - 1].sequence] else [])
  }

  predicate Chronological(ticks: seq<Tick>) {
    && (forall i | 0 <= i < |ticks| :: ReasonFits(ticks[i]) && !Failed(ticks[i]))
    && (forall i | 0 < i < |ticks| ::
          ticks[i - 1].sequence < ticks[i].sequence && ticks[i - 1].source <= ticks[i].source)
  }

  // The number of frames in the first `k` segments.
  function Start(segments: seq<Segment>, k: nat): nat
    requires k <= |segments|
  {
    if k == 0 then 0 else Start(segments, k - 1) + segments[k - 1].frames
  }

  // Segment `k` holds the retained frames from its first to its last sequence, and at least one.
  predicate Covered(segments: seq<Segment>, retained: seq<nat>, k: nat)
    requires k < |segments|
  {
    var from, to := Start(segments, k), Start(segments, k + 1);
    from < to <= |retained| && retained[from] == segments[k].first && retained[to - 1] == segments[k].last
  }

  predicate Accepted(ticks: seq<Tick>, segments: seq<Segment>) {
    && |ticks| <= MAX_TICKS && Chronological(ticks)
    && (forall k | 0 <= k < |segments| :: Covered(segments, Retained(ticks), k))
    && Start(segments, |segments|) == |Retained(ticks)|
  }

  // Whether tick `i` may follow the ticks before it.
  predicate Follows(ticks: seq<Tick>, i: nat)
    requires i < |ticks|
  {
    && ReasonFits(ticks[i]) && !Failed(ticks[i])
    && (i > 0 ==> ticks[i - 1].sequence < ticks[i].sequence && ticks[i - 1].source <= ticks[i].source)
  }

  lemma OneMoreTick(ticks: seq<Tick>, i: nat)
    requires i < |ticks|
    ensures Chronological(ticks[..i + 1]) <==> Chronological(ticks[..i]) && Follows(ticks, i)
    ensures Retained(ticks[..i + 1]) ==
            Retained(ticks[..i]) + (if ticks[i].disposition.Kept? then [ticks[i].sequence] else [])
  {
    var more := ticks[..i + 1];
    assert more[..i] == ticks[..i] && more[i] == ticks[i];
    assert i > 0 ==> more[i - 1] == ticks[i - 1];
  }

  lemma {:induction false} PrefixIsChronological(ticks: seq<Tick>, i: nat)
    requires i <= |ticks| && Chronological(ticks)
    ensures Chronological(ticks[..i])
  {
  }

  /** The loop over the tick lines. */
  method CollectRetained(ticks: seq<Tick>) returns (retained: Option<seq<nat>>)
    ensures retained.Some? <==> |ticks| <= MAX_TICKS && Chronological(ticks)
    ensures retained.Some? ==> retained.value == Retained(ticks)
  {
    var kept: seq<nat> := [];
    for i := 0 to |ticks|
      invariant i <= MAX_TICKS && Chronological(ticks[..i]) && kept == Retained(ticks[..i])
    {
      OneMoreTick(ticks, i);
      if i >= MAX_TICKS { return None; }
      if Chronological(ticks) { PrefixIsChronological(ticks, i + 1); }
      hide Chronological, Retained;
      if !ReasonFits(ticks[i]) { return None; }
      if Failed(ticks[i]) { return None; }
      if i > 0 && (ticks[i].sequence <= ticks[i - 1].sequence || ticks[i].source < ticks[i - 1].source) {
        return None;
      }
      kept := kept + (if ticks[i].disposition.Kept? then [ticks[i].sequence] else []);
    }
    assert ticks[..|ticks|] == ticks;
    retained := Some(kept);
  }

  /** The loop over the segments: a cursor walks over the retained frames. */
  method CoverSegments(segments: seq<Segment>, retained: seq<nat>) returns (ok: bool)
    ensures ok <==> (forall k | 0 <= k < |segments| :: Covered(segments, retained, k))
                    && Start(segments, |segments|) == |retained|
  {
    var cursor := 0;
    for k := 0 to |segments|
      invariant cursor == Start(segments, k) <= |retained|
      invariant forall j | 0 <= j < k :: Covered(segments, retained, j)
    {
      var end := cursor + segments[k].frames;
      assert end == Start(segments, k + 1);
      if end > |retained| || end == cursor || retained[cursor] != segments[k].first
         || retained[end - 1] != segments[k].last {
        assert !Covered(segments, retained, k);
        return false;
      }
      cursor := end;
    }
    ok := cursor == |retained|;
  }

  /** `read_recording` accepts exactly the accepted recordings. */
  method ReadRecording(ticks: seq<Tick>, segments: seq<Segment>, tickCount: nat) returns (ok: bool)
    ensures ok <==> Accepted(ticks, segments) && |ticks| == tickCount
  {
    var retained := CollectRetained(ticks);
    if retained.None? || |ticks| != tickCount { return false; }
    ok := CoverSegments(segments, retained.value);
  }

  // A frame is left out for its screen, in the pairs below, or because the recording failed, which is never accepted.
  predicate LeftOut(t: Tick) {
    && t.disposition.Elided?
    && (t.disposition.reason, t.screen) in {(TitleScreen, Title), (PlayInterior, Play),
                                            (ModeSelectInterior, ModeSelect), (UnknownInterior, Screen.Unknown)}
  }

  /** The ticks are accepted exactly when each is kept or left out for its screen, and any two are in order: sequences
      ascend and source times do not go back. */
  lemma {:induction false} TicksInOrder(ticks: seq<Tick>)
    ensures Chronological(ticks) <==>
              && (forall t | t in ticks :: t.disposition.Kept? || LeftOut(t))
              && (forall i, j | 0 <= i < j < |ticks| ::
                    ticks[i].sequence < ticks[j].sequence && ticks[i].source <= ticks[j].source)
  {
    forall i | 0 <= i < |ticks|
      ensures (ReasonFits(ticks[i]) && !Failed(ticks[i])) <==> ticks[i].disposition.Kept? || LeftOut(ticks[i])
      ensures ticks[i] in ticks
    {
    }
    hide ReasonFits, Failed, LeftOut;
    if Chronological(ticks) {
      forall i, j | 0 <= i < j < |ticks|
        ensures ticks[i].sequence < ticks[j].sequence && ticks[i].source <= ticks[j].source
      {
        InOrder(ticks, i, j);
      }
    }
  }

  lemma {:induction false} InOrder(ticks: seq<Tick>, i: nat, j: nat)
    requires Chronological(ticks) && i < j < |ticks|
    ensures ticks[i].sequence < ticks[j].sequence && ticks[i].source <= ticks[j].source
    decreases j
  {
    hide ReasonFits, Failed;
    if i < j - 1 {
      InOrder(ticks, i, j - 1);
    }
  }

  // Segment `k` holds the `i`-th retained frame, by its count of frames and by its range of sequences.
  ghost predicate Owns(segments: seq<Segment>, retained: seq<nat>, k: int, i: nat)
    requires i < |retained|
  {
    && 0 <= k < |segments| && Start(segments, k) <= i < Start(segments, k + 1)
    && segments[k].first <= retained[i] <= segments[k].last
  }

  ghost predicate HasOwner(segments: seq<Segment>, retained: seq<nat>, i: nat)
    requires i < |retained|
  {
    exists k :: Owns(segments, retained, k, i)
  }

  /** In an accepted recording the segments' ranges follow one another without overlap, and every retained sequence is
      in one of them. */
  lemma SegmentsPartition(ticks: seq<Tick>, segments: seq<Segment>)
    requires Accepted(ticks, segments)
    ensures forall k, l | 0 <= k < l < |segments| :: segments[k].last < segments[l].first
    ensures forall i | 0 <= i < |Retained(ticks)| :: HasOwner(segments, Retained(ticks), i)
  {
    var retained := Retained(ticks);
    hide Chronological, Retained;
    forall k, l | 0 <= k < l < |segments| ensures segments[k].last < segments[l].first {
      assert Covered(segments, retained, k) && Covered(segments, retained, l);
      StartsAscend(segments, retained, k + 1, l);
      RetainedStrictly(ticks, Start(segments, k + 1) - 1, Start(segments, l));
    }
    forall i | 0 <= i < |retained| ensures HasOwner(segments, retained, i) {
      var k := OwnerOf(segments, i, |segments|);
      OwnerContains(ticks, segments, k, i);
      assert Owns(segments, retained, k, i);
    }
  }

  lemma {:induction false} OwnerOf(segments: seq<Segment>, i: nat, n: nat) returns (k: nat)
    requires n <= |segments| && i < Start(segments, n)
    ensures k < n && Start(segments, k) <= i < Start(segments, k + 1)
  {
    if i < Start(segments, n - 1) {
      k := OwnerOf(segments, i, n - 1);
    } else {
      k := n - 1;
    }
  }

  lemma {:induction false} RetainedStrictly(ticks: seq<Tick>, i: nat, j: nat)
    requires Chronological(ticks) && i < j < |Retained(ticks)|
    ensures Retained(ticks)[i] < Retained(ticks)[j]
  {
    var n := |ticks| - 1;
    if j < |Retained(ticks[..n])| {
      RetainedStrictly(ticks[..n], i, j);
    } else {
      RetainedBelow(ticks[..n], i);
      SequencesAscend(ticks, n - 1, n);
    }
  }

  // ---------------------------------------------------------------- the replay walk

  datatype WalkError =
    | FieldScreenWithoutPixels | NoSegment | CountExhausted | CountIncomplete | DecoderEnded | ExtraFrames
    | UnusedSegment

  // A running decoder: its segment, the declared frames still to be read, and the frames its file still has.
  datatype Decoder = Decoder(segment: nat, remaining: nat, left: nat)

  /** `SegmentDecoder::finish`. */
  method Finish(d: Decoder) returns (error: Option<WalkError>)
    ensures error.None? <==> d.remaining == 0 && d.left == 0
    ensures error.Some? ==> error.value == if d.remaining != 0 then CountIncomplete else ExtraFrames
  {
    if d.remaining != 0 { return Some(CountIncomplete); }
    if d.left != 0 { return Some(ExtraFrames); }
    error := None;
  }

  // The files yield the frames the manifest declares.
  predicate Faithful(segments: seq<Segment>, files: seq<nat>, k: nat)
    requires k <= |segments| == |files|
  {
    forall j | 0 <= j < k :: files[j] == segments[j].frames
  }

  // Where the walk stands after `n` retained frames, with `begun` segments started.
  predicate Standing(segments: seq<Segment>, files: seq<nat>, n: nat, begun: nat, decoder: Option<Decoder>)
    requires |segments| == |files|
  {
    begun <= |segments|
    && match decoder
       case None => begun == 0 && n == 0
       case Some(d) =>
         && begun > 0 && d.segment == begun - 1
         && Faithful(segments, files, begun - 1)
         && Start(segments, begun - 1) < n <= Start(segments, begun)
         && d.remaining == Start(segments, begun) - n
         && d.left - d.remaining == files[begun - 1] - segments[begun - 1].frames
  }

  // The frames decoded so far came from the segments that hold them.
  predicate FromOwners(segments: seq<Segment>, decoded: seq<nat>) {
    forall i | 0 <= i < |decoded| ::
      decoded[i] < |segments| && Start(segments, decoded[i]) <= i < Start(segments, decoded[i] + 1)
  }

  lemma {:induction false} StartsAscend(segments: seq<Segment>, retained: seq<nat>, i: nat, j: nat)
    requires i <= j <= |segments|
    requires forall k | 0 <= k < |segments| :: Covered(segments, retained, k)
    ensures Start(segments, i) <= Start(segments, j)
    ensures i < j ==> Start(segments, i) < Start(segments, j)
    decreases j
  {
    if i < j {
      StartsAscend(segments, retained, i, j - 1);
      assert Covered(segments, retained, j - 1);
    }
  }

  /** One retained tick: when no frame of the open segment remains it is finished and the next one begun, then a frame
      is read.  Only a file with another number of frames than declared makes it fail. */
  method DecodeFrame(segments: seq<Segment>, files: seq<nat>, ghost retained: seq<nat>, begun: nat,
                     decoder: Option<Decoder>, ghost n: nat)
    returns (error: Option<WalkError>, nowBegun: nat, nowDecoder: Option<Decoder>, from: nat)
    requires |segments| == |files| && Standing(segments, files, n, begun, decoder)
    requires forall k | 0 <= k < |segments| :: Covered(segments, retained, k)
    requires Start(segments, |segments|) == |retained| && n < |retained|
    ensures error.None? ==>
              && Standing(segments, files, n + 1, nowBegun, nowDecoder)
              && from < |segments| && Start(segments, from) <= n < Start(segments, from + 1)
    ensures error.Some? ==> !Faithful(segments, files, |segments|)
    ensures error.Some? ==> error.value.ExtraFrames? || error.value.DecoderEnded?
  {
    nowBegun, nowDecoder, from := begun, decoder, 0;
    if decoder.None? || decoder.value.remaining == 0 {
      if decoder.Some? {
        error := Finish(decoder.value);
        if error.Some? { return; }
      }
      if begun == |segments| {
        error := Some(NoSegment);
        return;
      }
      StartsAscend(segments, retained, begun, |segments|);
      assert Covered(segments, retained, begun);
      nowDecoder := Some(Decoder(begun, segments[begun].frames, files[begun]));
      nowBegun := begun + 1;
    }
    var d := nowDecoder.value;
    if d.remaining == 0 {
      error := Some(CountExhausted);
      return;
    }
    if d.left == 0 {
      return Some(DecoderEnded), nowBegun, nowDecoder, d.segment;
    }
    nowDecoder := Some(d.(remaining := d.remaining - 1, left := d.left - 1));
    from := d.segment;
    error := None;
  }

  // The walk recognises fields on these screens, so it needs their pixels.
  predicate LacksPixels(t: Tick) {
    (t.screen.ResultScreen? || t.screen.MusicSelect?) && !t.disposition.Kept?
  }

  /** The ticks of one batch. */
  method WalkBatch(ticks: seq<Tick>, segments: seq<Segment>, files: seq<nat>, at: nat, end: nat,
                   begun: nat, decoder: Option<Decoder>, decoded: seq<nat>)
    returns (error: Option<WalkError>, nowBegun: nat, nowDecoder: Option<Decoder>, nowDecoded: seq<nat>)
    requires |segments| == |files| && Accepted(ticks, segments) && at <= end <= |ticks|
    requires |decoded| == |Retained(ticks[..at])|
    requires Standing(segments, files, |decoded|, begun, decoder) && FromOwners(segments, decoded)
    ensures error.None? ==>
              && |nowDecoded| == |Retained(ticks[..end])|
              && Standing(segments, files, |nowDecoded|, nowBegun, nowDecoder) && FromOwners(segments, nowDecoded)
    ensures error.Some? ==> !Faithful(segments, files, |segments|)
    ensures error.Some? ==> error.value.ExtraFrames? || error.value.DecoderEnded?
  {
    hide Standing, Covered, Faithful;
    nowBegun, nowDecoder, nowDecoded, error := begun, decoder, decoded, None;
    for i := at to end
      invariant |nowDecoded| == |Retained(ticks[..i])|
      invariant Standing(segments, files, |nowDecoded|, nowBegun, nowDecoder) && FromOwners(segments, nowDecoded)
    {
      if LacksPixels(ticks[i]) {
        error := Some(FieldScreenWithoutPixels);
        return;
      }
      assert ticks[..i + 1][..i] == ticks[..i];
      RetainedPrefix(ticks, i + 1);
      if ticks[i].disposition.Kept? {
        var failed, nextBegun, nextDecoder, from :=
          DecodeFrame(segments, files, Retained(ticks), nowBegun, nowDecoder, |nowDecoded|);
        if failed.Some? {
          error := failed;
          return;
        }
        nowBegun, nowDecoder := nextBegun, nextDecoder;
        nowDecoded := nowDecoded + [from];
      }
    }
    error := None;
  }

  /**
   * The walk over the ticks in batches of any size.  For an accepted recording it succeeds exactly when every file
   * yields the declared number of frames; then the i-th retained frame is decoded from the segment that holds it, and
   * every segment is used up.
   */
  method Walk(ticks: seq<Tick>, segments: seq<Segment>, files: seq<nat>, batch: nat)
    returns (result: Result<seq<nat>, WalkError>)
    requires batch > 0 && |segments| == |files| && Accepted(ticks, segments)
    ensures result.Ok? <==> Faithful(segments, files, |segments|)
    ensures result.Ok? ==> |result.value| == |Retained(ticks)| && FromOwners(segments, result.value)
    ensures result.Err? ==> result.error.ExtraFrames? || result.error.DecoderEnded?
  {
    var decoded: seq<nat> := [];
    var begun := 0;
    var decoder: Option<Decoder> := None;
    var at := 0;
    while at < |ticks|
      invariant at <= |ticks| && |decoded| == |Retained(ticks[..at])|
      invariant Standing(segments, files, |decoded|, begun, decoder) && FromOwners(segments, decoded)
      decreases |ticks| - at
    {
      hide Standing, Chronological, Covered, Faithful, FromOwners;
      var end := if at + batch < |ticks| then at + batch else |ticks|;
      var error, nextBegun, nextDecoder, nextDecoded :=
        WalkBatch(ticks, segments, files, at, end, begun, decoder, decoded);
      if error.Some? { return Err(error.value); }
      begun, decoder, decoded, at := nextBegun, nextDecoder, nextDecoded, end;
    }
    assert ticks[..|ticks|] == ticks;
    hide Standing, Chronological, Covered, Faithful, FromOwners;
    AllUsed(segments, files, Retained(ticks), begun, decoder);
    if decoder.Some? {
      var error := Finish(decoder.value);
      if error.Some? { return Err(error.value); }
    }
    if begun != |segments| { return Err(UnusedSegment); }
    result := Ok(decoded);
  }

  lemma {:induction false} RetainedPrefix(ticks: seq<Tick>, i: nat)
    requires i <= |ticks|
    ensures |Retained(ticks[..i])| <= |Retained(ticks)|
    decreases |ticks| - i
  {
    if i < |ticks| {
      assert ticks[..i + 1][..i] == ticks[..i];
      RetainedPrefix(ticks, i + 1);
    } else {
      assert ticks[..i] == ticks;
    }
  }

  // After the last retained frame every segment has been opened and none has a frame left to read.
  lemma AllUsed(segments: seq<Segment>, files: seq<nat>, retained: seq<nat>, begun: nat, decoder: Option<Decoder>)
    requires |segments| == |files| && Standing(segments, files, |retained|, begun, decoder)
    requires forall k | 0 <= k < |segments| :: Covered(segments, retained, k)
    requires Start(segments, |segments|) == |retained|
    ensures begun == |segments|
    ensures decoder.Some? ==> decoder.value.remaining == 0
    ensures (decoder.Some? ==> decoder.value.left == 0) <==> Faithful(segments, files, |segments|)
  {
    StartsAscend(segments, retained, begun, |segments|);
  }

  /** A frame's segment is the one whose sequence range contains the frame's tick. */
  lemma OwnerContains(ticks: seq<Tick>, segments: seq<Segment>, k: nat, i: nat)
    requires Accepted(ticks, segments) && k < |segments| && Start(segments, k) <= i < Start(segments, k + 1)
    ensures i < |Retained(ticks)| && segments[k].first <= Retained(ticks)[i] <= segments[k].last
  {
    assert Covered(segments, Retained(ticks), k);
    var from, to := Start(segments, k), Start(segments, k + 1);
    RetainedAscends(ticks, from, i);
    RetainedAscends(ticks, i, to - 1);
  }

  lemma {:induction false} RetainedAscends(ticks: seq<Tick>, i: nat, j: nat)
    requires Chronological(ticks) && i <= j < |Retained(ticks)|
    ensures Retained(ticks)[i] <= Retained(ticks)[j]
  {
    var n := |ticks| - 1;
    if j < |Retained(ticks[..n])| {
      RetainedAscends(ticks[..n], i, j);
    } else if i < j {
      RetainedBelow(ticks[..n], i);
      SequencesAscend(ticks, n - 1, n);
    }
  }

  // Every retained sequence is that of some tick, and none is past the last tick's.
  lemma {:induction false} RetainedBelow(ticks: seq<Tick>, i: nat)
    requires Chronological(ticks) && i < |Retained(ticks)|
    ensures |ticks| > 0 && Retained(ticks)[i] <= ticks[|ticks| - 1].sequence
  {
    var n := |ticks| - 1;
    if i < |Retained(ticks[..n])| {
      RetainedBelow(ticks[..n], i);
      assert ticks[n - 1].sequence < ticks[n].sequence;
    }
  }

  lemma SequencesAscend(ticks: seq<Tick>, i: nat, j: nat)
    requires Chronological(ticks) && i + 1 == j < |ticks|
    ensures ticks[i].sequence < ticks[j].sequence
  {
  }
}
