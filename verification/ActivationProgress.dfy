// Which updates complete: a process that has just taken the lock can bring its update to the end exactly when the
// request can be served from what the store holds at that moment.
module ActivationProgress {
  import opened Common
  import opened Activation
  import opened ActivationSafety
  import opened ActivationDurability
  import opened ActivationHistory

  // ---------------------------------------------------------------- requests that can be served

  // An install brings bytes within the limit that have the digest, and the digest's generation is there already or
  // there is room for one more; a refresh names the digest that is active.
  ghost predicate Servable(d: Disk, request: Request, sha: Sha) {
    match request
    case Install(bytes, digest) =>
      && |bytes| <= 134217728 && sha(bytes) == digest
      && if Generation(digest) in d.content.now then
           ContentOf(d, Generation(digest)).Some? && sha(ContentOf(d, Generation(digest)).value) == digest
         else
           |Generations(d.content.now)| < 32 && TotalBytes(d, Generations(d.content.now)) + |bytes| <= 536870912
    case Refresh(digest) => ReadManifest(d) == Some(digest)
  }

  // The same generations with the same files, and the same active manifest.
  ghost predicate Alike(d: Disk, e: Disk) {
    && Generations(e.content.now) == Generations(d.content.now)
    && TotalBytes(e, Generations(e.content.now)) == TotalBytes(d, Generations(d.content.now))
    && (forall g: Digest :: Generation(g) in e.content.now <==> Generation(g) in d.content.now)
    && (forall g: Digest :: ContentOf(e, Generation(g)) == ContentOf(d, Generation(g)))
    && ReadManifest(e) == ReadManifest(d)
  }

  lemma AlikeServes(d: Disk, e: Disk, request: Request, sha: Sha)
    requires Alike(d, e)
    ensures Servable(e, request, sha) <==> Servable(d, request, sha)
  {
    hide Generations, TotalBytes, ContentOf, ReadManifest;
  }

  lemma AlikeOnwards(d: Disk, e: Disk, f: Disk)
    requires Alike(d, e) && Alike(e, f)
    ensures Alike(d, f)
  {
    hide Generations, TotalBytes, ContentOf, ReadManifest;
  }

  lemma ShrinkingIsAlike(d: Disk, e: Disk, sha: Sha)
    requires Honest(d.content) && GenerationsOk(d, sha) && Bounded(d) && Shrinks(d, e)
    requires ReadManifest(e) == ReadManifest(d)
    ensures Alike(d, e)
  {
    ShrinkingKeeps(d, e, sha);
    hide Generations, TotalBytes, Bounded, Possible, ReadManifest;
    forall g: Digest
      ensures Generation(g) in e.content.now <==> Generation(g) in d.content.now
      ensures ContentOf(e, Generation(g)) == ContentOf(d, Generation(g))
    {
      assert Lookup(e.content.now, Generation(g)) == Lookup(d.content.now, Generation(g));
      assert Lookup(d.content.now, Generation(g)) in Possible(d.content, Generation(g));
    }
  }

  // ---------------------------------------------------------------- the active manifest while an update prepares

  // No step before the swap changes what the active manifest says.
  lemma PreparationKeepsManifest(s: State, h: Holder, which: nat, t: State, sha: Sha)
    requires FilesOk(s) && Honest(s.disk.manifests) && s.holder == Some(h)
    requires HolderStep(s, h, sha, which) == Some(t) && !h.pc.Persist?
    ensures ReadManifest(t.disk) == ReadManifest(s.disk)
  {
    assert Lookup(s.disk.manifests.now, Active) in Possible(s.disk.manifests, Active);
    hide Possible, HasRoom, StagingLeft, ManifestStagingLeft;
  }

  // ---------------------------------------------------------------- only a request that can be served gets through

  // The checks of the request are behind the holder.
  predicate Decided(pc: Pc) {
    || pc.Rename? || pc.SyncContent? || pc.WriteManifest? || pc.SyncManifest? || pc.CheckBase? || pc.Persist?
    || pc.SyncManifests? || pc.Release?
  }

  // Since the lock was taken with disk `d`, the checks have found that the request can be served, or the store is still
  // as it was.
  ghost predicate Along(d: Disk, request: Request, s: State, sha: Sha) {
    s.holder.Some? ==>
      && s.holder.value.request == request
      && if Decided(s.holder.value.pc) then Servable(d, request, sha) else Alike(d, s.disk)
  }

  predicate Recovering(pc: Pc) {
    pc.RecoverContent? || pc.SyncRecoveredContent? || pc.RecoverManifests? || pc.SyncRecoveredManifests?
  }

  lemma RecoverIsAlike(s: State, h: Holder, which: nat, t: State, sha: Sha)
    requires Sound(s, sha) && FilesOk(s) && s.holder == Some(h) && RecoverStep(s, h, which) == Some(t)
    requires Recovering(h.pc)
    ensures Alike(s.disk, t.disk) && t.holder.Some? && t.holder.value.request == h.request
    ensures !Decided(t.holder.value.pc)
  {
    PreparationKeepsManifest(s, h, which, t, sha);
    RecoverShrinks(s, h, which, t);
    hide Shrinks, GenerationsOk, Bounded, HolderOk, Honest, FilesOk, ReadManifest, StagingLeft, ManifestStagingLeft;
    ShrinkingIsAlike(s.disk, t.disk, sha);
    hide Alike, Unlink, Synced;
  }

  lemma StageIsAlike(s: State, h: Holder, t: State, sha: Sha)
    requires Sound(s, sha) && FilesOk(s) && s.holder == Some(h) && h.request.Install? && StageStep(s, h, sha) == Some(t)
    ensures Alike(s.disk, t.disk) && t.holder.Some? && t.holder.value.request == h.request
    ensures !Decided(t.holder.value.pc)
  {
    PreparationKeepsManifest(s, h, 0, t, sha);
    StageShrinks(s, h, t, sha);
    hide Shrinks, GenerationsOk, Bounded, HolderOk, Honest, FilesOk, ReadManifest;
    ShrinkingIsAlike(s.disk, t.disk, sha);
    hide Alike, Link;
  }

  lemma PlaceDecides(d: Disk, s: State, h: Holder, t: State, sha: Sha)
    requires Sound(s, sha) && s.holder == Some(h) && PlaceStep(s, h, sha) == Some(t)
    requires h.pc.CheckDestination? || h.pc.CheckCapacity?
    requires Alike(d, s.disk)
    ensures Along(d, h.request, t, sha)
  {
    hide GenerationsOk, Bounded, Honest, Generations, TotalBytes, ContentOf, ReadManifest, StagingLeft;
  }

  lemma AlongStep(d: Disk, request: Request, s: State, h: Holder, which: nat, t: State, sha: Sha)
    requires Sound(s, sha) && FilesOk(s) && s.holder == Some(h) && Along(d, request, s, sha)
    requires HolderStep(s, h, sha, which) == Some(t)
    ensures Along(d, request, t, sha)
  {
    hide Alike, Servable, Sound, FilesOk, RecoverStep, StageStep, PlaceStep, ActivateStep, ReadManifest;
    match h.pc
    case RecoverContent | SyncRecoveredContent | RecoverManifests | SyncRecoveredManifests =>
      RecoverIsAlike(s, h, which, t, sha);
      AlikeOnwards(d, s.disk, t.disk);
    case Stage | WriteFile | SyncFile | SyncStaging | CheckDigest =>
      StageIsAlike(s, h, t, sha);
      AlikeOnwards(d, s.disk, t.disk);
    case CheckDestination | CheckCapacity => PlaceDecides(d, s, h, t, sha);
    case ReadBase => BaseDecides(d, s, h, which, t, sha);
    case Rename | SyncContent => LaterKeepsRequest(s, h, which, t, sha);
    case WriteManifest | SyncManifest | CheckBase | Persist | SyncManifests | Release =>
      LaterKeepsRequest(s, h, which, t, sha);
  }

  lemma BaseDecides(d: Disk, s: State, h: Holder, which: nat, t: State, sha: Sha)
    requires s.holder == Some(h) && h.pc.ReadBase? && HolderStep(s, h, sha, which) == Some(t)
    requires Alike(d, s.disk)
    ensures Along(d, h.request, t, sha)
  {
    hide Generations, TotalBytes, ContentOf, ReadManifest;
  }

  lemma LaterKeepsRequest(s: State, h: Holder, which: nat, t: State, sha: Sha)
    requires s.holder == Some(h) && Decided(h.pc) && HolderStep(s, h, sha, which) == Some(t)
    ensures t.holder.Some? ==> t.holder.value.request == h.request && Decided(t.holder.value.pc)
  {
    hide HasRoom, ReadManifest, ContentOf, Link, Unlink, Synced;
  }

  predicate AllWork(works: seq<Action>) {
    forall a | a in works :: a.Work?
  }

  lemma {:induction false} WorkStaysAlong(actions: seq<Action>, works: seq<Action>, sha: Sha)
    requires Run(actions, sha).Some? && Run(actions, sha).value.holder.Some?
    requires Run(actions, sha).value.holder.value.pc.RecoverContent?
    requires AllWork(works) && Run(actions + works, sha).Some?
    ensures
      var s := Run(actions, sha).value;
      Along(s.disk, s.holder.value.request, Run(actions + works, sha).value, sha)
  {
    var s := Run(actions, sha).value;
    if works == [] {
      assert actions + works == actions;
      hide Run;
    } else {
      var n := |works| - 1;
      var front := works[..n];
      assert AllWork(front) by { assert forall a | a in front :: a in works; }
      assert works[n] in works;
      assert (actions + works)[..|actions| + n] == actions + front;
      hide Along, HolderStep;
      WorkStaysAlong(actions, front, sha);
      RunIsSound(actions + front, sha);
      RunKeepsFiles(actions + front, sha);
      var before := Run(actions + front, sha).value;
      hide Sound, FilesOk, AllWork;
      assert before.holder.Some?;
      AlongStep(s.disk, s.holder.value.request, before, before.holder.value, works[n].which,
                Run(actions + works, sha).value, sha);
    }
  }

  // ---------------------------------------------------------------- a request that can be served gets through

  predicate BaseKnown(pc: Pc) {
    Staged(pc) || pc.Stage? || pc.SyncContent? || pc.WriteManifest? || pc.SyncManifest? || pc.CheckBase?
  }

  // Recovery leaves no staging entry behind but the holder's own, and the base is what the manifest still says.
  ghost predicate Clean(s: State) {
    s.holder.Some? ==>
      var h, now := s.holder.value, s.disk.content.now;
      && (!h.pc.RecoverContent? && (Recovering(h.pc) || h.pc.ReadBase? || h.pc.Stage?) ==> !StagingLeft(now, None))
      && (Staged(h.pc) ==> !StagingLeft(now, Some(Staging(h.bundle))))
      && (BaseKnown(h.pc) ==> h.base == ReadManifest(s.disk))
      && (h.pc.Stage? ==> h.request.Install?)
  }

  lemma RecoverStaysClean(s: State, h: Holder, which: nat, t: State)
    requires Clean(s) && s.holder == Some(h) && Recovering(h.pc) && RecoverStep(s, h, which) == Some(t)
    ensures Clean(t)
  {
    hide ManifestStagingLeft, ReadManifest, Possible;
  }

  lemma StageStaysClean(s: State, h: Holder, t: State, sha: Sha)
    requires Clean(s) && s.holder == Some(h) && h.request.Install? && StageStep(s, h, sha) == Some(t)
    requires ReadManifest(t.disk) == ReadManifest(s.disk)
    ensures Clean(t)
  {
    hide ReadManifest, Possible;
  }

  lemma CleanStep(s: State, h: Holder, which: nat, t: State, sha: Sha)
    requires FilesOk(s) && Honest(s.disk.manifests) && Clean(s) && s.holder == Some(h)
    requires HolderStep(s, h, sha, which) == Some(t)
    ensures Clean(t)
  {
    hide FilesOk, Honest, RecoverStep, StageStep, PlaceStep, ActivateStep, Clean;
    if !h.pc.Persist? {
      PreparationKeepsManifest(s, h, which, t, sha);
    }
    match h.pc
    case RecoverContent | SyncRecoveredContent | RecoverManifests | SyncRecoveredManifests =>
      RecoverStaysClean(s, h, which, t);
    case Stage | WriteFile | SyncFile | SyncStaging | CheckDigest => StageStaysClean(s, h, t, sha);
    case ReadBase => BaseStaysClean(s, h, which, t, sha);
    case CheckDestination | CheckCapacity | Rename | SyncContent => PlaceStaysClean(s, h, t, sha);
    case WriteManifest | SyncManifest | CheckBase | Persist | SyncManifests | Release =>
      ActivateStaysClean(s, h, which, t, sha);
  }

  lemma BaseStaysClean(s: State, h: Holder, which: nat, t: State, sha: Sha)
    requires Clean(s) && s.holder == Some(h) && h.pc.ReadBase? && HolderStep(s, h, sha, which) == Some(t)
    ensures Clean(t)
  {
    hide ReadManifest, StagingLeft;
  }

  lemma PlaceStaysClean(s: State, h: Holder, t: State, sha: Sha)
    requires Clean(s) && s.holder == Some(h) && PlaceStep(s, h, sha) == Some(t)
    requires ReadManifest(t.disk) == ReadManifest(s.disk)
    ensures Clean(t)
  {
    hide ReadManifest, StagingLeft, HasRoom, ContentOf, Link, Unlink, Synced;
  }

  lemma ActivateStaysClean(s: State, h: Holder, which: nat, t: State, sha: Sha)
    requires Clean(s) && s.holder == Some(h) && HolderStep(s, h, sha, which) == Some(t)
    requires Decided(h.pc) && !h.pc.Rename? && !h.pc.SyncContent?
    requires h.pc.Persist? || ReadManifest(t.disk) == ReadManifest(s.disk)
    ensures Clean(t)
  {
    hide ReadManifest, StagingLeft, Link, Unlink, Synced, RecoverStep, StageStep, PlaceStep;
  }

  function Rank(pc: Pc): nat {
    match pc
    case RecoverContent => 19 case SyncRecoveredContent => 18 case RecoverManifests => 17
    case SyncRecoveredManifests => 16 case ReadBase => 15 case Stage => 14 case WriteFile => 13 case SyncFile => 12
    case SyncStaging => 11 case CheckDigest => 10 case CheckDestination => 9 case CheckCapacity => 8 case Rename => 7
    case SyncContent => 6 case WriteManifest => 5 case SyncManifest => 4 case CheckBase => 3 case Persist => 2
    case SyncManifests => 1 case Release => 0
  }

  // How many entries the recovery may still have to remove.
  function LeftToRemove(s: State): nat {
    if s.holder.None? then 0
    else if s.holder.value.pc.RecoverContent? then |s.disk.content.now|
    else if s.holder.value.pc.RecoverManifests? then |s.disk.manifests.now|
    else 0
  }

  // The entry the next step of the recovery removes, if there is one.
  ghost function NextEntry(s: State): nat
    requires s.holder.Some?
  {
    if s.holder.value.pc.RecoverContent? && exists n: nat :: Staging(n) in s.disk.content.now then
      var n: nat :| Staging(n) in s.disk.content.now; n
    else if s.holder.value.pc.RecoverManifests? && exists n: nat :: ManifestStaging(n) in s.disk.manifests.now then
      var n: nat :| ManifestStaging(n) in s.disk.manifests.now; n
    else 0
  }

  // The step is enabled and brings the holder closer to the end.
  ghost predicate Advances(s: State, h: Holder, which: nat, sha: Sha) {
    && HolderStep(s, h, sha, which).Some?
    && var t := HolderStep(s, h, sha, which).value;
       && t.holder.Some?
       && (Rank(t.holder.value.pc) < Rank(h.pc)
           || (t.holder.value.pc == h.pc && LeftToRemove(t) < LeftToRemove(s)))
  }

  lemma ContentRecoveryAdvances(s: State, h: Holder, sha: Sha)
    requires s.holder == Some(h) && h.pc.RecoverContent?
    ensures Advances(s, h, NextEntry(s), sha)
  {
    hide Possible;
    var which := NextEntry(s);
    if Staging(which) in s.disk.content.now {
      Removed(s.disk.content.now, Staging(which));
    } else {
      assert !StagingLeft(s.disk.content.now, None);
    }
  }

  lemma ManifestRecoveryAdvances(s: State, h: Holder, sha: Sha)
    requires s.holder == Some(h) && h.pc.RecoverManifests?
    ensures Advances(s, h, NextEntry(s), sha)
  {
    hide Possible;
    var which := NextEntry(s);
    if ManifestStaging(which) in s.disk.manifests.now {
      Removed(s.disk.manifests.now, ManifestStaging(which));
    } else {
      assert !ManifestStagingLeft(s.disk.manifests.now);
    }
  }

  lemma RecoveryAdvances(s: State, h: Holder, sha: Sha)
    requires s.holder == Some(h) && Recovering(h.pc)
    ensures Advances(s, h, NextEntry(s), sha)
  {
    if h.pc.RecoverContent? {
      ContentRecoveryAdvances(s, h, sha);
    } else if h.pc.RecoverManifests? {
      ManifestRecoveryAdvances(s, h, sha);
    }
    hide StagingLeft, ManifestStagingLeft, Unlink, NextEntry, LeftToRemove, Synced;
  }

  lemma Removed<N>(entries: map<N, nat>, name: N)
    requires name in entries
    ensures |entries - {name}| < |entries|
  {
    assert (entries - {name}).Keys == entries.Keys - {name};
    assert |entries - {name}| == |(entries - {name}).Keys| && |entries| == |entries.Keys|;
  }

  lemma RoomIsLeft(d: Disk, s: State, h: Holder, sha: Sha)
    requires Sound(s, sha) && Clean(s) && s.holder == Some(h) && h.pc.CheckCapacity?
    requires Alike(d, s.disk) && Servable(d, h.request, sha)
    ensures h.request.Install? && HasRoom(s.disk, Staging(h.bundle), |h.request.bytes|)
  {
    assert h.request.Install? && Generation(h.request.digest) !in s.disk.content.now;
    forall n | n in Generations(s.disk.content.now)
      ensures ContentOf(s.disk, n).Some? && SizeOf(s.disk, n) <= MAX_SNAPSHOT_BYTES
    {
      assert n == Generation(n.digest);
      assert Lookup(s.disk.content.now, n) in Possible(s.disk.content, n);
    }
    hide Generations, TotalBytes, Possible, StagingLeft, GenerationsOk, Bounded, Honest, SizeOf, ContentOf;
    hide ReadManifest;
  }

  lemma StageAdvances(s: State, h: Holder, which: nat, sha: Sha)
    requires s.holder == Some(h) && h.request.Install?
    requires |h.request.bytes| <= MAX_SNAPSHOT_BYTES && sha(h.request.bytes) == h.request.digest
    requires h.pc.Stage? || h.pc.WriteFile? || h.pc.SyncFile? || h.pc.SyncStaging? || h.pc.CheckDigest?
    ensures Advances(s, h, which, sha)
  {
    hide Link;
  }

  lemma LaterAdvances(s: State, h: Holder, which: nat, sha: Sha)
    requires s.holder == Some(h) && Decided(h.pc) && !h.pc.Release?
    requires h.pc.CheckBase? ==> h.base == ReadManifest(s.disk)
    ensures Advances(s, h, which, sha)
  {
    hide Link, Unlink, Synced, ReadManifest, HasRoom;
  }

  lemma ChecksAdvance(d: Disk, s: State, h: Holder, which: nat, sha: Sha)
    requires s.holder == Some(h) && (h.pc.ReadBase? || h.pc.CheckDestination?)
    requires h.pc.CheckDestination? ==> h.request.Install?
    requires Alike(d, s.disk) && Servable(d, h.request, sha)
    ensures Advances(s, h, which, sha)
  {
    hide Generations, TotalBytes, ContentOf, ReadManifest;
  }

  lemma ServedAdvances(d: Disk, s: State, h: Holder, sha: Sha)
    requires Sound(s, sha) && Clean(s) && s.holder == Some(h) && !h.pc.Release?
    requires Along(d, h.request, s, sha) && Servable(d, h.request, sha)
    ensures Advances(s, h, NextEntry(s), sha)
  {
    hide GenerationsOk, Bounded, Honest, StagingLeft, Advances, NextEntry, Alike, Holds, Private, ReadManifest;
    hide ContentOf;
    if Recovering(h.pc) {
      RecoveryAdvances(s, h, sha);
    } else if h.pc.CheckCapacity? {
      RoomIsLeft(d, s, h, sha);
      CapacityAdvances(s, h, NextEntry(s), sha);
    } else if Decided(h.pc) {
      LaterAdvances(s, h, NextEntry(s), sha);
    } else if h.pc.ReadBase? || h.pc.CheckDestination? {
      ChecksAdvance(d, s, h, NextEntry(s), sha);
    } else {
      StageAdvances(s, h, NextEntry(s), sha);
    }
  }

  lemma CapacityAdvances(s: State, h: Holder, which: nat, sha: Sha)
    requires s.holder == Some(h) && h.pc.CheckCapacity? && h.request.Install?
    requires HasRoom(s.disk, Staging(h.bundle), |h.request.bytes|)
    ensures Advances(s, h, which, sha)
  {
    hide HasRoom;
  }

  // ---------------------------------------------------------------- main result

  lemma {:induction false} WorkStaysClean(actions: seq<Action>, works: seq<Action>, sha: Sha)
    requires Run(actions, sha).Some? && Run(actions, sha).value.holder.Some?
    requires Run(actions, sha).value.holder.value.pc.RecoverContent?
    requires AllWork(works) && Run(actions + works, sha).Some?
    ensures Clean(Run(actions + works, sha).value)
  {
    if works == [] {
      assert actions + works == actions;
      hide Run;
    } else {
      var n := |works| - 1;
      var front := works[..n];
      assert AllWork(front) by { assert forall a | a in front :: a in works; }
      assert works[n] in works;
      assert (actions + works)[..|actions| + n] == actions + front;
      hide Clean, HolderStep;
      WorkStaysClean(actions, front, sha);
      RunIsSound(actions + front, sha);
      RunKeepsFiles(actions + front, sha);
      var before := Run(actions + front, sha).value;
      assert Honest(before.disk.manifests);
      hide Sound, FilesOk, Honest, AllWork;
      assert before.holder.Some?;
      CleanStep(before, before.holder.value, works[n].which, Run(actions + works, sha).value, sha);
    }
  }

  // The holder is on its way with a request that could be served when it took the lock.
  ghost predicate OnTheWay(actions: seq<Action>, works: seq<Action>, sha: Sha) {
    && Run(actions, sha).Some? && Run(actions, sha).value.holder.Some?
    && Run(actions, sha).value.holder.value.pc.RecoverContent?
    && Servable(Run(actions, sha).value.disk, Run(actions, sha).value.holder.value.request, sha)
    && AllWork(works) && Run(actions + works, sha).Some? && Run(actions + works, sha).value.holder.Some?
  }

  ghost function PcAfter(actions: seq<Action>, works: seq<Action>, sha: Sha): Pc
    requires OnTheWay(actions, works, sha)
  {
    Run(actions + works, sha).value.holder.value.pc
  }

  ghost function LeftAfter(actions: seq<Action>, works: seq<Action>, sha: Sha): nat
    requires OnTheWay(actions, works, sha)
  {
    LeftToRemove(Run(actions + works, sha).value)
  }

  // The next step of the holder is enabled and leads on.
  lemma NextWork(actions: seq<Action>, works: seq<Action>, sha: Sha)
    requires OnTheWay(actions, works, sha) && !PcAfter(actions, works, sha).Release?
    ensures
      var s := Run(actions + works, sha).value;
      Advances(s, s.holder.value, NextEntry(s), sha)
  {
    var d, s := Run(actions, sha).value.disk, Run(actions + works, sha).value;
    hide Servable, Clean, Along, Advances, NextEntry, HolderStep, Rank, LeftToRemove, Run, AllWork;
    WorkStaysAlong(actions, works, sha);
    WorkStaysClean(actions, works, sha);
    RunIsSound(actions + works, sha);
    hide Sound;
    RequestStays(actions, works, sha);
    ServedAdvances(d, s, s.holder.value, sha);
  }

  lemma WorkAppended(actions: seq<Action>, works: seq<Action>, which: nat, sha: Sha)
    requires OnTheWay(actions, works, sha)
    ensures
      var s := Run(actions + works, sha).value;
      Run(actions + (works + [Work(which)]), sha) == HolderStep(s, s.holder.value, sha, which)
    ensures AllWork(works + [Work(which)])
  {
    hide HolderStep, Servable;
    var a := Work(which);
    assert (actions + (works + [a]))[..|actions + works|] == actions + works;
    assert forall b | b in works + [a] :: b in works || b == a;
  }

  // From any point on the way there is a way to the end.
  lemma {:induction false} WayToTheEnd(actions: seq<Action>, works: seq<Action>, sha: Sha) returns (all: seq<Action>)
    requires OnTheWay(actions, works, sha)
    ensures OnTheWay(actions, all, sha) && PcAfter(actions, all, sha).Release?
    decreases Rank(PcAfter(actions, works, sha)), LeftAfter(actions, works, sha)
  {
    if PcAfter(actions, works, sha).Release? {
      all := works;
    } else {
      var s := Run(actions + works, sha).value;
      NextWork(actions, works, sha);
      WorkAppended(actions, works, NextEntry(s), sha);
      hide Run, Servable, Advances, NextEntry, HolderStep, Rank, LeftToRemove, AllWork;
      AdvanceIsSmaller(s, s.holder.value, NextEntry(s), sha);
      all := WayToTheEnd(actions, works + [Work(NextEntry(s))], sha);
    }
  }

  lemma AdvanceIsSmaller(s: State, h: Holder, which: nat, sha: Sha)
    requires Advances(s, h, which, sha)
    ensures HolderStep(s, h, sha, which).Some?
    ensures
      var t := HolderStep(s, h, sha, which).value;
      && t.holder.Some?
      && (Rank(t.holder.value.pc) < Rank(h.pc)
          || (Rank(t.holder.value.pc) == Rank(h.pc) && LeftToRemove(t) < LeftToRemove(s)))
  {
    hide HolderStep, Rank, LeftToRemove;
  }

  lemma RequestStays(actions: seq<Action>, works: seq<Action>, sha: Sha)
    requires Run(actions, sha).Some? && Run(actions, sha).value.holder.Some?
    requires Run(actions, sha).value.holder.value.pc.RecoverContent?
    requires AllWork(works) && Run(actions + works, sha).Some? && Run(actions + works, sha).value.holder.Some?
    ensures Run(actions + works, sha).value.holder.value.request == Run(actions, sha).value.holder.value.request
  {
    WorkStaysAlong(actions, works, sha);
    hide Run, Servable, Alike;
  }

  /** A process that has just taken the lock can complete its update, leaving the manifest with the request's digest,
      exactly when the request can be served from the store as it is; so it is refused in every other case. */
  lemma UpdateCompletesExactly(actions: seq<Action>, sha: Sha)
    requires Run(actions, sha).Some? && Run(actions, sha).value.holder.Some?
    requires Run(actions, sha).value.holder.value.pc.RecoverContent?
    ensures
      var s := Run(actions, sha).value;
      (exists works :: AllWork(works) && Completes(actions + works, s.holder.value.request, sha))
      <==> Servable(s.disk, s.holder.value.request, sha)
  {
    var s := Run(actions, sha).value;
    hide Servable, AllWork, Run;
    if works :| AllWork(works) && Completes(actions + works, s.holder.value.request, sha) {
      WorkStaysAlong(actions, works, sha);
      hide Alike;
    }
    if Servable(s.disk, s.holder.value.request, sha) {
      assert actions + [] == actions;
      assert AllWork([]) by { NoWork(); }
      var all := WayToTheEnd(actions, [], sha);
      RequestStays(actions, all, sha);
      EndIsActive(actions + all, sha);
      assert Completes(actions + all, s.holder.value.request, sha);
    }
  }

  // The run ends with the update done: its digest is what the manifest says.
  ghost predicate Completes(actions: seq<Action>, request: Request, sha: Sha) {
    && Run(actions, sha).Some? && Run(actions, sha).value.holder.Some?
    && Run(actions, sha).value.holder.value.pc.Release?
    && Run(actions, sha).value.holder.value.request == request
    && ReadManifest(Run(actions, sha).value.disk) == Some(request.digest)
  }

  lemma NoWork()
    ensures AllWork([])
  {
  }

  lemma EndIsActive(actions: seq<Action>, sha: Sha)
    requires Run(actions, sha).Some? && Run(actions, sha).value.holder.Some?
    requires Run(actions, sha).value.holder.value.pc.Release?
    ensures
      var s := Run(actions, sha).value;
      ReadManifest(s.disk) == Some(s.holder.value.request.digest)
  {
    RunKeepsHistory(actions, sha);
    hide Run, Remembered, PastOf, Possible;
  }

  // ---------------------------------------------------------------- from a free lock

  // A number that is not in use.
  lemma {:induction false} Unused(used: set<nat>) returns (p: nat)
    ensures forall q | q in used :: q < p
  {
    if used == {} {
      p := 0;
    } else {
      var q :| q in used;
      var r := Unused(used - {q});
      p := if r > q then r else q + 1;
      assert forall x | x in used :: x == q || x in used - {q};
    }
  }

  lemma OneMore(actions: seq<Action>, a: Action, sha: Sha)
    requires Run(actions, sha).Some?
    ensures Run(actions + [a], sha) == Step(Run(actions, sha).value, a, sha)
  {
    assert (actions + [a])[..|actions|] == actions;
    hide Step;
  }

  // A process comes, syncs both directories and takes the free lock; what processes see stays as it is.
  lemma LockIsTaken(actions: seq<Action>, request: Request, sha: Sha) returns (more: seq<Action>)
    requires Run(actions, sha).Some? && Run(actions, sha).value.holder.None?
    ensures Run(actions + more, sha).Some? && Run(actions + more, sha).value.holder.Some?
    ensures
      var s, t := Run(actions, sha).value, Run(actions + more, sha).value;
      && t.holder.value.pc.RecoverContent? && t.holder.value.request == request
      && t.disk.content.now == s.disk.content.now && t.disk.manifests.now == s.disk.manifests.now
      && t.disk.bundles == s.disk.bundles && t.disk.files == s.disk.files
  {
    var p := Unused(Run(actions, sha).value.waiting.Keys);
    hide Run;
    OneMore(actions, Start(p), sha);
    var first := actions + [Start(p)];
    OneMore(first, SyncContentDir(p), sha);
    var second := first + [SyncContentDir(p)];
    OneMore(second, SyncManifestDir(p), sha);
    var third := second + [SyncManifestDir(p)];
    OneMore(third, Acquire(p, request), sha);
    more := [Start(p), SyncContentDir(p), SyncManifestDir(p), Acquire(p, request)];
    assert actions + more == third + [Acquire(p, request)];
  }

  // Some steps of the holder complete the request.
  ghost predicate CanComplete(actions: seq<Action>, request: Request, sha: Sha) {
    exists works :: AllWork(works) && Completes(actions + works, request, sha)
  }

  lemma HolderCanComplete(actions: seq<Action>, request: Request, sha: Sha)
    requires Run(actions, sha).Some? && Run(actions, sha).value.holder.Some?
    requires Run(actions, sha).value.holder.value.pc.RecoverContent?
    requires Run(actions, sha).value.holder.value.request == request
    requires Servable(Run(actions, sha).value.disk, request, sha)
    ensures CanComplete(actions, request, sha)
  {
    hide Run, Servable, Completes, AllWork;
    UpdateCompletesExactly(actions, sha);
  }

  lemma CompletesLater(actions: seq<Action>, more: seq<Action>, request: Request, sha: Sha)
    requires CanComplete(actions + more, request, sha)
    ensures exists all :: Completes(actions + all, request, sha)
  {
    hide Completes, AllWork;
    var works :| AllWork(works) && Completes(actions + more + works, request, sha);
    assert actions + more + works == actions + (more + works);
  }

  /** Whenever the lock is free, whatever crashed before, a request that can be served from the store can become its
      active catalog. */
  lemma ServableBecomesActive(actions: seq<Action>, request: Request, sha: Sha)
    requires Run(actions, sha).Some? && Run(actions, sha).value.holder.None?
    requires Servable(Run(actions, sha).value.disk, request, sha)
    ensures exists more :: Completes(actions + more, request, sha)
  {
    var more := LockIsTaken(actions, request, sha);
    ServableAlike(Run(actions, sha).value.disk, Run(actions + more, sha).value.disk, request, sha);
    hide Run, Servable, CanComplete, Completes;
    HolderCanComplete(actions + more, request, sha);
    CompletesLater(actions, more, request, sha);
  }

  lemma ServableAlike(d: Disk, e: Disk, request: Request, sha: Sha)
    requires Servable(d, request, sha) && e.bundles == d.bundles && e.files == d.files
    requires e.content.now == d.content.now && e.manifests.now == d.manifests.now
    ensures Servable(e, request, sha)
  {
    SameTotal(d, e, Generations(d.content.now));
  }
}
