// What survives any sequence of process crashes and power losses during installation and activation.
module ActivationSafety {
  import opened Common
  import opened Activation

  // ---------------------------------------------------------------- directories

  // What is seen now may survive.
  ghost predicate Honest<N(!new)>(d: Dir<N>) {
    forall name :: Lookup(d.now, name) in Possible(d, name)
  }

  lemma LinkIsHonest<N(!new)>(d: Dir<N>, name: N, inode: nat)
    requires Honest(d)
    ensures Honest(Link(d, name, inode))
    ensures forall n | n != name :: Possible(Link(d, name, inode), n) == Possible(d, n)
    ensures Possible(Link(d, name, inode), name) == Possible(d, name) + {Some(inode)}
  {
    forall n ensures Lookup(Link(d, name, inode).now, n) in Possible(Link(d, name, inode), n) {
      assert Lookup(d.now, n) in Possible(d, n);
    }
  }

  lemma UnlinkIsHonest<N(!new)>(d: Dir<N>, name: N)
    requires Honest(d)
    ensures Honest(Unlink(d, name))
    ensures forall n | n != name :: Possible(Unlink(d, name), n) == Possible(d, n)
    ensures forall n | n != name :: Lookup(Unlink(d, name).now, n) == Lookup(d.now, n)
  {
    forall n ensures Lookup(Unlink(d, name).now, n) in Possible(Unlink(d, name), n) {
      assert Lookup(d.now, n) in Possible(d, n);
    }
  }

  lemma SyncedIsHonest<N(!new)>(d: Dir<N>)
    ensures Honest(Synced(d))
    ensures forall n :: Possible(Synced(d), n) == {Lookup(d.now, n)}
  {
  }

  // ---------------------------------------------------------------- generations

  // A bundle that will be read back with the digest it is stored under.
  predicate Holds(d: Disk, b: nat, digest: Digest, sha: Sha) {
    b in d.bundles && Lasting(d.bundles[b]) && sha(d.bundles[b].content.value) == digest
    && |d.bundles[b].content.value| <= MAX_SNAPSHOT_BYTES
  }

  // Whatever a generation's name may turn out to be, it is nothing or the bundle seen now, complete and lasting.
  ghost predicate GenerationsOk(d: Disk, sha: Sha) {
    forall g: Digest, x | x in Possible(d.content, Generation(g)) ::
      x.Some? ==> x == Lookup(d.content.now, Generation(g)) && x.value < d.next && Holds(d, x.value, g, sha)
  }

  // The holder's own bundle is its alone until it is renamed.
  ghost predicate Private(d: Disk, b: nat) {
    b in d.bundles && b < d.next && forall g: Digest :: Some(b) !in Possible(d.content, Generation(g))
  }

  predicate Staged(pc: Pc) {
    pc.WriteFile? || pc.SyncFile? || pc.SyncStaging? || pc.CheckDigest? || pc.CheckDestination? || pc.CheckCapacity?
    || pc.Rename?
  }

  predicate Verified(pc: Pc) {
    pc.CheckDestination? || pc.CheckCapacity? || pc.Rename?
  }

  ghost predicate HolderOk(d: Disk, h: Holder, sha: Sha) {
    && (Staged(h.pc) ==> h.request.Install? && Private(d, h.bundle))
    && (h.pc.SyncFile? || h.pc.SyncStaging? ==> |h.request.bytes| <= MAX_SNAPSHOT_BYTES)
    && (h.pc.CheckDigest? ==>
          d.bundles[h.bundle] == Bundle(Some(h.request.bytes), true, true)
          && |h.request.bytes| <= MAX_SNAPSHOT_BYTES)
    && (Verified(h.pc) ==>
          d.bundles[h.bundle] == Bundle(Some(h.request.bytes), true, true)
          && Holds(d, h.bundle, h.request.digest, sha))
    && (h.pc.CheckCapacity? || h.pc.Rename? ==> Generation(h.request.digest) !in d.content.now)
    && (h.pc.Rename? ==>
          |Generations(d.content.now)| < MAX_GENERATIONS
          && TotalBytes(d, Generations(d.content.now)) + |h.request.bytes| <= MAX_STORAGE_BYTES)
  }

  // The store is within its limits.
  ghost predicate Bounded(d: Disk) {
    && |Generations(d.content.now)| <= MAX_GENERATIONS
    && TotalBytes(d, Generations(d.content.now)) <= MAX_STORAGE_BYTES
  }

  // Holds in every reachable state.
  ghost predicate Sound(s: State, sha: Sha) {
    && Honest(s.disk.content) && Honest(s.disk.manifests)
    && GenerationsOk(s.disk, sha)
    && Bounded(s.disk)
    && (s.holder.Some? ==> HolderOk(s.disk, s.holder.value, sha))
  }

  // ---------------------------------------------------------------- sizes

  ghost predicate SameSizes(d: Disk, e: Disk, names: set<ContentName>) {
    forall n | n in names :: SizeOf(d, n) == SizeOf(e, n)
  }

  lemma {:induction false} SameTotal(d: Disk, e: Disk, names: set<ContentName>)
    requires SameSizes(d, e, names)
    ensures TotalBytes(d, names) == TotalBytes(e, names)
    decreases names
  {
    hide SizeOf;
    if names != {} {
      var n :| n in names && TotalBytes(d, names) == SizeOf(d, n) + TotalBytes(d, names - {n});
      SameTotal(d, e, names - {n});
      TotalWithout(e, names, n);
    }
  }

  // The sum does not depend on the order in which it is taken.
  lemma {:induction false} TotalWithout(d: Disk, names: set<ContentName>, n: ContentName)
    requires n in names
    ensures TotalBytes(d, names) == SizeOf(d, n) + TotalBytes(d, names - {n})
    decreases names
  {
    hide SizeOf;
    var m :| m in names && TotalBytes(d, names) == SizeOf(d, m) + TotalBytes(d, names - {m});
    if m != n {
      TotalWithout(d, names - {m}, n);
      TotalWithout(d, names - {n}, m);
      assert names - {m} - {n} == names - {n} - {m};
    }
  }

  lemma {:induction false} FewerBytes(d: Disk, less: set<ContentName>, names: set<ContentName>)
    requires less <= names
    ensures TotalBytes(d, less) <= TotalBytes(d, names) && |less| <= |names|
    decreases names
  {
    hide SizeOf;
    if n :| n in names && n !in less {
      FewerBytes(d, less, names - {n});
      TotalWithout(d, names, n);
    } else {
      assert less == names;
    }
  }

  // A disk whose generations are the same or fewer, with the same files, is no larger.
  lemma StillBounded(d: Disk, e: Disk)
    requires Bounded(d)
    requires Generations(e.content.now) <= Generations(d.content.now)
    requires SameSizes(d, e, Generations(e.content.now))
    ensures Bounded(e)
  {
    hide SizeOf, Generations;
    FewerBytes(d, Generations(e.content.now), Generations(d.content.now));
    SameTotal(d, e, Generations(e.content.now));
  }

  // ---------------------------------------------------------------- steps that leave the generations alone

  // The generations seen and their bundles are as before, and no name may turn out to be anything more.
  ghost predicate Shrinks(d: Disk, e: Disk) {
    && (forall g: Digest :: Possible(e.content, Generation(g)) <= Possible(d.content, Generation(g)))
    && (forall g: Digest :: Lookup(e.content.now, Generation(g)) == Lookup(d.content.now, Generation(g)))
    && (forall g: Digest, x | x in Possible(d.content, Generation(g)) && x.Some? && x.value in d.bundles ::
          x.value in e.bundles && e.bundles[x.value] == d.bundles[x.value])
    && d.next <= e.next
  }

  lemma ShrinkingKeeps(d: Disk, e: Disk, sha: Sha)
    requires Honest(d.content) && GenerationsOk(d, sha) && Bounded(d) && Shrinks(d, e)
    ensures GenerationsOk(e, sha) && Bounded(e) && Generations(e.content.now) == Generations(d.content.now)
    ensures TotalBytes(e, Generations(e.content.now)) == TotalBytes(d, Generations(d.content.now))
  {
    hide Bounded, Possible;
    forall n | n in Generations(d.content.now) || n in Generations(e.content.now)
      ensures n in Generations(d.content.now) && n in Generations(e.content.now) && SizeOf(d, n) == SizeOf(e, n)
    {
      assert n == Generation(n.digest);
      assert Lookup(e.content.now, n) == Lookup(d.content.now, n);
      assert Lookup(d.content.now, n) in Possible(d.content, n);
    }
    assert Generations(e.content.now) == Generations(d.content.now);
    StillBounded(d, e);
    SameTotal(d, e, Generations(d.content.now));
  }

  lemma ShrinkingKeepsHolder(d: Disk, e: Disk, h: Holder, sha: Sha)
    requires Honest(d.content) && GenerationsOk(d, sha) && Bounded(d) && Shrinks(d, e) && HolderOk(d, h, sha)
    requires h.bundle in d.bundles ==> h.bundle in e.bundles && e.bundles[h.bundle] == d.bundles[h.bundle]
    ensures HolderOk(e, h, sha)
  {
    ShrinkingKeeps(d, e, sha);
    hide Possible, GenerationsOk, Bounded, Honest, Generations, TotalBytes;
    assert Lookup(e.content.now, Generation(h.request.digest)) == Lookup(d.content.now, Generation(h.request.digest));
  }

  // ---------------------------------------------------------------- the holder's steps

  lemma UnlinkShrinks(d: Disk, id: nat)
    requires Honest(d.content)
    ensures Shrinks(d, d.(content := Unlink(d.content, Staging(id))))
  {
    UnlinkIsHonest(d.content, Staging(id));
  }

  lemma ManifestsDoNotMatter(d: Disk, manifests: Dir<ManifestName>)
    ensures Shrinks(d, d.(manifests := manifests))
  {
  }

  lemma RecoverShrinks(s: State, h: Holder, which: nat, t: State)
    requires Honest(s.disk.content) && Honest(s.disk.manifests) && RecoverStep(s, h, which) == Some(t)
    ensures Shrinks(s.disk, t.disk) && Honest(t.disk.content) && Honest(t.disk.manifests)
    ensures t.disk.bundles == s.disk.bundles && t.disk.next == s.disk.next && t.renames == s.renames
    ensures t.waiting == s.waiting && t.holder.Some? && !Staged(t.holder.value.pc)
  {
    hide Honest, Shrinks, Possible, Unlink, Synced, Lookup, StagingLeft, ManifestStagingLeft;
    var d := s.disk;
    UnlinkIsHonest(d.content, Staging(which));
    UnlinkIsHonest(d.manifests, ManifestStaging(which));
    SyncedIsHonest(d.content);
    SyncedIsHonest(d.manifests);
    SyncShrinks(d);
    UnlinkShrinks(d, which);
    ManifestsDoNotMatter(d, t.disk.manifests);
    ManifestsDoNotMatter(d, d.manifests);
  }

  lemma SyncShrinks(d: Disk)
    requires Honest(d.content)
    ensures Shrinks(d, d.(content := Synced(d.content)))
  {
    forall g: Digest ensures Possible(Synced(d.content), Generation(g)) <= Possible(d.content, Generation(g)) {
      assert Lookup(d.content.now, Generation(g)) in Possible(d.content, Generation(g));
    }
  }

  lemma RecoverKeepsSound(s: State, h: Holder, which: nat, t: State, sha: Sha)
    requires Sound(s, sha) && s.holder == Some(h) && RecoverStep(s, h, which) == Some(t)
    ensures Sound(t, sha)
  {
    RecoverShrinks(s, h, which, t);
    ShrinkingKeeps(s.disk, t.disk, sha);
    hide Shrinks, GenerationsOk, Bounded, Honest, RecoverStep;
  }

  lemma StageKeepsSound(s: State, h: Holder, t: State, sha: Sha)
    requires Sound(s, sha) && s.holder == Some(h) && h.request.Install? && StageStep(s, h, sha) == Some(t)
    ensures Sound(t, sha)
  {
    StageShrinks(s, h, t, sha);
    ShrinkingKeeps(s.disk, t.disk, sha);
    StageKeepsHolder(s, h, t, sha);
    hide Shrinks, GenerationsOk, Bounded, Honest, StageStep, HolderOk;
  }

  lemma FirstStageShrinks(s: State, h: Holder, t: State, sha: Sha)
    requires Sound(s, sha) && s.holder == Some(h) && h.request.Install? && h.pc.Stage?
    requires StageStep(s, h, sha) == Some(t)
    ensures Shrinks(s.disk, t.disk) && Honest(t.disk.content) && Honest(t.disk.manifests)
    ensures t.waiting == s.waiting && t.renames == s.renames && t.holder.Some?
  {
    LinkIsHonest(s.disk.content, Staging(s.disk.next), s.disk.next);
    hide Honest, Bounded, Holds, Link, HolderOk;
    forall g: Digest ensures Lookup(t.disk.content.now, Generation(g)) == Lookup(s.disk.content.now, Generation(g)) {
      LinkStaging(s.disk.content, s.disk.next, s.disk.next, g);
    }
  }

  lemma StageShrinks(s: State, h: Holder, t: State, sha: Sha)
    requires Sound(s, sha) && s.holder == Some(h) && h.request.Install? && StageStep(s, h, sha) == Some(t)
    ensures Shrinks(s.disk, t.disk) && Honest(t.disk.content) && Honest(t.disk.manifests)
    ensures t.waiting == s.waiting && t.renames == s.renames && t.holder.Some?
  {
    if h.pc.Stage? {
      hide Sound, StageStep, Shrinks, Honest;
      FirstStageShrinks(s, h, t, sha);
    } else {
      hide Honest, Bounded, GenerationsOk, Link;
    }
  }

  lemma LinkStaging(d: Dir<ContentName>, id: nat, inode: nat, g: Digest)
    ensures Lookup(Link(d, Staging(id), inode).now, Generation(g)) == Lookup(d.now, Generation(g))
  {
  }

  lemma StageKeepsHolder(s: State, h: Holder, t: State, sha: Sha)
    requires Sound(s, sha) && s.holder == Some(h) && h.request.Install? && StageStep(s, h, sha) == Some(t)
    ensures t.holder.Some? && HolderOk(t.disk, t.holder.value, sha)
  {
    LinkIsHonest(s.disk.content, Staging(s.disk.next), s.disk.next);
    hide Honest, Bounded, Link, TotalBytes, Generations, Possible;
  }

  // ---------------------------------------------------------------- renaming a generation into place

  lemma RenamedEntries(c: Dir<ContentName>, b: nat, g: Digest)
    requires Honest(c)
    ensures
      var after := Link(Unlink(c, Staging(b)), Generation(g), b);
      && Honest(after) && Lookup(after.now, Generation(g)) == Some(b)
      && Possible(after, Generation(g)) == Possible(c, Generation(g)) + {Some(b)}
      && (forall n: ContentName | n.Generation? && n != Generation(g) ::
            Possible(after, n) == Possible(c, n) && Lookup(after.now, n) == Lookup(c.now, n))
  {
    UnlinkIsHonest(c, Staging(b));
    LinkIsHonest(Unlink(c, Staging(b)), Generation(g), b);
  }

  lemma RenameKeepsSound(s: State, h: Holder, t: State, sha: Sha)
    requires Sound(s, sha) && s.holder == Some(h) && h.pc.Rename? && PlaceStep(s, h, sha) == Some(t)
    ensures Sound(t, sha)
  {
    RenamedEntries(s.disk.content, h.bundle, h.request.digest);
    RenameKeepsGenerations(s, h, t, sha);
    RenameKeepsBounds(s, h, t, sha);
  }

  lemma RenameKeepsGenerations(s: State, h: Holder, t: State, sha: Sha)
    requires Sound(s, sha) && s.holder == Some(h) && h.pc.Rename? && PlaceStep(s, h, sha) == Some(t)
    ensures GenerationsOk(t.disk, sha)
  {
    hide Bounded, Honest, Generations, TotalBytes;
    RenamedEntries(s.disk.content, h.bundle, h.request.digest);
    hide Link, Unlink, Possible;
    var name := Generation(h.request.digest);
    assert Lookup(s.disk.content.now, name) == None;
    forall g: Digest, x | x in Possible(t.disk.content, Generation(g)) && x.Some?
      ensures x == Lookup(t.disk.content.now, Generation(g)) && x.value < t.disk.next && Holds(t.disk, x.value, g, sha)
    {
      if Generation(g) == name {
        assert x == Some(h.bundle);
      } else {
        assert x in Possible(s.disk.content, Generation(g));
      }
    }
  }

  lemma RenameKeepsBounds(s: State, h: Holder, t: State, sha: Sha)
    requires Sound(s, sha) && s.holder == Some(h) && h.pc.Rename? && PlaceStep(s, h, sha) == Some(t)
    ensures Bounded(t.disk)
  {
    hide Honest, GenerationsOk, Possible, TotalBytes;
    var name := Generation(h.request.digest);
    var before, after := Generations(s.disk.content.now), Generations(t.disk.content.now);
    assert after == before + {name};
    assert forall n | n in before :: Lookup(t.disk.content.now, n) == Lookup(s.disk.content.now, n);
    SameTotal(s.disk, t.disk, before);
    TotalWithout(t.disk, after, name);
    assert after - {name} == before;
  }

  lemma PlaceKeepsSound(s: State, h: Holder, t: State, sha: Sha)
    requires Sound(s, sha) && s.holder == Some(h) && PlaceStep(s, h, sha) == Some(t)
    ensures Sound(t, sha)
  {
    if h.pc.Rename? {
      RenameKeepsSound(s, h, t, sha);
    } else if h.pc.SyncContent? {
      SyncShrinks(s.disk);
      SyncedIsHonest(s.disk.content);
      ShrinkingKeeps(s.disk, t.disk, sha);
    } else {
      hide Honest, GenerationsOk, Bounded, Possible, TotalBytes;
    }
  }

  lemma ActivateKeepsSound(s: State, h: Holder, t: State, sha: Sha)
    requires Sound(s, sha) && s.holder == Some(h) && ActivateStep(s, h) == Some(t)
    ensures Sound(t, sha)
  {
    assert Honest(t.disk.manifests) by {
      ActivateIsHonest(s, h, t);
    }
    assert Shrinks(s.disk, t.disk);
    hide Link, Unlink, Possible, Honest, Shrinks;
    ShrinkingKeeps(s.disk, t.disk, sha);
    hide GenerationsOk, Bounded;
  }

  lemma ActivateIsHonest(s: State, h: Holder, t: State)
    requires Honest(s.disk.manifests) && ActivateStep(s, h) == Some(t)
    ensures Honest(t.disk.manifests)
  {
    LinkIsHonest(s.disk.manifests, ManifestStaging(s.disk.next), s.disk.next);
    UnlinkIsHonest(s.disk.manifests, ManifestStaging(h.file));
    LinkIsHonest(Unlink(s.disk.manifests, ManifestStaging(h.file)), Active, h.file);
    SyncedIsHonest(s.disk.manifests);
    hide Link, Unlink, Synced, Honest;
  }

  // ---------------------------------------------------------------- everything else

  lemma WaitingSyncKeepsSound(s: State, p: nat, t: State, sha: Sha)
    requires Sound(s, sha)
    requires Step(s, SyncContentDir(p), sha) == Some(t) || Step(s, SyncManifestDir(p), sha) == Some(t)
    ensures Sound(t, sha)
  {
    SyncShrinks(s.disk);
    SyncedIsHonest(s.disk.content);
    SyncedIsHonest(s.disk.manifests);
    ManifestsDoNotMatter(s.disk, Synced(s.disk.manifests));
    hide Synced, Possible, Honest, Shrinks;
    ShrinkingKeeps(s.disk, t.disk, sha);
    if s.holder.Some? {
      ShrinkingKeepsHolder(s.disk, t.disk, s.holder.value, sha);
    }
    hide GenerationsOk, Bounded, HolderOk;
  }

  lemma GiveUpKeepsSound(s: State, content: bool, manifest: bool, t: State, sha: Sha)
    requires Sound(s, sha) && Step(s, GiveUp(content, manifest), sha) == Some(t)
    ensures Sound(t, sha)
  {
    var h := s.holder.value;
    UnlinkIsHonest(s.disk.content, Staging(h.bundle));
    UnlinkIsHonest(s.disk.manifests, ManifestStaging(h.file));
    UnlinkShrinks(s.disk, h.bundle);
    ManifestsDoNotMatter(s.disk, t.disk.manifests);
    assert Shrinks(s.disk, t.disk);
    hide Unlink, Possible, Honest, Shrinks;
    ShrinkingKeeps(s.disk, t.disk, sha);
    hide GenerationsOk, Bounded;
  }

  lemma PowerLossKeepsSound(s: State, d: Disk, sha: Sha)
    requires Sound(s, sha) && DiskSurvives(s.disk, d)
    ensures Honest(d.content) && Honest(d.manifests) && GenerationsOk(d, sha) && Bounded(d)
  {
    forall g: Digest
      ensures Possible(d.content, Generation(g)) == {Lookup(d.content.now, Generation(g))}
      ensures Lookup(d.content.now, Generation(g)) in Possible(s.disk.content, Generation(g))
    {}
    hide Possible, TotalBytes;
    assert GenerationsOk(d, sha);
    forall n | n in Generations(d.content.now)
      ensures n in Generations(s.disk.content.now) && SizeOf(d, n) == SizeOf(s.disk, n)
    {
      assert n == Generation(n.digest);
      assert Some(d.content.now[n]) in Possible(s.disk.content, n);
    }
    hide Generations;
    StillBounded(s.disk, d);
  }

  lemma HolderKeepsSound(s: State, h: Holder, which: nat, t: State, sha: Sha)
    requires Sound(s, sha) && s.holder == Some(h) && HolderStep(s, h, sha, which) == Some(t)
    ensures Sound(t, sha)
  {
    hide RecoverStep, StageStep, PlaceStep, ActivateStep, Honest, GenerationsOk, Bounded;
    match h.pc
    case RecoverContent => RecoverKeepsSound(s, h, which, t, sha);
    case SyncRecoveredContent => RecoverKeepsSound(s, h, which, t, sha);
    case RecoverManifests => RecoverKeepsSound(s, h, which, t, sha);
    case SyncRecoveredManifests => RecoverKeepsSound(s, h, which, t, sha);
    case Stage => StageKeepsSound(s, h, t, sha);
    case WriteFile => StageKeepsSound(s, h, t, sha);
    case SyncFile => StageKeepsSound(s, h, t, sha);
    case SyncStaging => StageKeepsSound(s, h, t, sha);
    case CheckDigest => StageKeepsSound(s, h, t, sha);
    case CheckDestination => PlaceKeepsSound(s, h, t, sha);
    case CheckCapacity => PlaceKeepsSound(s, h, t, sha);
    case Rename => PlaceKeepsSound(s, h, t, sha);
    case SyncContent => PlaceKeepsSound(s, h, t, sha);
    case WriteManifest => ActivateKeepsSound(s, h, t, sha);
    case SyncManifest => ActivateKeepsSound(s, h, t, sha);
    case CheckBase => ActivateKeepsSound(s, h, t, sha);
    case Persist => ActivateKeepsSound(s, h, t, sha);
    case SyncManifests => ActivateKeepsSound(s, h, t, sha);
    case _ =>
  }

  lemma StepKeepsSound(s: State, a: Action, t: State, sha: Sha)
    requires Sound(s, sha) && Step(s, a, sha) == Some(t)
    ensures Sound(t, sha)
  {
    hide HolderStep, GenerationsOk, Bounded, Honest, HolderOk, DiskSurvives;
    match a
    case SyncContentDir(p) => WaitingSyncKeepsSound(s, p, t, sha);
    case SyncManifestDir(p) => WaitingSyncKeepsSound(s, p, t, sha);
    case Work(which) => HolderKeepsSound(s, s.holder.value, which, t, sha);
    case GiveUp(content, manifest) => GiveUpKeepsSound(s, content, manifest, t, sha);
    case PowerLoss(d) => PowerLossKeepsSound(s, d, sha);
    case Acquire(p, request) => AcquireKeepsSound(s, p, request, t, sha);
    case _ =>
  }

  lemma AcquireKeepsSound(s: State, p: nat, request: Request, t: State, sha: Sha)
    requires Sound(s, sha) && Step(s, Acquire(p, request), sha) == Some(t)
    ensures Sound(t, sha)
  {
    hide GenerationsOk, Bounded, Honest;
  }

  lemma {:induction false} RunIsSound(actions: seq<Action>, sha: Sha)
    requires Run(actions, sha).Some?
    ensures Sound(Run(actions, sha).value, sha)
  {
    if actions != [] {
      hide Sound, Step;
      RunIsSound(actions[..|actions| - 1], sha);
      StepKeepsSound(Run(actions[..|actions| - 1], sha).value, actions[|actions| - 1], Run(actions, sha).value, sha);
    }
  }

  /** In every run, however often processes crash and power fails, the store stays within 32 generations and 512 MiB. */
  lemma StoreStaysBounded(actions: seq<Action>, sha: Sha)
    requires Run(actions, sha).Some?
    ensures
      var d := Run(actions, sha).value.disk;
      |Generations(d.content.now)| <= MAX_GENERATIONS
      && TotalBytes(d, Generations(d.content.now)) <= MAX_STORAGE_BYTES
  {
    RunIsSound(actions, sha);
  }

  /** A generation that can be seen, now or after a power loss, is complete and has the bytes of its name. */
  lemma GenerationsAreComplete(actions: seq<Action>, sha: Sha, digest: Digest)
    requires Run(actions, sha).Some? && Generation(digest) in Run(actions, sha).value.disk.content.now
    ensures
      var d := Run(actions, sha).value.disk;
      && ContentOf(d, Generation(digest)).Some?
      && sha(ContentOf(d, Generation(digest)).value) == digest
      && Lasting(d.bundles[d.content.now[Generation(digest)]])
  {
    RunIsSound(actions, sha);
    var d := Run(actions, sha).value.disk;
    assert Lookup(d.content.now, Generation(digest)) in Possible(d.content, Generation(digest));
  }
}
