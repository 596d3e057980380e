// When a manifest that survives names a generation that survives with it.
module ActivationDurability {
  import opened Common
  import opened Activation
  import opened ActivationSafety

  // ---------------------------------------------------------------- manifest files

  predicate Writing(pc: Pc) {
    pc.SyncManifest? || pc.CheckBase? || pc.Persist?
  }

  // Every manifest that `active.json` may turn out to be was synced before it was renamed there.
  ghost predicate FilesOk(s: State) {
    && (forall x | x in Possible(s.disk.manifests, Active) && x.Some? ::
          x.value < s.disk.next && x.value in s.disk.files && s.disk.files[x.value].synced)
    && (s.holder.Some? && Writing(s.holder.value.pc) ==>
          var h := s.holder.value;
          && h.file < s.disk.next && h.file in s.disk.files && Some(h.file) !in Possible(s.disk.manifests, Active)
          && (!h.pc.SyncManifest? ==> s.disk.files[h.file] == Manifest(h.request.digest, true)))
  }

  lemma ActiveEntry(m: Dir<ManifestName>, id: nat)
    requires Honest(m)
    ensures Possible(Unlink(m, ManifestStaging(id)), Active) == Possible(m, Active)
    ensures Possible(Synced(m), Active) == {Lookup(m.now, Active)} <= Possible(m, Active)
  {
  }

  // The step brings no new manifest into place and starts none.
  ghost predicate LeavesManifests(s: State, t: State) {
    && Possible(t.disk.manifests, Active) <= Possible(s.disk.manifests, Active)
    && t.disk.files == s.disk.files && t.disk.next >= s.disk.next
    && (t.holder.Some? ==> !Writing(t.holder.value.pc))
  }

  lemma RecoverLeavesManifests(s: State, h: Holder, which: nat, t: State)
    requires Honest(s.disk.manifests) && RecoverStep(s, h, which) == Some(t)
    ensures LeavesManifests(s, t)
  {
    hide Possible, Honest, StagingLeft, ManifestStagingLeft, Unlink, Synced;
    ActiveEntry(s.disk.manifests, which);
  }

  lemma StageLeavesManifests(s: State, h: Holder, sha: Sha, t: State)
    requires h.request.Install? && StageStep(s, h, sha) == Some(t)
    ensures LeavesManifests(s, t)
  {
    hide Possible, Link;
  }

  lemma PlaceLeavesManifests(s: State, h: Holder, sha: Sha, t: State)
    requires PlaceStep(s, h, sha) == Some(t)
    ensures LeavesManifests(s, t)
  {
    hide Possible, Link, Unlink, Synced, HasRoom;
  }

  // What the holder does to the manifests before and after it writes one.
  lemma HolderKeepsManifests(s: State, h: Holder, sha: Sha, which: nat, t: State)
    requires Honest(s.disk.manifests) && s.holder == Some(h) && HolderStep(s, h, sha, which) == Some(t)
    requires !h.pc.WriteManifest? && !Writing(h.pc) && !h.pc.SyncManifests?
    ensures LeavesManifests(s, t)
  {
    hide RecoverStep, StageStep, PlaceStep, ActivateStep, Possible, Honest;
    match h.pc
    case RecoverContent => RecoverLeavesManifests(s, h, which, t);
    case SyncRecoveredContent => RecoverLeavesManifests(s, h, which, t);
    case RecoverManifests => RecoverLeavesManifests(s, h, which, t);
    case SyncRecoveredManifests => RecoverLeavesManifests(s, h, which, t);
    case Stage => StageLeavesManifests(s, h, sha, t);
    case WriteFile => StageLeavesManifests(s, h, sha, t);
    case SyncFile => StageLeavesManifests(s, h, sha, t);
    case SyncStaging => StageLeavesManifests(s, h, sha, t);
    case CheckDigest => StageLeavesManifests(s, h, sha, t);
    case CheckDestination => PlaceLeavesManifests(s, h, sha, t);
    case CheckCapacity => PlaceLeavesManifests(s, h, sha, t);
    case Rename => PlaceLeavesManifests(s, h, sha, t);
    case SyncContent => PlaceLeavesManifests(s, h, sha, t);
    case _ =>
  }

  lemma PersistedEntry(m: Dir<ManifestName>, f: nat)
    requires Honest(m)
    ensures Possible(Link(Unlink(m, ManifestStaging(f)), Active, f), Active) == Possible(m, Active) + {Some(f)}
    ensures Possible(Link(m, ManifestStaging(f), f), Active) == Possible(m, Active)
  {
    UnlinkIsHonest(m, ManifestStaging(f));
    LinkIsHonest(Unlink(m, ManifestStaging(f)), Active, f);
    LinkIsHonest(m, ManifestStaging(f), f);
  }

  lemma WritingKeepsFiles(s: State, h: Holder, t: State)
    requires FilesOk(s) && Honest(s.disk.manifests) && s.holder == Some(h) && ActivateStep(s, h) == Some(t)
    ensures FilesOk(t)
  {
    hide Possible, Honest, Link, Unlink, Synced, ReadManifest;
    var m := s.disk.manifests;
    PersistedEntry(m, h.file);
    PersistedEntry(m, s.disk.next);
    ActiveEntry(m, h.file);
    assert t.holder == Some(h.(pc := t.holder.value.pc, file := t.holder.value.file));
  }

  lemma HolderKeepsFiles(s: State, h: Holder, sha: Sha, which: nat, t: State)
    requires FilesOk(s) && Honest(s.disk.manifests) && s.holder == Some(h)
    requires HolderStep(s, h, sha, which) == Some(t)
    ensures FilesOk(t)
  {
    if h.pc.WriteManifest? || Writing(h.pc) || h.pc.SyncManifests? {
      hide FilesOk;
      WritingKeepsFiles(s, h, t);
    } else {
      HolderKeepsManifests(s, h, sha, which, t);
      hide Possible, HolderStep;
    }
  }

  lemma PowerLossKeepsFiles(s: State, d: Disk)
    requires FilesOk(s) && DiskSurvives(s.disk, d)
    ensures FilesOk(s.(disk := d, holder := None, waiting := map[]))
  {
    assert Possible(d.manifests, Active) == {Lookup(d.manifests.now, Active)};
    hide Possible;
  }

  lemma StepKeepsFiles(s: State, a: Action, t: State, sha: Sha)
    requires FilesOk(s) && Honest(s.disk.manifests) && Step(s, a, sha) == Some(t)
    ensures FilesOk(t)
  {
    hide HolderStep, DiskSurvives, Possible, Honest;
    match a
    case Work(which) => HolderKeepsFiles(s, s.holder.value, sha, which, t);
    case PowerLoss(d) => PowerLossKeepsFiles(s, d);
    case SyncManifestDir(p) => ActiveEntry(s.disk.manifests, 0);
    case GiveUp(content, manifest) => ActiveEntry(s.disk.manifests, s.holder.value.file);
    case _ =>
  }

  lemma {:induction false} RunKeepsFiles(actions: seq<Action>, sha: Sha)
    requires Run(actions, sha).Some?
    ensures FilesOk(Run(actions, sha).value)
  {
    if actions != [] {
      var before := actions[..|actions| - 1];
      RunKeepsFiles(before, sha);
      RunIsSound(before, sha);
      hide FilesOk, Step, GenerationsOk, Bounded, HolderOk, Honest;
      StepKeepsFiles(Run(before, sha).value, actions[|actions| - 1], Run(actions, sha).value, sha);
    }
  }

  // ---------------------------------------------------------------- safety, and its exact condition

  // The active manifest, if there is one, names a generation that is there with the bytes of its digest.
  predicate Loads(d: Disk, sha: Sha) {
    ReadManifest(d).Some? ==>
      var digest := ReadManifest(d).value;
      ContentOf(d, Generation(digest)).Some? && sha(ContentOf(d, Generation(digest)).value) == digest
  }

  // Whatever a power loss leaves, the catalog loads.
  ghost predicate Safe(d: Disk, sha: Sha) {
    forall after :: DiskSurvives(d, after) ==> Loads(after, sha)
  }

  // The generation's directory entry has been synced.
  predicate Settled(d: Disk, digest: Digest) {
    Generation(digest) in d.content.now && None !in Possible(d.content, Generation(digest))
  }

  // Every manifest that `active.json` may turn out to be names a settled generation.
  predicate NamesSettled(d: Disk) {
    forall x | x in Possible(d.manifests, Active) && x.Some? ::
      x.value in d.files && Settled(d, d.files[x.value].digest)
  }

  lemma SettledSurvives(d: Disk, after: Disk, digest: Digest, sha: Sha)
    requires GenerationsOk(d, sha) && Settled(d, digest) && DiskSurvives(d, after)
    ensures ContentOf(after, Generation(digest)).Some?
    ensures sha(ContentOf(after, Generation(digest)).value) == digest
  {
    var name := Generation(digest);
    assert Lookup(after.content.now, name) in Possible(d.content, name);
    hide Possible;
  }

  lemma SettledIsSafe(s: State, sha: Sha)
    requires Sound(s, sha) && FilesOk(s) && NamesSettled(s.disk)
    ensures Safe(s.disk, sha)
  {
    hide Settled, Bounded, HolderOk, Honest;
    forall after | DiskSurvives(s.disk, after) ensures Loads(after, sha) {
      assert Lookup(after.manifests.now, Active) in Possible(s.disk.manifests, Active);
      if ReadManifest(after).Some? {
        var f := after.manifests.now[Active];
        assert Some(f) in Possible(s.disk.manifests, Active);
        assert ManifestSurvives(s.disk.files[f], after.files[f]);
        SettledSurvives(s.disk, after, s.disk.files[f].digest, sha);
      }
    }
  }

  // The power loss that brings back manifest `f` and drops the unsettled generation it names.
  function Unlucky(d: Disk, f: nat, digest: Digest): Disk {
    Disk(Dir(d.content.now - {Generation(digest)}, map[]),
         map b | b in d.bundles ::
           if Lasting(d.bundles[b]) then d.bundles[b] else d.bundles[b].(fileSynced := true, entrySynced := true),
         Dir(d.manifests.now[Active := f], map[]),
         map x | x in d.files :: d.files[x].(synced := true),
         d.next)
  }

  lemma UnluckyHappens(d: Disk, f: nat, digest: Digest)
    requires Honest(d.content) && Honest(d.manifests)
    requires Some(f) in Possible(d.manifests, Active)
    requires Generation(digest) !in d.content.now || None in Possible(d.content, Generation(digest))
    ensures DiskSurvives(d, Unlucky(d, f, digest))
  {
    var after := Unlucky(d, f, digest);
    forall name ensures Lookup(after.content.now, name) in Possible(d.content, name) {
      assert Lookup(d.content.now, name) in Possible(d.content, name);
    }
    forall name ensures Lookup(after.manifests.now, name) in Possible(d.manifests, name) {
      assert Lookup(d.manifests.now, name) in Possible(d.manifests, name);
    }
  }

  lemma UnsettledIsUnsafe(s: State, sha: Sha, f: nat)
    requires Sound(s, sha) && FilesOk(s) && Some(f) in Possible(s.disk.manifests, Active)
    requires !Settled(s.disk, s.disk.files[f].digest)
    ensures !Safe(s.disk, sha)
  {
    var digest := s.disk.files[f].digest;
    UnluckyHappens(s.disk, f, digest);
    var after := Unlucky(s.disk, f, digest);
    assert ReadManifest(after) == Some(digest) && ContentOf(after, Generation(digest)).None?;
    assert !Loads(after, sha);
    hide DiskSurvives, Loads;
  }

  /** In every reachable state, the catalog loads after every power loss exactly when every manifest that may survive
      names a generation whose directory entry has been synced. */
  lemma SafeExactly(actions: seq<Action>, sha: Sha)
    requires Run(actions, sha).Some?
    ensures Safe(Run(actions, sha).value.disk, sha) <==> NamesSettled(Run(actions, sha).value.disk)
  {
    var s := Run(actions, sha).value;
    RunIsSound(actions, sha);
    RunKeepsFiles(actions, sha);
    hide Sound, Safe, Settled, Run, Possible;
    if NamesSettled(s.disk) {
      SettledIsSafe(s, sha);
    } else {
      var x :| x in Possible(s.disk.manifests, Active) && x.Some?
        && !(x.value in s.disk.files && Settled(s.disk, s.disk.files[x.value].digest));
      UnsettledIsUnsafe(s, sha, x.value);
    }
  }

  lemma PersistNames(s: State, h: Holder, t: State)
    requires FilesOk(s) && Honest(s.disk.manifests) && s.holder == Some(h) && h.pc.Persist?
    requires ActivateStep(s, h) == Some(t) && NamesSettled(s.disk)
    ensures NamesSettled(t.disk) <==> Settled(s.disk, h.request.digest)
  {
    PersistedEntry(s.disk.manifests, h.file);
    hide Possible, Honest, Link, Unlink;
    assert t.disk.content == s.disk.content && t.disk.files == s.disk.files;
    assert Possible(t.disk.manifests, Active) == Possible(s.disk.manifests, Active) + {Some(h.file)};
    assert forall g: Digest :: Settled(t.disk, g) <==> Settled(s.disk, g);
    hide Settled;
  }

  /** Swapping the manifest keeps the catalog safe exactly when the generation it names has been synced into place. */
  lemma ActivationIsSafeExactly(actions: seq<Action>, which: nat, sha: Sha)
    requires Run(actions, sha).Some? && Run(actions, sha).value.holder.Some?
    requires Run(actions, sha).value.holder.value.pc.Persist? && Safe(Run(actions, sha).value.disk, sha)
    ensures Run(actions + [Work(which)], sha).Some?
    ensures Safe(Run(actions + [Work(which)], sha).value.disk, sha) <==>
              Settled(Run(actions, sha).value.disk, Run(actions, sha).value.holder.value.request.digest)
  {
    var s := Run(actions, sha).value;
    var h := s.holder.value;
    var next := actions + [Work(which)];
    assert next[..|next| - 1] == actions && next[|next| - 1] == Work(which);
    assert Run(next, sha) == ActivateStep(s, h);
    SafeExactly(actions, sha);
    SafeExactly(next, sha);
    RunIsSound(actions, sha);
    RunKeepsFiles(actions, sha);
    assert Honest(s.disk.manifests);
    hide Run, Safe, Settled, NamesSettled, Sound, FilesOk, Honest, ActivateStep;
    PersistNames(s, h, Run(next, sha).value);
  }

  // ---------------------------------------------------------------- runs in which every sync is fresh

  ghost predicate AllSettled(d: Disk) {
    forall g: Digest :: Generation(g) in d.content.now ==> Settled(d, g)
  }

  // Only the generation just renamed may be unsettled.
  ghost predicate OthersSettled(d: Disk, digest: Digest) {
    Generation(digest) in d.content.now
    && forall g: Digest :: g != digest && Generation(g) in d.content.now ==> Settled(d, g)
  }

  predicate Activating(pc: Pc) {
    pc.WriteManifest? || Writing(pc)
  }

  ghost predicate HolderFresh(d: Disk, h: Holder) {
    && (if h.pc.SyncContent? then OthersSettled(d, h.request.digest) else AllSettled(d))
    && (Activating(h.pc) ==> Settled(d, h.request.digest))
  }

  ghost predicate WaitingFresh(s: State) {
    forall p | p in s.waiting ::
      && s.waiting[p].seen <= s.renames
      && (s.waiting[p].manifestsSynced ==> s.waiting[p].contentSynced)
      && (s.waiting[p].contentSynced && s.waiting[p].seen == s.renames ==> AllSettled(s.disk))
  }

  ghost predicate Durable(s: State) {
    NamesSettled(s.disk) && WaitingFresh(s) && (s.holder.Some? ==> HolderFresh(s.disk, s.holder.value))
  }

  lemma ShrinkingKeepsSettled(d: Disk, e: Disk)
    requires Shrinks(d, e)
    ensures forall g: Digest :: Generation(g) in e.content.now <==> Generation(g) in d.content.now
    ensures forall g: Digest | Settled(d, g) :: Settled(e, g)
    ensures AllSettled(d) ==> AllSettled(e)
    ensures forall g: Digest | OthersSettled(d, g) :: OthersSettled(e, g)
  {
    hide Possible;
    forall g: Digest ensures Generation(g) in e.content.now <==> Generation(g) in d.content.now {
      assert Lookup(e.content.now, Generation(g)) == Lookup(d.content.now, Generation(g));
    }
  }

  // A step that adds no manifest and no generation, and lets nobody take the lock.
  lemma QuietKeepsNames(s: State, t: State)
    requires NamesSettled(s.disk) && WaitingFresh(s)
    requires Shrinks(s.disk, t.disk) && t.renames == s.renames && t.waiting == s.waiting
    requires Possible(t.disk.manifests, Active) <= Possible(s.disk.manifests, Active) && t.disk.files == s.disk.files
    ensures NamesSettled(t.disk) && WaitingFresh(t)
  {
    ShrinkingKeepsSettled(s.disk, t.disk);
    hide Possible, Shrinks, Settled, AllSettled;
  }

  lemma RecoverKeepsDurable(s: State, h: Holder, which: nat, t: State)
    requires Durable(s) && Honest(s.disk.content) && Honest(s.disk.manifests) && s.holder == Some(h)
    requires RecoverStep(s, h, which) == Some(t)
    ensures Durable(t)
  {
    RecoverShrinks(s, h, which, t);
    RecoverLeavesManifests(s, h, which, t);
    QuietKeepsNames(s, t);
    ShrinkingKeepsSettled(s.disk, t.disk);
    hide Shrinks, NamesSettled, WaitingFresh, AllSettled, Settled, OthersSettled, Possible, Honest, Unlink, Synced;
  }

  lemma StageKeepsDurable(s: State, h: Holder, t: State, sha: Sha)
    requires Durable(s) && Sound(s, sha) && s.holder == Some(h) && h.request.Install?
    requires StageStep(s, h, sha) == Some(t)
    ensures Durable(t)
  {
    StageShrinks(s, h, t, sha);
    StageLeavesManifests(s, h, sha, t);
    hide Sound;
    QuietKeepsNames(s, t);
    ShrinkingKeepsSettled(s.disk, t.disk);
    hide Shrinks, NamesSettled, WaitingFresh, AllSettled, Settled, OthersSettled, Possible, Link;
  }

  lemma RenameLeavesOthers(s: State, h: Holder, t: State, sha: Sha)
    requires AllSettled(s.disk) && Honest(s.disk.content) && h.pc.Rename? && PlaceStep(s, h, sha) == Some(t)
    ensures OthersSettled(t.disk, h.request.digest)
    ensures forall g: Digest | Settled(s.disk, g) && g != h.request.digest :: Settled(t.disk, g)
  {
    RenamedEntries(s.disk.content, h.bundle, h.request.digest);
    hide Possible, Honest, Link, Unlink;
    forall g: Digest | g != h.request.digest
      ensures Generation(g) in t.disk.content.now <==> Generation(g) in s.disk.content.now
    {
      assert Lookup(t.disk.content.now, Generation(g)) == Lookup(s.disk.content.now, Generation(g));
    }
  }

  lemma RenameKeepsDurable(s: State, h: Holder, t: State, sha: Sha)
    requires Durable(s) && Sound(s, sha) && s.holder == Some(h) && h.pc.Rename? && PlaceStep(s, h, sha) == Some(t)
    ensures Durable(t)
  {
    RenameLeavesOthers(s, h, t, sha);
    assert Generation(h.request.digest) !in s.disk.content.now;
    hide Sound, Settled, AllSettled, OthersSettled, Possible, Link, Unlink;
    forall x | x in Possible(t.disk.manifests, Active) && x.Some?
      ensures x.value in t.disk.files && Settled(t.disk, t.disk.files[x.value].digest)
    {
      assert Settled(s.disk, s.disk.files[x.value].digest);
      SettledIsThere(s.disk, s.disk.files[x.value].digest);
    }
  }

  lemma SettledIsThere(d: Disk, g: Digest)
    requires Settled(d, g)
    ensures Generation(g) in d.content.now
  {
  }

  lemma SyncSettles(d: Disk, e: Disk)
    requires e.content == Synced(d.content)
    ensures AllSettled(e)
    ensures forall g: Digest :: Generation(g) in d.content.now ==> Settled(e, g)
  {
  }

  lemma PlaceKeepsDurable(s: State, h: Holder, t: State, sha: Sha)
    requires Durable(s) && Sound(s, sha) && s.holder == Some(h) && PlaceStep(s, h, sha) == Some(t)
    ensures Durable(t)
  {
    if h.pc.Rename? {
      RenameKeepsDurable(s, h, t, sha);
    } else if h.pc.SyncContent? {
      SyncShrinks(s.disk);
      SyncSettles(s.disk, t.disk);
      hide Sound, Synced, Shrinks, Settled, AllSettled, Possible;
      QuietKeepsNames(s, t);
    } else {
      hide Sound, Possible, HasRoom, NamesSettled, WaitingFresh;
    }
  }

  lemma BaseIsSettled(s: State)
    requires NamesSettled(s.disk) && Honest(s.disk.manifests) && ReadManifest(s.disk).Some?
    ensures Settled(s.disk, ReadManifest(s.disk).value)
  {
    assert Lookup(s.disk.manifests.now, Active) in Possible(s.disk.manifests, Active);
    hide Possible, Settled;
  }

  lemma ActiveAfter(s: State, h: Holder, t: State)
    requires Honest(s.disk.manifests) && ActivateStep(s, h) == Some(t)
    ensures t.disk.content == s.disk.content
    ensures Possible(t.disk.manifests, Active) <=
              if h.pc.Persist? then Possible(s.disk.manifests, Active) + {Some(h.file)}
              else Possible(s.disk.manifests, Active)
  {
    PersistedEntry(s.disk.manifests, h.file);
    PersistedEntry(s.disk.manifests, s.disk.next);
    ActiveEntry(s.disk.manifests, h.file);
    hide Possible, Honest, Link, Unlink, Synced, ReadManifest;
  }

  lemma FilesAfter(s: State, h: Holder, t: State, f: nat)
    requires ActivateStep(s, h) == Some(t) && f in s.disk.files
    requires h.pc.WriteManifest? ==> f != s.disk.next
    requires h.pc.SyncManifest? ==> f != h.file
    ensures f in t.disk.files && t.disk.files[f] == s.disk.files[f]
  {
    hide Link, Unlink, Synced, ReadManifest;
  }

  // A manifest step leaves the generations alone and can only bring the holder's own file into place.
  lemma ActivateManifests(s: State, h: Holder, t: State, x: Option<nat>)
    requires FilesOk(s) && Honest(s.disk.manifests) && s.holder == Some(h) && ActivateStep(s, h) == Some(t)
    requires x.Some? && x in Possible(t.disk.manifests, Active)
    ensures x.value in s.disk.files && x.value in t.disk.files && t.disk.files[x.value] == s.disk.files[x.value]
    ensures x in Possible(s.disk.manifests, Active) || (h.pc.Persist? && x.value == h.file)
  {
    ActiveAfter(s, h, t);
    hide Possible, Honest, ActivateStep;
    FilesAfter(s, h, t, x.value);
  }

  lemma ActivateKeepsNames(s: State, h: Holder, t: State)
    requires Durable(s) && FilesOk(s) && Honest(s.disk.manifests) && s.holder == Some(h)
    requires ActivateStep(s, h) == Some(t)
    ensures NamesSettled(t.disk)
  {
    if h.pc.Persist? {
      HolderIsSettled(s.disk, h);
    }
    ActiveAfter(s, h, t);
    hide Possible, Honest, ActivateStep, Settled, AllSettled, OthersSettled, WaitingFresh;
    forall x | x in Possible(t.disk.manifests, Active) && x.Some?
      ensures x.value in t.disk.files && Settled(t.disk, t.disk.files[x.value].digest)
    {
      ActivateManifests(s, h, t, x);
      SameContentSettled(s.disk, t.disk, t.disk.files[x.value].digest);
    }
  }

  lemma SameContentSettled(d: Disk, e: Disk, g: Digest)
    requires e.content == d.content
    ensures Settled(e, g) <==> Settled(d, g)
  {
  }

  lemma HolderIsSettled(d: Disk, h: Holder)
    requires Activating(h.pc) && HolderFresh(d, h)
    ensures Settled(d, h.request.digest)
  {
  }

  lemma ActivateKeepsDurable(s: State, h: Holder, t: State)
    requires Durable(s) && FilesOk(s) && Honest(s.disk.manifests) && s.holder == Some(h)
    requires ActivateStep(s, h) == Some(t)
    ensures Durable(t)
  {
    ActivateKeepsNames(s, h, t);
    hide FilesOk, Honest, NamesSettled, Link, Unlink, Synced, ReadManifest;
    assert t.disk.content == s.disk.content && t.renames == s.renames && t.waiting == s.waiting;
    assert AllSettled(t.disk) <==> AllSettled(s.disk);
    assert Settled(t.disk, h.request.digest) <==> Settled(s.disk, h.request.digest);
    hide Possible, Settled, AllSettled, OthersSettled;
  }

  lemma HolderKeepsDurable(s: State, h: Holder, which: nat, t: State, sha: Sha)
    requires Durable(s) && Sound(s, sha) && FilesOk(s) && s.holder == Some(h)
    requires HolderStep(s, h, sha, which) == Some(t)
    ensures Durable(t)
  {
    hide RecoverStep, StageStep, PlaceStep, ActivateStep, GenerationsOk, Bounded, HolderOk, Honest, FilesOk;
    match h.pc
    case RecoverContent => RecoverKeepsDurable(s, h, which, t);
    case SyncRecoveredContent => RecoverKeepsDurable(s, h, which, t);
    case RecoverManifests => RecoverKeepsDurable(s, h, which, t);
    case SyncRecoveredManifests => RecoverKeepsDurable(s, h, which, t);
    case ReadBase => BaseKeepsDurable(s, h, which, t, sha);
    case Stage => StageKeepsDurable(s, h, t, sha);
    case WriteFile => StageKeepsDurable(s, h, t, sha);
    case SyncFile => StageKeepsDurable(s, h, t, sha);
    case SyncStaging => StageKeepsDurable(s, h, t, sha);
    case CheckDigest => StageKeepsDurable(s, h, t, sha);
    case CheckDestination => PlaceKeepsDurable(s, h, t, sha);
    case CheckCapacity => PlaceKeepsDurable(s, h, t, sha);
    case Rename => PlaceKeepsDurable(s, h, t, sha);
    case SyncContent => PlaceKeepsDurable(s, h, t, sha);
    case WriteManifest => ActivateKeepsDurable(s, h, t);
    case SyncManifest => ActivateKeepsDurable(s, h, t);
    case CheckBase => ActivateKeepsDurable(s, h, t);
    case Persist => ActivateKeepsDurable(s, h, t);
    case SyncManifests => ActivateKeepsDurable(s, h, t);
    case Release => hide NamesSettled, Settled;
  }

  lemma BaseKeepsDurable(s: State, h: Holder, which: nat, t: State, sha: Sha)
    requires Durable(s) && Honest(s.disk.manifests) && s.holder == Some(h) && h.pc.ReadBase?
    requires HolderStep(s, h, sha, which) == Some(t)
    ensures Durable(t)
  {
    if ReadManifest(s.disk).Some? {
      BaseIsSettled(s);
    }
    hide NamesSettled, Settled, AllSettled, OthersSettled, ReadManifest, Honest;
  }

  lemma WaitingKeepsDurable(s: State, a: Action, t: State, sha: Sha)
    requires Durable(s) && Honest(s.disk.content) && Honest(s.disk.manifests)
    requires a.SyncContentDir? || a.SyncManifestDir?
    requires Step(s, a, sha) == Some(t)
    ensures Durable(t)
  {
    SyncShrinks(s.disk);
    ManifestsDoNotMatter(s.disk, Synced(s.disk.manifests));
    ShrinkingKeepsSettled(s.disk, t.disk);
    ActiveEntry(s.disk.manifests, 0);
    if a.SyncContentDir? {
      SyncSettles(s.disk, t.disk);
    }
    hide Possible, Shrinks, Synced, Settled, AllSettled, OthersSettled, Honest;
  }

  lemma GiveUpKeepsDurable(s: State, content: bool, manifest: bool, t: State, sha: Sha)
    requires Durable(s) && Honest(s.disk.content) && Honest(s.disk.manifests)
    requires Step(s, GiveUp(content, manifest), sha) == Some(t)
    ensures Durable(t)
  {
    var h := s.holder.value;
    UnlinkShrinks(s.disk, h.bundle);
    ManifestsDoNotMatter(s.disk, t.disk.manifests);
    ActiveEntry(s.disk.manifests, h.file);
    assert Shrinks(s.disk, t.disk);
    hide Possible, Shrinks, Unlink, Settled, AllSettled, OthersSettled, Honest;
    QuietKeepsNames(s, t);
  }

  lemma PowerLossKeepsDurable(s: State, d: Disk, sha: Sha)
    requires NamesSettled(s.disk) && FilesOk(s) && DiskSurvives(s.disk, d)
    ensures NamesSettled(d)
  {
    forall g: Digest | Settled(s.disk, g) ensures Settled(d, g) {
      assert Lookup(d.content.now, Generation(g)) in Possible(s.disk.content, Generation(g));
    }
    assert Possible(d.manifests, Active) == {Lookup(d.manifests.now, Active)};
    assert Lookup(d.manifests.now, Active) in Possible(s.disk.manifests, Active);
    hide Possible, Settled;
  }

  lemma StepKeepsDurable(s: State, a: Action, t: State, sha: Sha)
    requires Durable(s) && Sound(s, sha) && FilesOk(s) && Fresh(s, a) && Step(s, a, sha) == Some(t)
    ensures Durable(t)
  {
    hide HolderStep, GenerationsOk, Bounded, Honest, HolderOk, DiskSurvives, FilesOk, NamesSettled, Settled, AllSettled;
    hide OthersSettled, Possible;
    match a
    case SyncContentDir(p) => WaitingKeepsDurable(s, a, t, sha);
    case SyncManifestDir(p) => WaitingKeepsDurable(s, a, t, sha);
    case Work(which) => HolderKeepsDurable(s, s.holder.value, which, t, sha);
    case GiveUp(content, manifest) => GiveUpKeepsDurable(s, content, manifest, t, sha);
    case PowerLoss(d) => PowerLossKeepsDurable(s, d, sha);
    case _ =>
  }

  lemma {:induction false} FreshRunIsDurable(actions: seq<Action>, sha: Sha)
    requires Run(actions, sha).Some? && FreshRun(actions, sha)
    ensures Durable(Run(actions, sha).value)
  {
    if actions != [] {
      var n := |actions| - 1;
      var before := actions[..n];
      assert FreshRun(before, sha) by {
        hide Run, Fresh;
        assert forall i | 0 <= i < n :: before[..i] == actions[..i] && before[i] == actions[i];
      }
      assert Fresh(Run(before, sha).value, actions[n]);
      FreshRunIsDurable(before, sha);
      RunIsSound(before, sha);
      RunKeepsFiles(before, sha);
      hide Durable, Sound, FilesOk, Step, Fresh, FreshRun;
      StepKeepsDurable(Run(before, sha).value, actions[n], Run(actions, sha).value, sha);
    }
  }

  /** When every process takes the lock with no generation renamed since it synced the content directory, the active
      manifest names a complete generation with the matching digest, now and after any power loss at any step. */
  lemma FreshRunsAreSafe(actions: seq<Action>, sha: Sha)
    requires Run(actions, sha).Some? && FreshRun(actions, sha)
    ensures Safe(Run(actions, sha).value.disk, sha) && Loads(Run(actions, sha).value.disk, sha)
  {
    var s := Run(actions, sha).value;
    FreshRunIsDurable(actions, sha);
    SafeExactly(actions, sha);
    RunIsSound(actions, sha);
    hide Run, Safe, FreshRun, WaitingFresh, HolderFresh;
    if ReadManifest(s.disk).Some? {
      BaseIsSettled(s);
      SettledIsThere(s.disk, ReadManifest(s.disk).value);
      VisibleLoads(s, sha, ReadManifest(s.disk).value);
    }
  }

  lemma VisibleLoads(s: State, sha: Sha, digest: Digest)
    requires Sound(s, sha) && Generation(digest) in s.disk.content.now
    ensures ContentOf(s.disk, Generation(digest)).Some?
    ensures sha(ContentOf(s.disk, Generation(digest)).value) == digest
  {
    assert Lookup(s.disk.content.now, Generation(digest)) in Possible(s.disk.content, Generation(digest));
    hide Possible, Bounded, HolderOk;
  }
}
