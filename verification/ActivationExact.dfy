// Which runs keep the catalog safe all through: exactly those in which every update swaps in a manifest whose
// generation has been synced into place.
module ActivationExact {
  import opened Common
  import opened Activation
  import opened ActivationSafety
  import opened ActivationDurability

  // ---------------------------------------------------------------- what was settled stays settled

  ghost predicate StaySettled(d: Disk, e: Disk) {
    forall g: Digest | Settled(d, g) :: Settled(e, g)
  }

  lemma RenameKeepsSettled(s: State, h: Holder, t: State, sha: Sha)
    requires Sound(s, sha) && s.holder == Some(h) && h.pc.Rename? && PlaceStep(s, h, sha) == Some(t)
    ensures StaySettled(s.disk, t.disk)
  {
    assert Generation(h.request.digest) !in s.disk.content.now;
    RenamedEntries(s.disk.content, h.bundle, h.request.digest);
    hide Sound, Possible, Link, Unlink;
    forall g: Digest | Settled(s.disk, g) ensures Settled(t.disk, g) {
      assert Lookup(t.disk.content.now, Generation(g)) == Lookup(s.disk.content.now, Generation(g));
    }
  }

  lemma PlaceKeepsSettled(s: State, h: Holder, t: State, sha: Sha)
    requires Sound(s, sha) && s.holder == Some(h) && PlaceStep(s, h, sha) == Some(t)
    ensures StaySettled(s.disk, t.disk)
  {
    if h.pc.Rename? {
      RenameKeepsSettled(s, h, t, sha);
    } else if h.pc.SyncContent? {
      SyncShrinks(s.disk);
      hide Sound, Synced, Shrinks, Settled;
      ShrinkingKeepsSettled(s.disk, t.disk);
    } else {
      hide Sound, HasRoom, Settled;
    }
  }

  lemma HolderKeepsSettled(s: State, h: Holder, which: nat, t: State, sha: Sha)
    requires Sound(s, sha) && s.holder == Some(h) && HolderStep(s, h, sha, which) == Some(t)
    ensures StaySettled(s.disk, t.disk)
  {
    hide RecoverStep, StageStep, PlaceStep, ActivateStep, GenerationsOk, Bounded, HolderOk, Honest, Settled, Shrinks;
    match h.pc
    case RecoverContent => RecoverKeepsSettled(s, h, which, t);
    case SyncRecoveredContent => RecoverKeepsSettled(s, h, which, t);
    case RecoverManifests => RecoverKeepsSettled(s, h, which, t);
    case SyncRecoveredManifests => RecoverKeepsSettled(s, h, which, t);
    case Stage => StageKeepsSettled(s, h, t, sha);
    case WriteFile => StageKeepsSettled(s, h, t, sha);
    case SyncFile => StageKeepsSettled(s, h, t, sha);
    case SyncStaging => StageKeepsSettled(s, h, t, sha);
    case CheckDigest => StageKeepsSettled(s, h, t, sha);
    case CheckDestination => PlaceKeepsSettled(s, h, t, sha);
    case CheckCapacity => PlaceKeepsSettled(s, h, t, sha);
    case Rename => PlaceKeepsSettled(s, h, t, sha);
    case SyncContent => PlaceKeepsSettled(s, h, t, sha);
    case WriteManifest => ActivateKeepsSettled(s, h, t);
    case SyncManifest => ActivateKeepsSettled(s, h, t);
    case CheckBase => ActivateKeepsSettled(s, h, t);
    case Persist => ActivateKeepsSettled(s, h, t);
    case SyncManifests => ActivateKeepsSettled(s, h, t);
    case _ =>
  }

  lemma RecoverKeepsSettled(s: State, h: Holder, which: nat, t: State)
    requires Honest(s.disk.content) && Honest(s.disk.manifests) && s.holder == Some(h)
    requires RecoverStep(s, h, which) == Some(t)
    ensures StaySettled(s.disk, t.disk)
  {
    RecoverShrinks(s, h, which, t);
    hide RecoverStep, Shrinks, Settled;
    ShrinkingKeepsSettled(s.disk, t.disk);
  }

  lemma StageKeepsSettled(s: State, h: Holder, t: State, sha: Sha)
    requires Sound(s, sha) && s.holder == Some(h) && h.request.Install? && StageStep(s, h, sha) == Some(t)
    ensures StaySettled(s.disk, t.disk)
  {
    hide Sound, StageStep, Shrinks, Settled;
    StageShrinks(s, h, t, sha);
    ShrinkingKeepsSettled(s.disk, t.disk);
  }

  lemma ActivateKeepsSettled(s: State, h: Holder, t: State)
    requires Honest(s.disk.manifests) && ActivateStep(s, h) == Some(t)
    ensures StaySettled(s.disk, t.disk)
  {
    ActiveAfter(s, h, t);
    hide ActivateStep;
  }

  // ---------------------------------------------------------------- only a swap can name an unsettled generation

  // The step renames the holder's manifest into place.
  predicate Swaps(s: State, a: Action) {
    a.Work? && s.holder.Some? && s.holder.value.pc.Persist?
  }

  // The steps of the holder but the swap bring no manifest into place and change none that may be there.
  lemma HolderKeepsNames(s: State, h: Holder, which: nat, t: State, sha: Sha)
    requires Sound(s, sha) && FilesOk(s) && NamesSettled(s.disk) && s.holder == Some(h) && !h.pc.Persist?
    requires HolderStep(s, h, sha, which) == Some(t)
    ensures NamesSettled(t.disk)
  {
    HolderKeepsSettled(s, h, which, t, sha);
    assert Honest(s.disk.manifests);
    hide Sound, FilesOk, Honest, Settled, Possible, RecoverStep, StageStep, PlaceStep, ActivateStep;
    if h.pc.WriteManifest? || Writing(h.pc) || h.pc.SyncManifests? {
      forall x | x in Possible(t.disk.manifests, Active) && x.Some?
        ensures x.value in t.disk.files && Settled(t.disk, t.disk.files[x.value].digest)
      {
        ActivateManifests(s, h, t, x);
      }
    } else if !h.pc.Release? {
      HolderKeepsManifests(s, h, sha, which, t);
    }
  }

  lemma GiveUpKeepsNames(s: State, content: bool, manifest: bool, t: State, sha: Sha)
    requires Sound(s, sha) && NamesSettled(s.disk) && Step(s, GiveUp(content, manifest), sha) == Some(t)
    ensures NamesSettled(t.disk)
  {
    UnlinkShrinks(s.disk, s.holder.value.bundle);
    ActiveEntry(s.disk.manifests, s.holder.value.file);
    ManifestsDoNotMatter(s.disk, t.disk.manifests);
    assert Shrinks(s.disk, t.disk);
    hide Sound, Possible, Shrinks, Unlink, Settled;
    ShrinkingKeepsSettled(s.disk, t.disk);
  }

  lemma SyncsKeepNames(s: State, a: Action, t: State, sha: Sha)
    requires Sound(s, sha) && NamesSettled(s.disk) && (a.SyncContentDir? || a.SyncManifestDir?)
    requires Step(s, a, sha) == Some(t)
    ensures NamesSettled(t.disk)
  {
    SyncShrinks(s.disk);
    ActiveEntry(s.disk.manifests, 0);
    hide Sound, Possible, Shrinks, Synced, Settled;
    ShrinkingKeepsSettled(s.disk, s.disk.(content := Synced(s.disk.content)));
    if a.SyncManifestDir? {
      SameContent(s.disk, t.disk);
    }
  }

  lemma SameContent(d: Disk, e: Disk)
    requires e.content == d.content
    ensures StaySettled(d, e)
  {
  }

  lemma StepKeepsNamesExactly(s: State, a: Action, t: State, sha: Sha)
    requires Sound(s, sha) && FilesOk(s) && NamesSettled(s.disk) && Step(s, a, sha) == Some(t)
    ensures NamesSettled(t.disk) <==> (Swaps(s, a) ==> Settled(s.disk, s.holder.value.request.digest))
  {
    assert Honest(s.disk.manifests);
    hide Sound, FilesOk, Honest, NamesSettled, Settled, DiskSurvives;
    if Swaps(s, a) {
      PersistNames(s, s.holder.value, t);
    } else {
      match a
      case Work(which) => HolderKeepsNames(s, s.holder.value, which, t, sha);
      case PowerLoss(d) => PowerLossKeepsDurable(s, d, sha);
      case GiveUp(content, manifest) => GiveUpKeepsNames(s, content, manifest, t, sha);
      case SyncContentDir(_) => SyncsKeepNames(s, a, t, sha);
      case SyncManifestDir(_) => SyncsKeepNames(s, a, t, sha);
      case _ => assert t.disk == s.disk;
    }
  }

  // ---------------------------------------------------------------- whole runs

  lemma PrefixStep(actions: seq<Action>, k: nat, sha: Sha)
    requires k < |actions| && Run(actions, sha).Some?
    ensures Run(actions[..k], sha).Some? && Run(actions[..k + 1], sha).Some?
    ensures Run(actions[..k + 1], sha) == Step(Run(actions[..k], sha).value, actions[k], sha)
  {
    PrefixRuns(actions, k + 1, sha);
    assert actions[..k + 1][..k] == actions[..k];
    hide Step;
  }

  lemma {:induction false} PrefixRuns(actions: seq<Action>, k: nat, sha: Sha)
    requires k <= |actions| && Run(actions, sha).Some?
    ensures Run(actions[..k], sha).Some?
    decreases |actions|
  {
    hide Step;
    if k == |actions| {
      assert actions[..k] == actions;
    } else {
      var before := actions[..|actions| - 1];
      PrefixRuns(before, k, sha);
      assert before[..k] == actions[..k];
    }
  }

  lemma SwapIsExact(actions: seq<Action>, k: nat, sha: Sha)
    requires k < |actions| && Run(actions, sha).Some? && SafeAt(actions, k, sha)
    ensures SafeAt(actions, k + 1, sha) <==> SwapIsSettled(actions, k, sha)
  {
    PrefixStep(actions, k, sha);
    var s, t := Run(actions[..k], sha).value, Run(actions[..k + 1], sha).value;
    SafeExactly(actions[..k], sha);
    SafeExactly(actions[..k + 1], sha);
    RunIsSound(actions[..k], sha);
    RunKeepsFiles(actions[..k], sha);
    hide Run, Step, Sound, FilesOk, NamesSettled, Settled, Safe;
    StepKeepsNamesExactly(s, actions[k], t, sha);
  }

  // After the first `k` steps the catalog loads whatever a power loss leaves.
  ghost predicate SafeAt(actions: seq<Action>, k: nat, sha: Sha) {
    k <= |actions| && Run(actions[..k], sha).Some? && Safe(Run(actions[..k], sha).value.disk, sha)
  }

  // Step `k`, if it swaps a manifest in, names a generation whose directory entry has been synced.
  ghost predicate SwapIsSettled(actions: seq<Action>, k: nat, sha: Sha) {
    k < |actions| && Run(actions[..k], sha).Some?
    && var s := Run(actions[..k], sha).value;
       (Swaps(s, actions[k]) ==> Settled(s.disk, s.holder.value.request.digest))
  }

  lemma {:induction false} SafeSoFar(actions: seq<Action>, k: nat, sha: Sha)
    requires k <= |actions| && Run(actions, sha).Some?
    requires forall i | 0 <= i < k :: SwapIsSettled(actions, i, sha)
    ensures SafeAt(actions, k, sha)
  {
    hide SwapIsSettled, Step;
    if k == 0 {
      EmptyIsSafe(sha);
    } else {
      hide SafeAt;
      SafeSoFar(actions, k - 1, sha);
      SwapIsExact(actions, k - 1, sha);
    }
  }

  lemma EmptyIsSafe(sha: Sha)
    ensures Safe(EMPTY.disk, sha)
  {
    forall after | DiskSurvives(EMPTY.disk, after) ensures Loads(after, sha) {
      assert Lookup(after.manifests.now, Active) in Possible(EMPTY.disk.manifests, Active);
    }
  }

  /** The catalog survives a power loss after any step of a run exactly when every manifest the run swaps in names a
      generation whose directory entry has been synced by then. */
  lemma RunIsSafeExactly(actions: seq<Action>, sha: Sha)
    requires Run(actions, sha).Some?
    ensures (forall k | 0 <= k <= |actions| :: SafeAt(actions, k, sha))
            <==> (forall k | 0 <= k < |actions| :: SwapIsSettled(actions, k, sha))
  {
    hide Run, SafeAt, SwapIsSettled;
    if forall k | 0 <= k <= |actions| :: SafeAt(actions, k, sha) {
      forall k | 0 <= k < |actions| ensures SwapIsSettled(actions, k, sha) {
        SwapIsExact(actions, k, sha);
      }
    }
    if forall k | 0 <= k < |actions| :: SwapIsSettled(actions, k, sha) {
      forall k | 0 <= k <= |actions| ensures SafeAt(actions, k, sha) {
        SafeSoFar(actions, k, sha);
      }
    }
  }
}
