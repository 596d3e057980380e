// Which update the catalog is at after a power loss: the last one that completed, or one that has swapped the manifest
// since.
module ActivationHistory {
  import opened Common
  import opened Activation
  import opened ActivationSafety
  import opened ActivationDurability

  // The digest of the last update that completed, and the digests of the updates that swapped the manifest after it.
  datatype Past = Past(completed: Option<Digest>, swapped: set<Digest>)

  function NextPast(w: Past, s: State, a: Action): Past {
    if !a.Work? || s.holder.None? then w
    else
      var h := s.holder.value;
      if h.pc.Persist? then w.(swapped := w.swapped + {h.request.digest})
      else if h.pc.SyncManifests? then Past(Some(h.request.digest), {})
      else w
  }

  ghost function PastOf(actions: seq<Action>, sha: Sha): Past
    requires Run(actions, sha).Some?
  {
    if actions == [] then Past(None, {})
    else
      var before := actions[..|actions| - 1];
      NextPast(PastOf(before, sha), Run(before, sha).value, actions[|actions| - 1])
  }

  // The digest is that of the last completed update or of one that swapped the manifest after it.
  predicate Recent(w: Past, digest: Digest) {
    w.completed == Some(digest) || digest in w.swapped
  }

  // What `active.json` may turn out to be: absent only while no update has completed, and otherwise a recent manifest.
  ghost predicate Remembered(d: Disk, w: Past) {
    forall x | x in Possible(d.manifests, Active) ::
      match x
      case None => w.completed.None?
      case Some(f) => f in d.files && Recent(w, d.files[f].digest)
  }

  // The holder that has swapped the manifest sees its own in place, and once it has synced the directory nothing else
  // can be there.
  ghost predicate Swapped(d: Disk, w: Past, h: Holder) {
    && (h.pc.SyncManifests? || h.pc.Release? ==>
          Lookup(d.manifests.now, Active) == Some(h.file)
          && h.file in d.files && d.files[h.file].digest == h.request.digest)
    && (h.pc.Release? ==>
          Possible(d.manifests, Active) == {Some(h.file)} && w == Past(Some(h.request.digest), {}))
  }

  ghost predicate Historic(s: State, w: Past) {
    Remembered(s.disk, w) && (s.holder.Some? ==> Swapped(s.disk, w, s.holder.value))
  }

  // ---------------------------------------------------------------- every step keeps the history

  lemma FewerRemembered(d: Disk, e: Disk, w: Past)
    requires Remembered(d, w) && e.files == d.files
    requires Possible(e.manifests, Active) <= Possible(d.manifests, Active)
    ensures Remembered(e, w)
  {
    hide Possible, Recent;
  }

  lemma EarlierKeepsHistory(s: State, h: Holder, which: nat, t: State, sha: Sha)
    requires Honest(s.disk.manifests) && s.holder == Some(h) && HolderStep(s, h, sha, which) == Some(t)
    requires !h.pc.WriteManifest? && !Writing(h.pc) && !h.pc.SyncManifests? && !h.pc.Release?
    ensures Possible(t.disk.manifests, Active) <= Possible(s.disk.manifests, Active) && t.disk.files == s.disk.files
    ensures t.holder.Some? && !t.holder.value.pc.SyncManifests? && !t.holder.value.pc.Release?
  {
    HolderKeepsManifests(s, h, sha, which, t);
    hide Possible, Honest, Link, Unlink, Synced, HasRoom, StagingLeft, ManifestStagingLeft;
  }

  lemma WritingKeepsHistory(s: State, w: Past, h: Holder, t: State)
    requires Historic(s, w) && FilesOk(s) && Honest(s.disk.manifests) && s.holder == Some(h)
    requires h.pc.WriteManifest? || h.pc.SyncManifest? || h.pc.CheckBase?
    requires ActivateStep(s, h) == Some(t)
    ensures Historic(t, w)
  {
    PersistedEntry(s.disk.manifests, s.disk.next);
    hide Possible, Honest, Recent, Link, Unlink, Synced, ReadManifest;
  }

  lemma PersistKeepsHistory(s: State, w: Past, h: Holder, t: State)
    requires Historic(s, w) && FilesOk(s) && Honest(s.disk.manifests) && s.holder == Some(h) && h.pc.Persist?
    requires ActivateStep(s, h) == Some(t)
    ensures Historic(t, w.(swapped := w.swapped + {h.request.digest}))
  {
    PersistedEntry(s.disk.manifests, h.file);
    hide Possible, Honest;
  }

  lemma CompletionKeepsHistory(s: State, w: Past, h: Holder, t: State)
    requires Historic(s, w) && Honest(s.disk.manifests) && s.holder == Some(h) && h.pc.SyncManifests?
    requires ActivateStep(s, h) == Some(t)
    ensures Historic(t, Past(Some(h.request.digest), {}))
  {
    ActiveEntry(s.disk.manifests, h.file);
    hide Possible, Honest;
  }

  // The five steps that write and swap a manifest.
  lemma SwapKeepsHistory(s: State, w: Past, h: Holder, which: nat, t: State)
    requires Historic(s, w) && FilesOk(s) && Honest(s.disk.manifests) && s.holder == Some(h)
    requires ActivateStep(s, h) == Some(t)
    ensures Historic(t, NextPast(w, s, Work(which)))
  {
    hide Historic, FilesOk, Honest, ReadManifest, Link, Unlink, Synced;
    if h.pc.Persist? {
      PersistKeepsHistory(s, w, h, t);
    } else if h.pc.SyncManifests? {
      CompletionKeepsHistory(s, w, h, t);
    } else {
      WritingKeepsHistory(s, w, h, t);
    }
  }

  lemma HolderKeepsHistory(s: State, w: Past, h: Holder, which: nat, t: State, sha: Sha)
    requires Historic(s, w) && FilesOk(s) && Honest(s.disk.manifests) && s.holder == Some(h)
    requires HolderStep(s, h, sha, which) == Some(t)
    ensures Historic(t, NextPast(w, s, Work(which)))
  {
    hide FilesOk, Honest, Remembered, RecoverStep, StageStep, PlaceStep, ActivateStep;
    if h.pc.WriteManifest? || Writing(h.pc) || h.pc.SyncManifests? {
      SwapKeepsHistory(s, w, h, which, t);
    } else if !h.pc.Release? {
      EarlierKeepsHistory(s, h, which, t, sha);
      FewerRemembered(s.disk, t.disk, w);
    }
  }

  lemma PowerLossKeepsHistory(s: State, w: Past, d: Disk)
    requires Remembered(s.disk, w) && FilesOk(s) && DiskSurvives(s.disk, d)
    ensures Remembered(d, w)
  {
    assert Possible(d.manifests, Active) == {Lookup(d.manifests.now, Active)};
    assert Lookup(d.manifests.now, Active) in Possible(s.disk.manifests, Active);
    hide Possible, Recent;
  }

  lemma StepKeepsHistory(s: State, w: Past, a: Action, t: State, sha: Sha)
    requires Historic(s, w) && FilesOk(s) && Honest(s.disk.manifests) && Step(s, a, sha) == Some(t)
    ensures Historic(t, NextPast(w, s, a))
  {
    hide HolderStep, DiskSurvives, FilesOk, Honest, Remembered, Possible, Synced, Unlink;
    match a
    case Work(which) => HolderKeepsHistory(s, w, s.holder.value, which, t, sha);
    case PowerLoss(d) => PowerLossKeepsHistory(s, w, d);
    case SyncManifestDir(p) => SyncKeepsHistory(s, w, t.disk);
    case GiveUp(content, manifest) =>
      ActiveEntry(s.disk.manifests, s.holder.value.file);
      FewerRemembered(s.disk, t.disk, w);
    case SyncContentDir(p) => FewerRemembered(s.disk, t.disk, w);
    case _ =>
  }

  lemma SyncKeepsHistory(s: State, w: Past, e: Disk)
    requires Historic(s, w) && Honest(s.disk.manifests) && e == s.disk.(manifests := Synced(s.disk.manifests))
    ensures Historic(s.(disk := e), w)
  {
    ActiveEntry(s.disk.manifests, 0);
    FewerRemembered(s.disk, e, w);
    hide Remembered, Possible, Honest;
  }

  lemma {:induction false} RunKeepsHistory(actions: seq<Action>, sha: Sha)
    requires Run(actions, sha).Some?
    ensures Historic(Run(actions, sha).value, PastOf(actions, sha))
  {
    if actions != [] {
      var before := actions[..|actions| - 1];
      RunKeepsHistory(before, sha);
      RunIsSound(before, sha);
      RunKeepsFiles(before, sha);
      hide Historic, FilesOk, Step, GenerationsOk, Bounded, HolderOk, Honest, NextPast;
      StepKeepsHistory(Run(before, sha).value, PastOf(before, sha), actions[|actions| - 1], Run(actions, sha).value,
                       sha);
    }
  }

  // ---------------------------------------------------------------- main results

  lemma SurvivingManifest(s: State, after: Disk)
    requires FilesOk(s) && DiskSurvives(s.disk, after)
    ensures
      match Lookup(after.manifests.now, Active)
      case None => None in Possible(s.disk.manifests, Active) && ReadManifest(after).None?
      case Some(f) =>
        && Some(f) in Possible(s.disk.manifests, Active) && f in s.disk.files
        && ReadManifest(after) == Some(s.disk.files[f].digest)
  {
    assert Lookup(after.manifests.now, Active) in Possible(s.disk.manifests, Active);
    hide Possible;
  }

  /** An update that has completed is the one that every power loss leaves, until another swaps the manifest. */
  lemma CompletedUpdateStays(actions: seq<Action>, sha: Sha, after: Disk)
    requires Run(actions, sha).Some? && Run(actions, sha).value.holder.Some?
    requires Run(actions, sha).value.holder.value.pc.Release?
    requires DiskSurvives(Run(actions, sha).value.disk, after)
    ensures ReadManifest(after) == Some(Run(actions, sha).value.holder.value.request.digest)
  {
    var s := Run(actions, sha).value;
    RunKeepsHistory(actions, sha);
    RunKeepsFiles(actions, sha);
    hide Run, FilesOk, DiskSurvives, Possible, Remembered;
    SurvivingManifest(s, after);
  }

  /** Whatever a power loss leaves names the last completed update or one that swapped the manifest after it; there is
      no manifest only when no update has ever completed. */
  lemma SurvivorIsRecent(actions: seq<Action>, sha: Sha, after: Disk)
    requires Run(actions, sha).Some? && DiskSurvives(Run(actions, sha).value.disk, after)
    ensures
      var w := PastOf(actions, sha);
      match ReadManifest(after)
      case None => w.completed.None?
      case Some(digest) => w.completed == Some(digest) || digest in w.swapped
  {
    var s := Run(actions, sha).value;
    RunKeepsHistory(actions, sha);
    RunKeepsFiles(actions, sha);
    hide Run, PastOf, FilesOk, DiskSurvives, Possible;
    SurvivingManifest(s, after);
  }

  lemma {:induction false} CompletionIsNotForgotten(actions: seq<Action>, more: seq<Action>, sha: Sha)
    requires Run(actions, sha).Some? && Run(actions + more, sha).Some? && PastOf(actions, sha).completed.Some?
    ensures PastOf(actions + more, sha).completed.Some?
  {
    if more == [] {
      assert actions + more == actions;
    } else {
      var n := |more| - 1;
      assert (actions + more)[..|actions| + n] == actions + more[..n];
      hide Step;
      CompletionIsNotForgotten(actions, more[..n], sha);
    }
  }

  /** Once an update has completed, no later step and no power loss leaves the store without an active manifest. */
  lemma NeverWithoutCatalog(actions: seq<Action>, more: seq<Action>, sha: Sha, after: Disk)
    requires Run(actions, sha).Some? && PastOf(actions, sha).completed.Some?
    requires Run(actions + more, sha).Some? && DiskSurvives(Run(actions + more, sha).value.disk, after)
    ensures None !in Possible(Run(actions + more, sha).value.disk.manifests, Active)
    ensures ReadManifest(after).Some?
  {
    CompletionIsNotForgotten(actions, more, sha);
    RunKeepsHistory(actions + more, sha);
    hide Run, PastOf, DiskSurvives, ReadManifest, Possible;
    SurvivorIsRecent(actions + more, sha, after);
  }

  /** Readers after a power loss see the last completed catalog or one swapped in after it, and see it whole, when every
      process takes the lock with no generation renamed since it synced the content directory. */
  lemma ReadersSeeOldOrNew(actions: seq<Action>, sha: Sha, after: Disk)
    requires Run(actions, sha).Some? && FreshRun(actions, sha) && DiskSurvives(Run(actions, sha).value.disk, after)
    ensures
      var w := PastOf(actions, sha);
      match ReadManifest(after)
      case None => w.completed.None?
      case Some(digest) =>
        && (w.completed == Some(digest) || digest in w.swapped)
        && ContentOf(after, Generation(digest)).Some? && sha(ContentOf(after, Generation(digest)).value) == digest
  {
    FreshRunsAreSafe(actions, sha);
    SurvivorIsRecent(actions, sha, after);
    hide Run, PastOf, FreshRun, DiskSurvives, ReadManifest, ContentOf;
    assert Loads(after, sha);
  }
}
