// A run in which an update syncs the content directory too early, and the catalog it activates can be lost.
module ActivationRuns {
  import opened Common
  import opened Activation
  import opened ActivationSafety
  import opened ActivationDurability

  ghost predicate Reachable(s: State, sha: Sha) {
    exists actions :: Run(actions, sha) == Some(s)
  }

  lemma Reach(s: State, a: Action, sha: Sha) returns (t: State)
    requires Reachable(s, sha) && Step(s, a, sha).Some?
    ensures Reachable(t, sha) && Step(s, a, sha) == Some(t)
  {
    hide Step;
    var actions :| Run(actions, sha) == Some(s);
    assert (actions + [a])[..|actions|] == actions;
    assert Run(actions + [a], sha) == Step(s, a, sha);
    t := Step(s, a, sha).value;
  }

  // Two processes have synced both directories and wait for the lock.
  lemma TwoWait(sha: Sha) returns (s: State)
    ensures Reachable(s, sha) && s.holder.None? && s.renames == 0
    ensures s.disk == EMPTY.disk
    ensures s.waiting == map[1 := Waiting(true, true, 0), 2 := Waiting(true, true, 0)]
  {
    assert Run([], sha) == Some(EMPTY);
    s := EMPTY;
    s := Reach(s, Start(1), sha);
    s := Reach(s, SyncContentDir(1), sha);
    s := Reach(s, SyncManifestDir(1), sha);
    s := Reach(s, Start(2), sha);
    s := Reach(s, SyncContentDir(2), sha);
    s := Reach(s, SyncManifestDir(2), sha);
    assert s.disk == EMPTY.disk;
  }

  const BYTES: Bytes := "x"

  function TheRequest(sha: Sha): Request {
    Install(BYTES, sha(BYTES))
  }

  // A process that has just taken the lock finds nothing to recover and no active manifest.
  lemma Recovers(s: State, sha: Sha) returns (t: State)
    requires Reachable(s, sha) && s.holder == Some(Holder(RecoverContent, TheRequest(sha), false, None, 0, 0))
    requires s.disk.manifests == Dir(map[], map[])
    requires forall n | n in s.disk.content.now :: n.Generation?
    ensures Reachable(t, sha) && t == s.(holder := Some(Holder(Stage, TheRequest(sha), false, None, 0, 0)))
  {
    t := Reach(s, Work(0), sha);
    t := Reach(t, Work(0), sha);
    t := Reach(t, Work(0), sha);
  }

  lemma StagesFile(s: State, sha: Sha) returns (t: State)
    requires Reachable(s, sha) && s.holder == Some(Holder(Stage, TheRequest(sha), false, None, 0, 0))
    ensures
      var id := s.disk.next;
      && Reachable(t, sha)
      && t.holder == Some(Holder(SyncStaging, TheRequest(sha), false, None, id, 0))
      && t.waiting == s.waiting && t.renames == s.renames
      && t.disk == s.disk.(content := Link(s.disk.content, Staging(id), id), next := id + 1,
                           bundles := s.disk.bundles[id := Bundle(Some(BYTES), true, false)])
  {
    hide Link;
    t := Reach(s, Work(0), sha);
    t := Reach(t, Work(0), sha);
    t := Reach(t, Work(0), sha);
  }

  // It writes and syncs its snapshot.
  lemma Stages(s: State, sha: Sha) returns (t: State)
    requires Reachable(s, sha) && s.holder == Some(Holder(Stage, TheRequest(sha), false, None, 0, 0))
    ensures
      var id := s.disk.next;
      && Reachable(t, sha)
      && t.holder == Some(Holder(CheckDestination, TheRequest(sha), false, None, id, 0))
      && t.waiting == s.waiting && t.renames == s.renames
      && t.disk == s.disk.(content := Link(s.disk.content, Staging(id), id), next := id + 1,
                           bundles := s.disk.bundles[id := Bundle(Some(BYTES), true, true)])
  {
    hide Link;
    t := StagesFile(s, sha);
    t := Reach(t, Work(0), sha);
    t := Reach(t, Work(0), sha);
  }

  // It writes and syncs the manifest.
  lemma Writes(s: State, sha: Sha, id: nat) returns (t: State)
    requires Reachable(s, sha) && s.holder == Some(Holder(WriteManifest, TheRequest(sha), false, None, id, 0))
    requires s.disk.manifests == Dir(map[], map[])
    ensures
      var f := s.disk.next;
      && Reachable(t, sha) && t.holder == Some(Holder(Persist, TheRequest(sha), false, None, id, f))
      && t.disk == s.disk.(manifests := Link(s.disk.manifests, ManifestStaging(f), f), next := f + 1,
                           files := s.disk.files[f := Manifest(sha(BYTES), true)])
  {
    t := Reach(s, Work(0), sha);
    assert Active !in t.disk.manifests.now;
    hide Link;
    t := Reach(t, Work(0), sha);
    t := Reach(t, Work(0), sha);
  }

  // It makes the generation active.
  lemma Activates(s: State, sha: Sha, id: nat) returns (t: State)
    requires Reachable(s, sha) && s.holder == Some(Holder(WriteManifest, TheRequest(sha), false, None, id, 0))
    requires s.disk.manifests == Dir(map[], map[])
    ensures Reachable(t, sha) && t.holder.Some? && t.holder.value.pc.Release?
    ensures t.disk.content == s.disk.content && Some(s.disk.next) in Possible(t.disk.manifests, Active)
    ensures s.disk.next in t.disk.files && t.disk.files[s.disk.next] == Manifest(sha(BYTES), true)
  {
    t := Writes(s, sha, id);
    t := Reach(t, Work(0), sha);
    assert t.disk.manifests.now[Active] == s.disk.next;
    hide Link, Unlink;
    t := Reach(t, Work(0), sha);
  }

  // The first gets the lock and stages its snapshot.
  lemma FirstStages(sha: Sha) returns (s: State)
    ensures Reachable(s, sha) && s.renames == 0 && s.waiting == map[2 := Waiting(true, true, 0)]
    ensures s.holder == Some(Holder(CheckDestination, TheRequest(sha), false, None, 0, 0))
    ensures s.disk.content == Link(Dir(map[], map[]), Staging(0), 0)
    ensures s.disk.bundles == map[0 := Bundle(Some(BYTES), true, true)]
    ensures s.disk.manifests == Dir(map[], map[]) && s.disk.files == map[] && s.disk.next == 1
  {
    s := TwoWait(sha);
    s := Reach(s, Acquire(1, TheRequest(sha)), sha);
    assert s.waiting == map[2 := Waiting(true, true, 0)];
    hide Step, Link;
    s := Recovers(s, sha);
    s := Stages(s, sha);
  }

  // It finds room for the generation.
  lemma FirstFits(sha: Sha) returns (s: State)
    ensures Reachable(s, sha) && s.renames == 0 && s.waiting == map[2 := Waiting(true, true, 0)]
    ensures s.holder == Some(Holder(Rename, TheRequest(sha), false, None, 0, 0))
    ensures s.disk.content == Link(Dir(map[], map[]), Staging(0), 0)
    ensures s.disk.bundles == map[0 := Bundle(Some(BYTES), true, true)]
    ensures s.disk.manifests == Dir(map[], map[]) && s.disk.files == map[] && s.disk.next == 1
  {
    s := FirstStages(sha);
    assert s.disk.content.now == map[Staging(0) := 0];
    assert Generations(s.disk.content.now) == {};
    assert HasRoom(s.disk, Staging(0), |BYTES|);
    hide HasRoom, Link;
    s := Reach(s, Work(0), sha);
    s := Reach(s, Work(0), sha);
  }

  // It renames the generation into place and is killed before it syncs the directory.
  lemma FirstDies(sha: Sha) returns (s: State)
    ensures Reachable(s, sha) && s.renames == 1 && s.waiting == map[2 := Waiting(true, true, 0)] && s.holder.None?
    ensures s.disk.content
            == Link(Unlink(Link(Dir(map[], map[]), Staging(0), 0), Staging(0)), Generation(sha(BYTES)), 0)
    ensures s.disk.bundles == map[0 := Bundle(Some(BYTES), true, true)]
    ensures s.disk.manifests == Dir(map[], map[]) && s.disk.files == map[] && s.disk.next == 1
  {
    s := FirstFits(sha);
    hide Link, Unlink;
    s := Reach(s, Work(0), sha);
    s := Reach(s, GiveUp(false, false), sha);
  }

  lemma Unsynced(sha: Sha, more: nat)
    ensures
      var c := Link(Unlink(Link(Dir(map[], map[]), Staging(0), 0), Staging(0)), Generation(sha(BYTES)), 0);
      var d := Link(c, Staging(more), more);
      && c.now == map[Generation(sha(BYTES)) := 0]
      && Generation(sha(BYTES)) in d.now && d.now[Generation(sha(BYTES))] == 0
      && None in Possible(d, Generation(sha(BYTES)))
  {
  }

  // The second takes the lock with its old sync and finds the generation in place.
  lemma SecondFindsIt(sha: Sha) returns (s: State)
    ensures Reachable(s, sha)
    ensures s.holder == Some(Holder(WriteManifest, TheRequest(sha), false, None, 1, 0))
    ensures None in Possible(s.disk.content, Generation(sha(BYTES)))
    ensures s.disk.manifests == Dir(map[], map[]) && s.disk.files == map[] && s.disk.next == 2
  {
    s := FirstDies(sha);
    Unsynced(sha, 1);
    hide Link, Unlink, Possible;
    s := Reach(s, Acquire(2, TheRequest(sha)), sha);
    s := Recovers(s, sha);
    s := Stages(s, sha);
    s := Reach(s, Work(0), sha);
  }

  /** Without the fresh sync the promise fails: the update completes, and a power loss leaves an active manifest whose
      generation is gone. */
  lemma StaleSyncIsUnsafe(sha: Sha)
    ensures exists s :: Reachable(s, sha) && s.holder.Some? && s.holder.value.pc.Release? && !Safe(s.disk, sha)
  {
    var s := SecondFindsIt(sha);
    s := Activates(s, sha, 1);
    hide Possible, Safe;
    var actions :| Run(actions, sha) == Some(s);
    RunIsSound(actions, sha);
    RunKeepsFiles(actions, sha);
    hide Sound, FilesOk, Run;
    UnsettledIsUnsafe(s, sha, 2);
  }
}
