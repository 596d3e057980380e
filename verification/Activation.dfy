// Installing and activating a catalog generation on a file system that can lose whatever was not synced.
module Activation {
  import opened Common

  type Bytes = string
  type Digest = string

  // SHA-256, of which nothing is assumed.
  type Sha = Bytes -> Digest

  const MAX_SNAPSHOT_BYTES := 134217728
  const MAX_GENERATIONS := 32
  const MAX_STORAGE_BYTES := 536870912

  // ---------------------------------------------------------------- the file system

  // The entries of a directory: what processes see now, and for names changed since the last sync every entry the name
  // may turn out to have after a power loss.
  datatype Dir<N(==)> = Dir(now: map<N, nat>, may: map<N, set<Option<nat>>>)

  function Lookup<N(==)>(entries: map<N, nat>, name: N): Option<nat> {
    if name in entries then Some(entries[name]) else None
  }

  function Possible<N(==)>(d: Dir<N>, name: N): set<Option<nat>> {
    if name in d.may then d.may[name] else {Lookup(d.now, name)}
  }

  function Link<N(==)>(d: Dir<N>, name: N, inode: nat): Dir<N> {
    Dir(d.now[name := inode], d.may[name := Possible(d, name) + {Some(inode)}])
  }

  function Unlink<N(==)>(d: Dir<N>, name: N): Dir<N> {
    Dir(d.now - {name}, d.may[name := Possible(d, name) + {None}])
  }

  function Synced<N(==)>(d: Dir<N>): Dir<N> {
    Dir(d.now, map[])
  }

  // Each name independently has one of its possible entries after a power loss.
  ghost predicate Survives<N(!new)>(before: Dir<N>, after: Dir<N>) {
    after.may == map[] && forall name :: Lookup(after.now, name) in Possible(before, name)
  }

  // A generation directory with its snapshot file, if the file has been created.
  datatype Bundle = Bundle(content: Option<Bytes>, fileSynced: bool, entrySynced: bool)

  predicate Lasting(b: Bundle) {
    b.content.Some? && b.fileSynced && b.entrySynced
  }

  // What was synced stays; anything else may be gone or hold other bytes.
  predicate BundleSurvives(before: Bundle, after: Bundle) {
    if Lasting(before) then after == before else after.fileSynced && after.entrySynced
  }

  // The active manifest, as far as activation is concerned: the generation it names.
  datatype Manifest = Manifest(digest: Digest, synced: bool)

  predicate ManifestSurvives(before: Manifest, after: Manifest) {
    if before.synced then after == before else after.synced
  }

  datatype ContentName = Generation(digest: Digest) | Staging(id: nat)

  datatype ManifestName = Active | ManifestStaging(id: nat)

  datatype Disk = Disk(
    content: Dir<ContentName>,
    bundles: map<nat, Bundle>,
    manifests: Dir<ManifestName>,
    files: map<nat, Manifest>,
    next: nat)

  // ---------------------------------------------------------------- processes

  datatype Request = Install(bytes: Bytes, digest: Digest) | Refresh(digest: Digest)

  datatype Pc =
    | RecoverContent | SyncRecoveredContent | RecoverManifests | SyncRecoveredManifests | ReadBase
    | Stage | WriteFile | SyncFile | SyncStaging | CheckDigest | CheckDestination | CheckCapacity | Rename | SyncContent
    | WriteManifest | SyncManifest | CheckBase | Persist | SyncManifests | Release

  // The process that holds the lock, with the staging entries it has made.
  datatype Holder = Holder(
    pc: Pc,
    request: Request,
    removed: bool,
    base: Option<Digest>,
    bundle: nat,
    file: nat)

  // A process in `begin_update` before it has the lock: whether it has synced the two directories, and how many
  // generations had been renamed into place when it synced the first.
  datatype Waiting = Waiting(contentSynced: bool, manifestsSynced: bool, seen: nat)

  datatype State = State(disk: Disk, holder: Option<Holder>, waiting: map<nat, Waiting>, renames: nat)

  const EMPTY := State(Disk(Dir(map[], map[]), map[], Dir(map[], map[]), map[], 0), None, map[], 0)

  // ---------------------------------------------------------------- what the holder reads

  // The digest the active manifest names.
  function ReadManifest(d: Disk): Option<Digest> {
    if Active in d.manifests.now && d.manifests.now[Active] in d.files then
      Some(d.files[d.manifests.now[Active]].digest)
    else None
  }

  function ContentOf(d: Disk, name: ContentName): Option<Bytes> {
    if name in d.content.now && d.content.now[name] in d.bundles then d.bundles[d.content.now[name]].content else None
  }

  predicate StagingLeft(content: map<ContentName, nat>, own: Option<ContentName>) {
    exists n | n in content :: n.Staging? && Some(n) != own
  }

  predicate ManifestStagingLeft(manifests: map<ManifestName, nat>) {
    exists n | n in manifests :: n.ManifestStaging?
  }

  function Generations(content: map<ContentName, nat>): set<ContentName> {
    set n | n in content && n.Generation?
  }

  function SizeOf(d: Disk, name: ContentName): nat {
    match ContentOf(d, name) case None => 0 case Some(bytes) => |bytes|
  }

  // The bytes of a set of generations.
  ghost function TotalBytes(d: Disk, names: set<ContentName>): nat {
    if names == {} then 0
    else
      var n :| n in names; SizeOf(d, n) + TotalBytes(d, names - {n})
  }

  // Every entry but the holder's staging directory is a generation with one bounded file, and there is room for one
  // more of the given size.
  ghost predicate HasRoom(d: Disk, own: ContentName, incoming: nat) {
    && !StagingLeft(d.content.now, Some(own))
    && (forall n | n in Generations(d.content.now) :: ContentOf(d, n).Some? && SizeOf(d, n) <= MAX_SNAPSHOT_BYTES)
    && |Generations(d.content.now)| < MAX_GENERATIONS
    && TotalBytes(d, Generations(d.content.now)) + incoming <= MAX_STORAGE_BYTES
  }

  // ---------------------------------------------------------------- the holder's steps

  function At(s: State, h: Holder, pc: Pc): State {
    s.(holder := Some(h.(pc := pc)))
  }

  function OnDisk(s: State, d: Disk, h: Holder, pc: Pc): State {
    s.(disk := d, holder := Some(h.(pc := pc)))
  }

  function RecoverStep(s: State, h: Holder, which: nat): Option<State> {
    var d := s.disk;
    match h.pc
    case RecoverContent =>
      if Staging(which) in d.content.now then
        Some(OnDisk(s, d.(content := Unlink(d.content, Staging(which))), h.(removed := true), RecoverContent))
      else if StagingLeft(d.content.now, None) then None
      else Some(At(s, h, if h.removed then SyncRecoveredContent else RecoverManifests))
    case SyncRecoveredContent =>
      Some(OnDisk(s, d.(content := Synced(d.content)), h.(removed := false), RecoverManifests))
    case RecoverManifests =>
      if ManifestStaging(which) in d.manifests.now then
        Some(OnDisk(s, d.(manifests := Unlink(d.manifests, ManifestStaging(which))), h.(removed := true),
                    RecoverManifests))
      else if ManifestStagingLeft(d.manifests.now) then None
      else Some(At(s, h, if h.removed then SyncRecoveredManifests else ReadBase))
    case SyncRecoveredManifests => Some(OnDisk(s, d.(manifests := Synced(d.manifests)), h, ReadBase))
    case _ => None
  }

  function StageStep(s: State, h: Holder, sha: Sha): Option<State>
    requires h.request.Install?
  {
    var d := s.disk;
    match h.pc
    case Stage =>
      var id := d.next;
      Some(OnDisk(s, d.(content := Link(d.content, Staging(id), id), next := id + 1,
                        bundles := d.bundles[id := Bundle(None, false, false)]), h.(bundle := id), WriteFile))
    case WriteFile =>
      if |h.request.bytes| > MAX_SNAPSHOT_BYTES then None
      else
        Some(OnDisk(s, d.(bundles := d.bundles[h.bundle := Bundle(Some(h.request.bytes), false, false)]), h, SyncFile))
    case SyncFile =>
      Some(OnDisk(s, d.(bundles := d.bundles[h.bundle := Bundle(Some(h.request.bytes), true, false)]), h, SyncStaging))
    case SyncStaging =>
      Some(OnDisk(s, d.(bundles := d.bundles[h.bundle := Bundle(Some(h.request.bytes), true, true)]), h, CheckDigest))
    case CheckDigest => if sha(h.request.bytes) == h.request.digest then Some(At(s, h, CheckDestination)) else None
    case _ => None
  }

  // An existing generation is taken as it is when its bytes have the digest; the content directory is not synced then.
  ghost function PlaceStep(s: State, h: Holder, sha: Sha): Option<State> {
    var d := s.disk;
    var name := Generation(h.request.digest);
    match h.pc
    case CheckDestination =>
      if name in d.content.now then
        if ContentOf(d, name).Some? && sha(ContentOf(d, name).value) == h.request.digest then
          Some(At(s, h, WriteManifest))
        else None
      else Some(At(s, h, CheckCapacity))
    case CheckCapacity =>
      if h.request.Install? && HasRoom(d, Staging(h.bundle), |h.request.bytes|) then Some(At(s, h, Rename)) else None
    case Rename =>
      Some(OnDisk(s, d.(content := Link(Unlink(d.content, Staging(h.bundle)), name, h.bundle)), h, SyncContent)
             .(renames := s.renames + 1))
    case SyncContent => Some(OnDisk(s, d.(content := Synced(d.content)), h, WriteManifest))
    case _ => None
  }

  function ActivateStep(s: State, h: Holder): Option<State> {
    var d := s.disk;
    match h.pc
    case WriteManifest =>
      var id := d.next;
      Some(OnDisk(s, d.(manifests := Link(d.manifests, ManifestStaging(id), id),
                        files := d.files[id := Manifest(h.request.digest, false)], next := id + 1),
                  h.(file := id), SyncManifest))
    case SyncManifest =>
      Some(OnDisk(s, d.(files := d.files[h.file := Manifest(h.request.digest, true)]), h, CheckBase))
    case CheckBase => if ReadManifest(d) == h.base then Some(At(s, h, Persist)) else None
    case Persist =>
      Some(OnDisk(s, d.(manifests := Link(Unlink(d.manifests, ManifestStaging(h.file)), Active, h.file)), h,
                  SyncManifests))
    case SyncManifests => Some(OnDisk(s, d.(manifests := Synced(d.manifests)), h, Release))
    case _ => None
  }

  ghost function HolderStep(s: State, h: Holder, sha: Sha, which: nat): Option<State> {
    match h.pc
    case RecoverContent | SyncRecoveredContent | RecoverManifests | SyncRecoveredManifests => RecoverStep(s, h, which)
    case ReadBase =>
      var base := ReadManifest(s.disk);
      if h.request.Install? then Some(At(s, h.(base := base), Stage))
      else if base == Some(h.request.digest) then Some(At(s, h.(base := base), WriteManifest))
      else None
    case Stage | WriteFile | SyncFile | SyncStaging | CheckDigest =>
      if h.request.Install? then StageStep(s, h, sha) else None
    case CheckDestination | CheckCapacity | Rename | SyncContent => PlaceStep(s, h, sha)
    case WriteManifest | SyncManifest | CheckBase | Persist | SyncManifests => ActivateStep(s, h)
    case Release => Some(s.(holder := None))
  }

  // ---------------------------------------------------------------- everything that can happen

  datatype Action =
    | Start(pid: nat)
    | SyncContentDir(pid: nat)
    | SyncManifestDir(pid: nat)
    | Acquire(pid: nat, request: Request)
    | Work(which: nat)
    | GiveUp(content: bool, manifest: bool)
    | Die(pid: nat)
    | PowerLoss(disk: Disk)

  // A failing or finished update may remove the staging entries it made.
  function Discarded(d: Disk, h: Holder, content: bool, manifest: bool): Disk {
    d.(content := if content then Unlink(d.content, Staging(h.bundle)) else d.content,
       manifests := if manifest then Unlink(d.manifests, ManifestStaging(h.file)) else d.manifests)
  }

  ghost predicate DiskSurvives(before: Disk, after: Disk) {
    && Survives(before.content, after.content) && Survives(before.manifests, after.manifests)
    && after.bundles.Keys == before.bundles.Keys && after.files.Keys == before.files.Keys
    && (forall b | b in before.bundles :: BundleSurvives(before.bundles[b], after.bundles[b]))
    && (forall f | f in before.files :: ManifestSurvives(before.files[f], after.files[f]))
    && after.next == before.next
  }

  ghost function Step(s: State, a: Action, sha: Sha): Option<State> {
    match a
    case Start(p) => if p in s.waiting then None else Some(s.(waiting := s.waiting[p := Waiting(false, false, 0)]))
    case SyncContentDir(p) =>
      if p !in s.waiting then None
      else
        Some(s.(disk := s.disk.(content := Synced(s.disk.content)),
                waiting := s.waiting[p := s.waiting[p].(contentSynced := true, seen := s.renames)]))
    case SyncManifestDir(p) =>
      if p !in s.waiting || !s.waiting[p].contentSynced then None
      else
        Some(s.(disk := s.disk.(manifests := Synced(s.disk.manifests)),
                waiting := s.waiting[p := s.waiting[p].(manifestsSynced := true)]))
    case Acquire(p, request) =>
      if p !in s.waiting || !s.waiting[p].manifestsSynced || s.holder.Some? then None
      else
        Some(s.(holder := Some(Holder(RecoverContent, request, false, None, 0, 0)), waiting := s.waiting - {p}))
    case Work(which) => if s.holder.None? then None else HolderStep(s, s.holder.value, sha, which)
    case GiveUp(content, manifest) =>
      if s.holder.None? then None
      else Some(s.(disk := Discarded(s.disk, s.holder.value, content, manifest), holder := None))
    case Die(p) => if p !in s.waiting then None else Some(s.(waiting := s.waiting - {p}))
    case PowerLoss(disk) =>
      if DiskSurvives(s.disk, disk) then Some(s.(disk := disk, holder := None, waiting := map[])) else None
  }

  ghost function Run(actions: seq<Action>, sha: Sha): Option<State> {
    if actions == [] then Some(EMPTY)
    else
      match Run(actions[..|actions| - 1], sha)
      case None => None
      case Some(s) => Step(s, actions[|actions| - 1], sha)
  }

  // The process that takes the lock synced the content directory after the last generation was renamed into place.
  predicate Fresh(s: State, a: Action) {
    a.Acquire? && a.pid in s.waiting ==> s.waiting[a.pid].seen == s.renames
  }

  ghost predicate FreshRun(actions: seq<Action>, sha: Sha) {
    forall i | 0 <= i < |actions| ::
      Run(actions[..i], sha).Some? ==> Fresh(Run(actions[..i], sha).value, actions[i])
  }
}
