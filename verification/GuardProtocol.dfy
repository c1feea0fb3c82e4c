/**
 * The desktop guard's file handling as steps over one map from paths to bytes: holding a file, scanning it, releasing or
 * quarantining it, restoring it, and the managed install. Any number of these tasks run interleaved, one file operation
 * at a time; any operation may fail, and between any two the rest of the system may change everything outside the
 * guard's own directories. A task's index serves as the random id of its files.
 */
module GuardProtocol {
  import opened Prelude

  type Bytes = seq<byte>
  type Hash = Bytes -> nat

  datatype Path =
    | Game(name: nat)
    | Elsewhere(name: nat)
    | Held(id: nat)
    | Kept(id: nat)
    | Staged(id: nat)
    | Partial(target: Path, task: nat)
  {
    /** Inside the directories that only the guard writes. */
    predicate Private() {
      Held? || Kept? || Staged? || (Partial? && target.Private())
    }
  }

  type Disk = map<Path, Bytes>

  datatype Identity = Identity(digest: nat, size: nat)

  function IdentityOf(hash: Hash, b: Bytes): Identity {
    Identity(hash(b), |b|)
  }

  /** How one file operation goes; a missing file makes it fail whatever this says. */
  datatype Io = Fine | CrossDevice | Fault(left: Option<Bytes>)

  /** `hashFile`. */
  function Read(disk: Disk, p: Path, io: Io): Option<Bytes> {
    if p in disk && io.Fine? then Some(disk[p]) else None
  }

  predicate SameIdentity(hash: Hash, seen: Option<Bytes>, identity: Identity) {
    seen.Some? && IdentityOf(hash, seen.value) == identity
  }

  /** `access(target)` says the target is absent; found, or any other error, ends the operation. */
  predicate Absent(disk: Disk, p: Path, io: Io) {
    p !in disk && io.Fine?
  }

  // ---------- movePreservingIdentity ----------

  datatype MovePoint =
    | AtStart | AtRename | AtCopy | AtHashCopy | AtRenameCopy | AtUnlink | AtCheck | AtCleanup(missing: bool)
    | AtDone | AtFailed(missing: bool)

  /** A move under way; `identity` is what the caller expects of the source, and what is checked at the end. */
  datatype Move = Move(src: Path, dst: Path, identity: Identity, at: MovePoint)
  {
    function Temp(task: nat): Path {
      Partial(dst, task)
    }

    predicate Over() {
      at.AtDone? || at.AtFailed?
    }
  }

  function StartMove(src: Path, dst: Path, identity: Identity): Move {
    Move(src, dst, identity, AtStart)
  }

  function MoveNext(hash: Hash, disk: Disk, m: Move, task: nat, io: Io): (Disk, Move) {
    var temp := m.Temp(task);
    match m.at
    case AtStart =>
      var seen := Read(disk, m.src, io);
      (disk, m.(at := if SameIdentity(hash, seen, m.identity) then AtRename else AtFailed(m.src !in disk)))
    case AtRename =>
      if m.src !in disk then (disk, m.(at := AtFailed(true)))
      else if io.Fine? then (Renamed(disk, m.src, m.dst), m.(at := AtCheck))
      else (disk, m.(at := if io.CrossDevice? then AtCopy else AtFailed(false)))
    case AtCopy =>
      if m.src !in disk || temp in disk then (disk, m.(at := AtCleanup(m.src !in disk)))
      else if io.Fine? then (disk[temp := disk[m.src]], m.(at := AtHashCopy))
      else (if io.Fault? && io.left.Some? then disk[temp := io.left.value] else disk, m.(at := AtCleanup(false)))
    case AtHashCopy =>
      var seen := Read(disk, temp, io);
      (disk, m.(at := if SameIdentity(hash, seen, m.identity) then AtRenameCopy else AtCleanup(temp !in disk)))
    case AtRenameCopy =>
      if temp in disk && io.Fine? then (Renamed(disk, temp, m.dst), m.(at := AtUnlink))
      else (disk, m.(at := AtCleanup(temp !in disk)))
    case AtUnlink =>
      if m.src in disk && io.Fine? then (disk - {m.src}, m.(at := AtCheck))
      else (disk, m.(at := AtCleanup(m.src !in disk)))
    case AtCleanup(missing) =>
      (if io.Fine? then disk - {temp} else disk, m.(at := AtFailed(missing)))
    case AtCheck =>
      var seen := Read(disk, m.dst, io);
      (disk, m.(at := if SameIdentity(hash, seen, m.identity) then AtDone else AtFailed(m.dst !in disk)))
    case _ => (disk, m)
  }

  function Renamed(disk: Disk, src: Path, dst: Path): Disk
    requires src in disk
  {
    (disk - {src})[dst := disk[src]]
  }

  /** The bytes that this step renames onto the destination, if it does. */
  function Places(disk: Disk, m: Move, task: nat, io: Io): Option<Bytes> {
    if m.at.AtRename? && m.src in disk && io.Fine? then Some(disk[m.src])
    else if m.at.AtRenameCopy? && m.Temp(task) in disk && io.Fine? then Some(disk[m.Temp(task)])
    else None
  }

  // ---------- Policy ----------

  datatype Verdict = Safe | Suspicious | Malicious | Inconclusive | NotAVerdict

  datatype Action = Release | Quarantine | BlockAndQuarantine | Hold

  function DecideContainment(v: Verdict): Action {
    match v
    case Safe => Release
    case Suspicious => Quarantine
    case Malicious => BlockAndQuarantine
    case Inconclusive => Hold
    case NotAVerdict => Hold
  }

  // ---------- Tasks ----------

  datatype ManifestState = PendingState | QuarantinedState | FailedState | RestoredState

  datatype Manifest = Manifest(state: ManifestState, original: Path, identity: Identity)

  datatype Ending =
    | TrustedHit | Disappeared | NotHeld | Threw | Released | Quarantined | LeftBehind | Restored | NotRestored | Installed
    | NotInstalled

  /** Where a task stands: the next file operation it awaits, with its local variables. */
  datatype Phase =
    | CheckTrusted
    | StageHash
    | Staging(m: Move)
    | Scanning(identity: Identity)
    | Verifying(identity: Identity, verdict: Verdict)
    | ReleaseVerify(identity: Identity)
    | ReleaseAccess(identity: Identity)
    | Releasing(m: Move)
    | QuarantineHash
    | QuarantinePending(before: Identity)
    | Quarantining(m: Move)
    | QuarantineWrite(before: Identity)
    | QuarantineFailed(before: Identity)
    | RestoreRead
    | RestoreHash(manifest: Manifest)
    | RestoreAccess(manifest: Manifest)
    | Restoring(manifest: Manifest, m: Move)
    | RestoreWrite(manifest: Manifest)
    | InstallCopy
    | InstallHash
    | InstallScan(before: Identity)
    | InstallVerify(before: Identity, verdict: Verdict)
    | InstallAccess(after: Identity)
    | InstallRehash(after: Identity)
    | Installing(m: Move)
    | InstallCheck(after: Identity)
    | Ended(ending: Ending)

  /** `payload` is the id whose file the task handles: its own, or the quarantine id being restored. */
  datatype Kind =
    | Process(path: Path)
    | Restore(payload: nat)
    | Install(source: Path, path: Path)

  datatype Task = Task(kind: Kind, phase: Phase)

  /** History: what a scanner was given and said. */
  datatype Scan = Scan(bytes: Bytes, verdict: Verdict)

  /** History: `task` renamed `bytes` onto `path`, on behalf of payload `id`. */
  datatype Placement = Placement(task: nat, id: nat, path: Path, bytes: Bytes)

  /** History: the bytes a task read at the end of its move. */
  datatype Sighting = Sighting(path: Path, bytes: Bytes)

  datatype State = State(
    disk: Disk, manifests: map<nat, Manifest>, trusted: map<Path, Identity>, processing: map<Path, nat>, tasks: seq<Task>,
    // history
    scans: map<nat, Scan>, placed: seq<Placement>, consumer: map<nat, nat>, confirmed: map<nat, Sighting>, tampered: bool)

  const INITIAL: State := State(map[], map[], map[], map[], [], map[], [], map[], map[], false)

  function Payload(s: State, t: nat): nat
    requires t < |s.tasks|
  {
    if s.tasks[t].kind.Restore? then s.tasks[t].kind.payload else t
  }

  function At(s: State, t: nat, phase: Phase): (r: State)
    requires t < |s.tasks|
    ensures |r.tasks| == |s.tasks| && r.disk == s.disk && r.placed == s.placed && r.tampered == s.tampered
    ensures r.manifests == s.manifests && r.tasks == s.tasks[t := Task(s.tasks[t].kind, phase)]
  {
    s.(tasks := s.tasks[t := Task(s.tasks[t].kind, phase)])
  }

  /** The task is over; a processed path may be processed again. */
  function End(s: State, t: nat, ending: Ending): (r: State)
    requires t < |s.tasks|
    ensures r == At(s, t, Ended(ending)).(processing := r.processing) && r.disk == s.disk && r.placed == s.placed && r.tampered == s.tampered
    ensures r.manifests == s.manifests && r.tasks == s.tasks[t := Task(s.tasks[t].kind, Ended(ending))]
  {
    At(s, t, Ended(ending)).(processing :=
      if s.tasks[t].kind.Process? then s.processing - {s.tasks[t].kind.path} else s.processing)
  }

  /** One operation of a move, with what it does to the history. */
  function Moving(hash: Hash, s: State, t: nat, m: Move, io: Io): (r: (State, Move))
    requires t < |s.tasks|
    ensures r.0.tasks == s.tasks && r.0.tampered == s.tampered && r.0.manifests == s.manifests
  {
    var (disk, next) := MoveNext(hash, s.disk, m, t, io);
    var put := Places(s.disk, m, t, io);
    var id := Payload(s, t);
    (s.(disk := disk,
        placed := if put.Some? && m.dst.Game? then s.placed + [Placement(t, id, m.dst, put.value)] else s.placed,
        consumer := if next.at.AtCheck? && s.tasks[t].kind.Restore? then s.consumer[id := t] else s.consumer,
        confirmed := if m.at.AtCheck? && next.at.AtDone? && m.dst in s.disk then s.confirmed[t := Sighting(m.dst, s.disk[m.dst])]
          else s.confirmed),
     next)
  }

  /** The agent forgets a path whose file went to quarantine. */
  function Distrusted(s: State, t: nat, path: Path): (r: State)
    requires t < |s.tasks|
    ensures r.tasks == s.tasks && r.manifests == s.manifests && r.disk == s.disk && r.placed == s.placed && r.tampered == s.tampered
  {
    if s.tasks[t].kind.Process? then s.(trusted := s.trusted - {path}) else s
  }

  function WriteManifest(s: State, id: nat, m: Manifest, io: Io): (r: State)
    ensures r.tasks == s.tasks && r.disk == s.disk && r.placed == s.placed && r.tampered == s.tampered
    ensures r.manifests == if io.Fine? then s.manifests[id := m] else s.manifests
  {
    if io.Fine? then s.(manifests := s.manifests[id := m]) else s
  }

  /** `_processPathOnce`: `verdict` is the scanner's answer when the task is waiting for it. */
  function ProcessNext(hash: Hash, s: State, t: nat, io: Io, verdict: Verdict): State
    requires t < |s.tasks| && s.tasks[t].kind.Process?
  {
    var path := s.tasks[t].kind.path;
    var phase := s.tasks[t].phase;
    if phase.CheckTrusted? then
      if path !in s.trusted then At(s, t, StageHash)
      else if path in s.disk && !io.Fine? then End(s, t, Threw)
      else if SameIdentity(hash, Read(s.disk, path, io), s.trusted[path]) then End(s, t, TrustedHit)
      else At(s.(trusted := s.trusted - {path}), t, StageHash)
    else if phase.StageHash? then
      var seen := Read(s.disk, path, io);
      if seen.None? then End(s, t, if path !in s.disk then Disappeared else NotHeld)
      else At(s, t, Staging(StartMove(path, Held(t), IdentityOf(hash, seen.value))))
    else if phase.Staging? then
      var m := phase.m;
      var (r, next) := Moving(hash, s, t, m, io);
      if next.at.AtDone? then At(r, t, Scanning(next.identity))
      else if next.at.AtFailed? then End(r, t, if next.at.missing then Disappeared else NotHeld)
      else At(r, t, Staging(next))
    else if phase.Scanning? then
      var identity := phase.identity;
      At(Scanned(s, t, Held(t), verdict), t, Verifying(identity, verdict))
    else if phase.Verifying? then
      var identity, said := phase.identity, phase.verdict;
      if SameIdentity(hash, Read(s.disk, Held(t), io), identity) && DecideContainment(said).Release?
      then At(s, t, ReleaseVerify(identity)) else At(s, t, QuarantineHash)
    else ReleaseNext(hash, s, t, path, io)
  }

  /** History: the scanner was given what `file` holds. */
  function Scanned(s: State, t: nat, file: Path, verdict: Verdict): (r: State)
    ensures r.tasks == s.tasks && r.manifests == s.manifests && r.disk == s.disk && r.placed == s.placed && r.tampered == s.tampered
  {
    if file in s.disk then s.(scans := s.scans[t := Scan(s.disk[file], verdict)]) else s
  }

  function Trusted(s: State, path: Path, identity: Identity): (r: State)
    ensures r.tasks == s.tasks && r.manifests == s.manifests && r.disk == s.disk && r.placed == s.placed && r.tampered == s.tampered
  {
    s.(trusted := s.trusted[path := identity])
  }

  /** `PendingHoldStore.release`; whatever goes wrong sends the held file to quarantine. */
  function ReleaseNext(hash: Hash, s: State, t: nat, path: Path, io: Io): State
    requires t < |s.tasks| && s.tasks[t].kind.Process?
  {
    var phase := s.tasks[t].phase;
    if phase.ReleaseVerify? then
      var identity := phase.identity;
      At(s, t, if SameIdentity(hash, Read(s.disk, Held(t), io), identity) then ReleaseAccess(identity) else QuarantineHash)
    else if phase.ReleaseAccess? then
      var identity := phase.identity;
      At(s, t, if Absent(s.disk, path, io) then Releasing(StartMove(Held(t), path, identity)) else QuarantineHash)
    else if phase.Releasing? then
      var m := phase.m;
      var (r, next) := Moving(hash, s, t, m, io);
      if next.at.AtDone? then End(Trusted(r, path, next.identity), t, Released)
      else At(r, t, if next.at.AtFailed? then QuarantineHash else Releasing(next))
    else QuarantineNext(hash, s, t, Held(t), path, io)
  }

  /** `QuarantineStore.quarantine` of `source`, and what its caller does with the outcome. */
  function QuarantineNext(hash: Hash, s: State, t: nat, source: Path, path: Path, io: Io): State
    requires t < |s.tasks|
  {
    var phase := s.tasks[t].phase;
    if phase.QuarantineHash? then
      var seen := Read(s.disk, source, io);
      if seen.None? then End(s, t, LeftBehind) else At(s, t, QuarantinePending(IdentityOf(hash, seen.value)))
    else if phase.QuarantinePending? then
      var before := phase.before;
      if t in s.manifests || !io.Fine? then End(s, t, LeftBehind)
      else
        At(WriteManifest(s, t, Manifest(PendingState, path, before), io), t,
           Quarantining(StartMove(source, Kept(t), before)))
    else if phase.Quarantining? then
      var m := phase.m;
      var (r, next) := Moving(hash, s, t, m, io);
      At(r, t, if next.at.AtDone? then QuarantineWrite(m.identity)
               else if next.at.AtFailed? then QuarantineFailed(m.identity) else Quarantining(next))
    else if phase.QuarantineWrite? then
      var before := phase.before;
      if !io.Fine? then At(s, t, QuarantineFailed(before))
      else
        Distrusted(WriteManifest(End(s, t, Quarantined), t, Manifest(QuarantinedState, path, before), io), t, path)
    else if phase.QuarantineFailed? then
      var before := phase.before;
      End(WriteManifest(s, t, Manifest(FailedState, path, before), io), t, LeftBehind)
    else s
  }

  /** `QuarantineStore.restore`. */
  function RestoreNext(hash: Hash, s: State, t: nat, io: Io): State
    requires t < |s.tasks| && s.tasks[t].kind.Restore?
  {
    var id := s.tasks[t].kind.payload;
    var phase := s.tasks[t].phase;
    if phase.RestoreRead? then
      if id !in s.manifests || !io.Fine? || !s.manifests[id].state.QuarantinedState? then End(s, t, NotRestored)
      else At(s, t, RestoreHash(s.manifests[id]))
    else if phase.RestoreHash? then
      var manifest := phase.manifest;
      if SameIdentity(hash, Read(s.disk, Kept(id), io), manifest.identity) then At(s, t, RestoreAccess(manifest))
      else End(s, t, NotRestored)
    else if phase.RestoreAccess? then
      var manifest := phase.manifest;
      if Absent(s.disk, manifest.original, io)
      then At(s, t, Restoring(manifest, StartMove(Kept(id), manifest.original, manifest.identity)))
      else End(s, t, NotRestored)
    else if phase.Restoring? then
      var manifest, m := phase.manifest, phase.m;
      var (r, next) := Moving(hash, s, t, m, io);
      if next.at.AtDone? then At(r, t, RestoreWrite(manifest))
      else if next.at.AtFailed? then End(r, t, NotRestored)
      else At(r, t, Restoring(manifest, next))
    else if phase.RestoreWrite? then
      var manifest := phase.manifest;
      if io.Fine? then End(WriteManifest(s, id, manifest.(state := RestoredState), io), t, Restored)
      else End(s, t, NotRestored)
    else s
  }

  /** `ManagedInstallGuard.install`. */
  function InstallNext(hash: Hash, s: State, t: nat, io: Io, verdict: Verdict): State
    requires t < |s.tasks| && s.tasks[t].kind.Install?
  {
    var path, stage := s.tasks[t].kind.path, Staged(t);
    var phase := s.tasks[t].phase;
    if phase.InstallCopy? then
      var seen := Read(s.disk, s.tasks[t].kind.source, io);
      if seen.None? || stage in s.disk then End(s, t, NotInstalled)
      else At(s.(disk := s.disk[stage := seen.value]), t, InstallHash)
    else if phase.InstallHash? then
      var seen := Read(s.disk, stage, io);
      if seen.None? then End(s, t, NotInstalled) else At(s, t, InstallScan(IdentityOf(hash, seen.value)))
    else if phase.InstallScan? then
      var before := phase.before;
      At(Scanned(s, t, stage, verdict), t, InstallVerify(before, verdict))
    else if phase.InstallVerify? then
      var before, said := phase.before, phase.verdict;
      var seen := Read(s.disk, stage, io);
      if seen.None? then End(s, t, NotInstalled)
      else if IdentityOf(hash, seen.value) == before && DecideContainment(said).Release? then At(s, t, InstallAccess(before))
      else At(s, t, QuarantineHash)
    else PlaceNext(hash, s, t, path, io)
  }

  /** The part of `install` that puts a file called safe into place. */
  function PlaceNext(hash: Hash, s: State, t: nat, path: Path, io: Io): State
    requires t < |s.tasks| && s.tasks[t].kind.Install?
  {
    var stage := Staged(t);
    var phase := s.tasks[t].phase;
    if phase.InstallAccess? then
      var after := phase.after;
      if Absent(s.disk, path, io) then At(s, t, InstallRehash(after)) else End(s, t, NotInstalled)
    else if phase.InstallRehash? then
      var after := phase.after;
      if SameIdentity(hash, Read(s.disk, stage, io), after) then At(s, t, Installing(StartMove(stage, path, after)))
      else End(s, t, NotInstalled)
    else if phase.Installing? then
      var m := phase.m;
      var (r, next) := Moving(hash, s, t, m, io);
      if next.at.AtDone? then At(r, t, InstallCheck(next.identity))
      else if next.at.AtFailed? then End(r, t, NotInstalled)
      else At(r, t, Installing(next))
    else if phase.InstallCheck? then
      var after := phase.after;
      End(s, t, if SameIdentity(hash, Read(s.disk, path, io), after) then Installed else NotInstalled)
    else QuarantineNext(hash, s, t, stage, path, io)
  }

  // ---------- Events ----------

  datatype Event =
    | Outside(disk: Disk)
    | FileEvent(path: Path)
    | RestoreRequest(id: nat)
    | InstallRequest(source: Path, path: Path)
    | IsTrusted(path: Path, io: Io)
    | Step(t: nat, io: Io, verdict: Verdict)

  predicate Enabled(s: State, e: Event) {
    match e
    case Outside(disk) =>
      forall p :: p in s.disk.Keys + disk.Keys && p.Private() ==> p in s.disk && p in disk && s.disk[p] == disk[p]
    case FileEvent(path) => path.Game?
    case RestoreRequest(_) => true
    case InstallRequest(_, path) => path.Game?
    case IsTrusted(path, _) => path.Game?
    case Step(t, _, _) => t < |s.tasks|
  }

  /** The rest of the system touched a partial copy beside a game file. */
  predicate Tampers(s: State, disk: Disk) {
    exists p :: p in s.disk.Keys + disk.Keys && p.Partial? && !(p in s.disk && p in disk && s.disk[p] == disk[p])
  }

  function Next(hash: Hash, s: State, e: Event): State
    requires Enabled(s, e)
  {
    match e
    case Outside(disk) => s.(disk := disk, tampered := s.tampered || Tampers(s, disk))
    case FileEvent(path) =>
      if path in s.processing then s
      else s.(processing := s.processing[path := |s.tasks|], tasks := s.tasks + [Task(Process(path), CheckTrusted)])
    case RestoreRequest(id) => s.(tasks := s.tasks + [Task(Restore(id), RestoreRead)])
    case InstallRequest(source, path) => s.(tasks := s.tasks + [Task(Install(source, path), InstallCopy)])
    case IsTrusted(path, io) =>
      if path !in s.trusted || (path in s.disk && !io.Fine?) then s
      else if SameIdentity(hash, Read(s.disk, path, io), s.trusted[path]) then s
      else s.(trusted := s.trusted - {path})
    case Step(t, io, verdict) =>
      if s.tasks[t].kind.Process? then ProcessNext(hash, s, t, io, verdict)
      else if s.tasks[t].kind.Restore? then RestoreNext(hash, s, t, io)
      else InstallNext(hash, s, t, io, verdict)
  }
}
