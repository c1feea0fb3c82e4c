/** What the guard's tasks keep, whatever fails and however they interleave with each other and the rest of the system. */
module GuardSafety {
  import opened Prelude
  import opened GuardProtocol

  // ---------- The invariant ----------

  predicate WasScanned(hash: Hash, s: State, id: nat, identity: Identity) {
    id in s.scans && IdentityOf(hash, s.scans[id].bytes) == identity
  }

  predicate WasSafe(hash: Hash, s: State, id: nat, identity: Identity) {
    WasScanned(hash, s, id, identity) && s.scans[id].verdict.Safe?
  }

  predicate Early(at: MovePoint) {
    at.AtStart? || at.AtRename? || at.AtCopy? || at.AtHashCopy? || at.AtRenameCopy?
  }

  predicate CopyUnderWay(at: MovePoint) {
    at.AtHashCopy? || at.AtRenameCopy?
  }

  /** Where the bytes of the payload `id` that task `t` is moving to `m.dst` are known to be. */
  ghost predicate MoveOk(s: State, t: nat, id: nat, m: Move) {
    && !m.Over()
    && (m.dst.Private() && Early(m.at) ==> m.dst !in s.disk)
    && (id in s.scans && CopyUnderWay(m.at) && m.Temp(t) in s.disk && (m.dst.Private() || !s.tampered) ==>
          s.disk[m.Temp(t)] == s.scans[id].bytes)
    && (m.at.AtUnlink? && m.dst.Private() ==> m.dst in s.disk)
    && (m.at.AtUnlink? && !m.dst.Private() && id in s.scans && !s.tampered ==>
          Placement(t, id, m.dst, s.scans[id].bytes) in s.placed)
  }

  /** The phases of `quarantine` for the payload of task `t`, which lies at `source` when they start and is gone at the end. */
  ghost predicate QuarantineOk(hash: Hash, s: State, t: nat, source: Path)
    requires t < |s.tasks|
  {
    var phase := s.tasks[t].phase;
    if phase.QuarantineHash? then t in s.scans && Kept(t) !in s.disk
    else if phase.QuarantinePending? then
      var before := phase.before;
      WasScanned(hash, s, t, before) && Kept(t) !in s.disk
    else if phase.Quarantining? then
      var m := phase.m;
      && WasScanned(hash, s, t, m.identity) && m.src == source && m.dst == Kept(t) && MoveOk(s, t, t, m)
      && (m.at.AtCheck? ==> source !in s.disk)
    else if phase.QuarantineWrite? then
      var before := phase.before;
      WasScanned(hash, s, t, before) && source !in s.disk
    else if phase.QuarantineFailed? then
      var before := phase.before;
      WasScanned(hash, s, t, before)
    else if phase.Ended? then
      var ending := phase.ending;
      ending.Quarantined? ==> source !in s.disk
    else false
  }

  ghost predicate ProcessOk(hash: Hash, s: State, t: nat, path: Path)
    requires t < |s.tasks|
  {
    var phase := s.tasks[t].phase;
    if phase.CheckTrusted? then Held(t) !in s.disk && Kept(t) !in s.disk && t !in s.scans
    else if phase.StageHash? then Held(t) !in s.disk && Kept(t) !in s.disk && t !in s.scans
    else if phase.Staging? then
      var m := phase.m;
      m.src == path && m.dst == Held(t) && Kept(t) !in s.disk && t !in s.scans && MoveOk(s, t, t, m)
    else if phase.Scanning? then
      var identity := phase.identity;
      && Held(t) in s.disk && IdentityOf(hash, s.disk[Held(t)]) == identity
      && Kept(t) !in s.disk && t !in s.scans
    else if phase.Verifying? then
      var identity, verdict := phase.identity, phase.verdict;
      WasScanned(hash, s, t, identity) && s.scans[t].verdict == verdict && Kept(t) !in s.disk
    else if phase.ReleaseVerify? then
      var identity := phase.identity;
      WasSafe(hash, s, t, identity) && Kept(t) !in s.disk
    else if phase.ReleaseAccess? then
      var identity := phase.identity;
      WasSafe(hash, s, t, identity) && Kept(t) !in s.disk
    else if phase.Releasing? then
      var m := phase.m;
      && WasSafe(hash, s, t, m.identity) && m.src == Held(t) && m.dst == path
      && Kept(t) !in s.disk && MoveOk(s, t, t, m)
    else QuarantineOk(hash, s, t, Held(t))
  }

  ghost predicate InstallOk(hash: Hash, s: State, t: nat, path: Path)
    requires t < |s.tasks|
  {
    var phase := s.tasks[t].phase;
    if phase.InstallCopy? then Kept(t) !in s.disk && t !in s.scans
    else if phase.InstallHash? then Staged(t) in s.disk && Kept(t) !in s.disk && t !in s.scans
    else if phase.InstallScan? then
      var before := phase.before;
      && Staged(t) in s.disk && IdentityOf(hash, s.disk[Staged(t)]) == before
      && Kept(t) !in s.disk && t !in s.scans
    else if phase.InstallVerify? then
      var before, verdict := phase.before, phase.verdict;
      WasScanned(hash, s, t, before) && s.scans[t].verdict == verdict && Kept(t) !in s.disk
    else if phase.InstallAccess? then
      var after := phase.after;
      WasSafe(hash, s, t, after) && Kept(t) !in s.disk
    else if phase.InstallRehash? then
      var after := phase.after;
      WasSafe(hash, s, t, after) && Kept(t) !in s.disk
    else if phase.Installing? then
      var m := phase.m;
      && WasSafe(hash, s, t, m.identity) && m.src == Staged(t) && m.dst == path
      && Kept(t) !in s.disk && MoveOk(s, t, t, m)
    else if phase.InstallCheck? then
      var after := phase.after;
      WasSafe(hash, s, t, after)
    else QuarantineOk(hash, s, t, Staged(t))
  }

  predicate Owner(s: State, id: nat, path: Path) {
    id < |s.tasks| && !s.tasks[id].kind.Restore? && s.tasks[id].kind.path == path && path.Game?
  }

  /** `id` was quarantined as `manifest` records. */
  ghost predicate Restorable(hash: Hash, s: State, id: nat, manifest: Manifest) {
    && Owner(s, id, manifest.original) && s.tasks[id].phase == Ended(Quarantined)
    && WasScanned(hash, s, id, manifest.identity)
  }

  /** Task `t` is the one that took `id` out of quarantine, and it saw the quarantined identity at the original path. */
  ghost predicate GaveBack(hash: Hash, s: State, t: nat, id: nat) {
    && id in s.consumer && s.consumer[id] == t && t in s.confirmed && id < |s.tasks|
    && Owner(s, id, s.confirmed[t].path) && WasScanned(hash, s, id, IdentityOf(hash, s.confirmed[t].bytes))
  }

  ghost predicate RestoreOk(hash: Hash, s: State, t: nat, id: nat)
    requires t < |s.tasks|
  {
    var phase := s.tasks[t].phase;
    if phase.RestoreRead? then true
    else if phase.RestoreHash? then
      var manifest := phase.manifest;
      Restorable(hash, s, id, manifest)
    else if phase.RestoreAccess? then
      var manifest := phase.manifest;
      Restorable(hash, s, id, manifest)
    else if phase.Restoring? then
      var manifest, m := phase.manifest, phase.m;
      && Restorable(hash, s, id, manifest) && m.src == Kept(id) && m.dst == manifest.original
      && m.identity == manifest.identity && MoveOk(s, t, id, m)
      && (m.at.AtCheck? ==> id in s.consumer && s.consumer[id] == t)
    else if phase.RestoreWrite? then
      var manifest := phase.manifest;
      Restorable(hash, s, id, manifest) && GaveBack(hash, s, t, id)
    else if phase.Ended? then
      var ending := phase.ending;
      ending.NotRestored? || (ending.Restored? && GaveBack(hash, s, t, id))
    else false
  }

  ghost predicate TaskOk(hash: Hash, s: State, t: nat)
    requires t < |s.tasks|
  {
    match s.tasks[t].kind
    case Process(path) => path.Game? && ProcessOk(hash, s, t, path)
    case Install(_, path) => path.Game? && InstallOk(hash, s, t, path)
    case Restore(id) => RestoreOk(hash, s, t, id)
  }

  /** The three private places of a payload's bytes. */
  predicate PlaceOf(p: Path, id: nat) {
    p == Held(id) || p == Kept(id) || p == Staged(id)
  }

  /** A payload's private files hold what its scanner was given, and nothing is there before the task. */
  predicate FilesOf(s: State, id: nat) {
    && (Held(id) in s.disk ==>
          id < |s.tasks| && s.tasks[id].kind.Process? && (id in s.scans ==> s.disk[Held(id)] == s.scans[id].bytes))
    && (Staged(id) in s.disk ==>
          id < |s.tasks| && s.tasks[id].kind.Install? && (id in s.scans ==> s.disk[Staged(id)] == s.scans[id].bytes))
    && (Kept(id) in s.disk ==> id in s.scans && s.disk[Kept(id)] == s.scans[id].bytes)
    && (id in s.scans ==> id < |s.tasks|)
  }

  ghost predicate FilesOk(s: State) {
    forall id: nat :: FilesOf(s, id)
  }

  /** The guard puts into the game tree what a scan called safe, or what an explicit restore asks for. */
  ghost predicate PlacementOk(s: State, q: Placement) {
    && q.task < |s.tasks| && q.id == Payload(s, q.task) && Owner(s, q.id, q.path) && q.id in s.scans
    && (if s.tasks[q.task].kind.Restore? then s.tasks[q.id].phase == Ended(Quarantined) else s.scans[q.id].verdict.Safe?)
    && (!s.tampered ==> q.bytes == s.scans[q.id].bytes)
  }

  ghost predicate PlacementsOk(s: State) {
    forall q :: q in s.placed ==> PlacementOk(s, q)
  }

  /** Some scan of a file of this very path called this identity safe. */
  ghost predicate Vouched(hash: Hash, s: State, path: Path, identity: Identity) {
    exists id :: id in s.scans && Owner(s, id, path) && WasSafe(hash, s, id, identity)
  }

  ghost predicate TrustOk(hash: Hash, s: State) {
    forall p :: p in s.trusted ==> Vouched(hash, s, p, s.trusted[p])
  }

  ghost predicate ManifestsOk(hash: Hash, s: State) {
    forall id :: id in s.manifests && s.manifests[id].state.QuarantinedState? ==> Restorable(hash, s, id, s.manifests[id])
  }

  /** A payload taken out of quarantine is gone from there for good. */
  ghost predicate ConsumersOk(s: State) {
    forall id :: id in s.consumer ==> Kept(id) !in s.disk && id < |s.tasks| && s.tasks[id].phase == Ended(Quarantined)
  }

  predicate LiveAt(s: State, t: nat, path: Path) {
    t < |s.tasks| && s.tasks[t].kind == Process(path) && !s.tasks[t].phase.Ended?
  }

  /** The map of paths being processed lists the unfinished tasks, one per path. */
  ghost predicate ProcessingOk(s: State) {
    && (forall p :: p in s.processing ==> LiveAt(s, s.processing[p], p))
    && (forall t: nat, p :: LiveAt(s, t, p) ==> p in s.processing && s.processing[p] == t)
  }

  ghost predicate TasksOk(hash: Hash, s: State) {
    forall t :: 0 <= t < |s.tasks| ==> TaskOk(hash, s, t)
  }

  ghost predicate Inv(hash: Hash, s: State) {
    && TasksOk(hash, s) && FilesOk(s) && PlacementsOk(s) && TrustOk(hash, s) && ManifestsOk(hash, s)
    && ConsumersOk(s) && ProcessingOk(s)
  }

  lemma InitialHolds(hash: Hash)
    ensures Inv(hash, INITIAL)
  {
  }

  // ---------- What one task leaves alone ----------

  /** The files that task `t` alone may write, or, being in the game tree, that anybody may. */
  predicate Open(s: State, t: nat, p: Path)
    requires t < |s.tasks|
  {
    p.Game? || PlaceOf(p, t) || (p.Partial? && p.task == t)
  }

  predicate SameAt(s: State, r: State, p: Path) {
    (p in s.disk <==> p in r.disk) && (p in s.disk && p in r.disk ==> s.disk[p] == r.disk[p])
  }

  /** A restore may take its payload away, which a finished task left in quarantine. */
  predicate TakesBack(s: State, t: nat, p: Path)
    requires t < |s.tasks|
  {
    match s.tasks[t].kind
    case Restore(id) => p == Kept(id) && id < |s.tasks| && s.tasks[id].phase == Ended(Quarantined)
    case _ => false
  }

  ghost predicate DiskFrame(s: State, r: State, t: nat)
    requires t < |s.tasks|
  {
    forall p :: Open(s, t, p) || SameAt(s, r, p) || (p !in r.disk && TakesBack(s, t, p))
  }

  /** The step of task `t` from `s` to `r` touches no other task's private files and no other task's history. */
  ghost predicate Frame(s: State, r: State, t: nat)
    requires t < |s.tasks|
  {
    && |r.tasks| == |s.tasks| && r.tasks[t].kind == s.tasks[t].kind && r.tampered == s.tampered && DiskFrame(s, r, t)
    && (s.tasks[t].phase.Ended? ==> r.tasks[t] == s.tasks[t])
    && (forall k :: 0 <= k < |s.tasks| && k != t ==> r.tasks[k] == s.tasks[k])
    && (forall id :: id in s.scans ==> id in r.scans && r.scans[id] == s.scans[id])
    && (forall id :: id in r.scans && id !in s.scans ==> id == t)
    && (forall q :: q in s.placed ==> q in r.placed)
    && (forall k :: k in s.confirmed && k != t ==> k in r.confirmed && r.confirmed[k] == s.confirmed[k])
    && (forall id :: id in s.consumer ==> id in r.consumer && r.consumer[id] == s.consumer[id])
  }

  /** From `s` to `r`, nothing that task `k` relies on was touched. */
  ghost predicate Undisturbed(s: State, r: State, k: nat) {
    && k < |s.tasks| <= |r.tasks| && r.tasks[k] == s.tasks[k] && (s.tampered ==> r.tampered)
    && (forall j :: 0 <= j < |s.tasks| ==> r.tasks[j].kind == s.tasks[j].kind)
    && (forall j :: 0 <= j < |s.tasks| && s.tasks[j].phase.Ended? ==> r.tasks[j] == s.tasks[j])
    && SameAt(s, r, Held(k)) && SameAt(s, r, Staged(k)) && (s.tasks[k].phase.Ended? || SamePrivate(s, r, k))
    && (forall id :: id in s.scans ==> id in r.scans && r.scans[id] == s.scans[id])
    && (k in r.scans ==> k in s.scans)
    && (forall q :: q in s.placed ==> q in r.placed)
    && (k in s.confirmed ==> k in r.confirmed && r.confirmed[k] == s.confirmed[k])
    && (forall id :: id in s.consumer ==> id in r.consumer && r.consumer[id] == s.consumer[id])
  }

  /** The files that only task `k` handles are the same; partial copies in the game tree too, unless tampered with. */
  ghost predicate SamePrivate(s: State, r: State, k: nat) {
    && SameAt(s, r, Held(k)) && SameAt(s, r, Kept(k)) && SameAt(s, r, Staged(k))
    && forall dst: Path :: dst.Private() || !r.tampered ==> SameAt(s, r, Partial(dst, k))
  }

  lemma MoveUndisturbed(s: State, r: State, k: nat, id: nat, m: Move)
    requires Undisturbed(s, r, k) && !s.tasks[k].phase.Ended? && (id in r.scans ==> id in s.scans)
    requires MoveOk(s, k, id, m) && (m.dst.Game? || m.dst == Kept(k) || m.dst == Held(k))
    ensures MoveOk(r, k, id, m)
  {
  }

  lemma QuarantineKeeps(hash: Hash, s: State, r: State, k: nat, source: Path)
    requires Undisturbed(s, r, k) && QuarantineOk(hash, s, k, source) && (source == Held(k) || source == Staged(k))
    ensures QuarantineOk(hash, r, k, source)
  {
    hide MoveOk;
    if s.tasks[k].phase.Quarantining? {
      MoveUndisturbed(s, r, k, k, s.tasks[k].phase.m);
    }
  }

  lemma ProcessKeeps(hash: Hash, s: State, r: State, k: nat, path: Path)
    requires Undisturbed(s, r, k) && path.Game? && ProcessOk(hash, s, k, path)
    ensures ProcessOk(hash, r, k, path)
  {
    hide MoveOk;
    var phase := s.tasks[k].phase;
    if QuarantineOk(hash, s, k, Held(k)) {
      QuarantineKeeps(hash, s, r, k, Held(k));
    }
    if phase.Staging? || phase.Releasing? {
      MoveUndisturbed(s, r, k, k, phase.m);
    }
  }

  lemma InstallKeeps(hash: Hash, s: State, r: State, k: nat, path: Path)
    requires Undisturbed(s, r, k) && path.Game? && InstallOk(hash, s, k, path)
    ensures InstallOk(hash, r, k, path)
  {
    hide MoveOk;
    var phase := s.tasks[k].phase;
    if QuarantineOk(hash, s, k, Staged(k)) {
      QuarantineKeeps(hash, s, r, k, Staged(k));
    }
    if phase.Installing? {
      MoveUndisturbed(s, r, k, k, phase.m);
    }
  }

  lemma RestoreKeeps(hash: Hash, s: State, r: State, k: nat, id: nat)
    requires Undisturbed(s, r, k) && RestoreOk(hash, s, k, id)
    ensures RestoreOk(hash, r, k, id)
  {
    hide MoveOk;
    if s.tasks[k].phase.Restoring? {
      MoveUndisturbed(s, r, k, id, s.tasks[k].phase.m);
    }
  }

  /** What a task knows about its own files survives what others do. */
  lemma OthersKeep(hash: Hash, s: State, r: State, k: nat)
    requires Undisturbed(s, r, k) && TaskOk(hash, s, k)
    ensures TaskOk(hash, r, k)
  {
    assert r.tasks[k] == s.tasks[k];
    hide Undisturbed, ProcessOk, InstallOk, RestoreOk;
    match s.tasks[k].kind
    case Process(path) => ProcessKeeps(hash, s, r, k, path);
    case Install(_, path) => InstallKeeps(hash, s, r, k, path);
    case Restore(id) => RestoreKeeps(hash, s, r, k, id);
  }

  lemma FrameUndisturbed(s: State, r: State, t: nat, k: nat)
    requires t < |s.tasks| && k < |s.tasks| && k != t && Frame(s, r, t)
    ensures Undisturbed(s, r, k)
  {
  }

  lemma MovingOthers(hash: Hash, s: State, t: nat, r: State)
    requires t < |s.tasks| && Frame(s, r, t)
    requires forall k :: 0 <= k < |s.tasks| && k != t ==> TaskOk(hash, s, k)
    ensures |r.tasks| == |s.tasks| && forall k :: 0 <= k < |r.tasks| && k != t ==> TaskOk(hash, r, k)
  {
    assert |r.tasks| == |s.tasks|;
    hide Frame, TaskOk, Undisturbed;
    forall k | 0 <= k < |s.tasks| && k != t
      ensures TaskOk(hash, r, k)
    {
      FrameUndisturbed(s, r, t, k);
      OthersKeep(hash, s, r, k);
    }
  }

  // ---------- Moves ----------

  /** The moves there are: into the hold, into quarantine, and into the game tree. */
  ghost predicate MoveShape(s: State, t: nat, m: Move)
    requires t < |s.tasks|
  {
    var id := Payload(s, t);
    && !s.tasks[t].phase.Ended? && MoveOk(s, t, id, m)
    && if m.dst == Held(t) then s.tasks[t].kind == Process(m.src) && m.src.Game? && t !in s.scans
       else if m.dst == Kept(t) then !s.tasks[t].kind.Restore? && t in s.scans && (m.src == Held(t) || m.src == Staged(t))
       else
         && Owner(s, id, m.dst) && id in s.scans
         && (if s.tasks[t].kind.Restore? then m.src == Kept(id) && s.tasks[id].phase == Ended(Quarantined)
             else s.scans[id].verdict.Safe? && (m.src == Held(t) || m.src == Staged(t)))
  }

  /** What one operation of a move does to the disk. */
  lemma MoveEffect(hash: Hash, disk: Disk, m: Move, t: nat, io: Io)
    requires m.src != m.dst && !m.src.Partial? && !m.dst.Partial?
    ensures var (r, next) := MoveNext(hash, disk, m, t, io);
      var put, temp := Places(disk, m, t, io), m.Temp(t);
      && next == m.(at := next.at)
      && (forall p :: p != m.src && p != m.dst && p != temp ==> (p in r <==> p in disk) && (p in r ==> r[p] == disk[p]))
      && (put.Some? ==> m.dst in r && r[m.dst] == put.value)
      && (put.None? ==> (m.dst in r <==> m.dst in disk) && (m.dst in r ==> r[m.dst] == disk[m.dst]))
      && (m.src in r ==> m.src in disk && r[m.src] == disk[m.src])
      && (m.src in disk && m.src !in r ==> m.at.AtUnlink? || (m.at.AtRename? && put == Some(disk[m.src])))
      && (next.at.AtCheck? <==> (m.at.AtRename? || m.at.AtUnlink?) && m.src in disk && m.src !in r)
      && (next.at.AtUnlink? <==> m.at.AtRenameCopy? && put.Some?)
      && (CopyUnderWay(next.at) && temp in r ==> if m.at.AtCopy? then m.src in disk && r[temp] == disk[m.src]
            else m.at.AtHashCopy? && temp in disk && r[temp] == disk[temp])
      && (Early(next.at) ==> Early(m.at) && put.None?)
      && (put.Some? ==> if m.at.AtRename? then m.src in disk && put.value == disk[m.src]
            else m.at.AtRenameCopy? && temp in disk && put.value == disk[temp])
  {
  }

  /** The invariant without what task `t` knows about itself. */
  ghost predicate InvBut(hash: Hash, s: State, t: nat) {
    && (forall k :: 0 <= k < |s.tasks| && k != t ==> TaskOk(hash, s, k))
    && FilesOk(s) && PlacementsOk(s) && TrustOk(hash, s) && ManifestsOk(hash, s) && ConsumersOk(s) && ProcessingOk(s)
  }

  /** The outcome of one operation of the move of task `t`. */
  ghost predicate Moved(hash: Hash, s: State, t: nat, m: Move, r: State, next: Move)
    requires t < |s.tasks|
  {
    && Frame(s, r, t) && InvBut(hash, r, t) && r.tasks == s.tasks && r.scans == s.scans
    && next == m.(at := next.at)
    && (!next.Over() ==> MoveOk(r, t, Payload(s, t), next))
    && (Kept(t) !in s.disk && m.dst != Kept(t) ==> Kept(t) !in r.disk)
    && (next.at.AtCheck? || m.src !in s.disk ==> m.src !in r.disk)
    && (next.at.AtDone? ==>
          && m.at.AtCheck? && m.dst in r.disk && IdentityOf(hash, r.disk[m.dst]) == m.identity
          && t in r.confirmed && r.confirmed[t] == Sighting(m.dst, r.disk[m.dst]))
    && (s.tasks[t].kind.Restore? && next.at.AtCheck? ==> Payload(s, t) in r.consumer && r.consumer[Payload(s, t)] == t)
  }

  /** What one operation of a move does to the state. */
  lemma MovingIs(hash: Hash, s: State, t: nat, m: Move, io: Io)
    requires t < |s.tasks|
    ensures var (r, next) := Moving(hash, s, t, m, io);
      var put, id := Places(s.disk, m, t, io), Payload(s, t);
      && (r.disk, next) == MoveNext(hash, s.disk, m, t, io)
      && r.tasks == s.tasks && r.scans == s.scans && r.tampered == s.tampered
      && r.trusted == s.trusted && r.manifests == s.manifests && r.processing == s.processing
      && (r.placed == if put.Some? && m.dst.Game? then s.placed + [Placement(t, id, m.dst, put.value)] else s.placed)
      && (r.consumer == if next.at.AtCheck? && s.tasks[t].kind.Restore? then s.consumer[id := t] else s.consumer)
  {
    hide MoveNext, Places;
  }

  lemma MovingDisk(hash: Hash, s: State, t: nat, m: Move, io: Io)
    requires t < |s.tasks| && MoveShape(s, t, m)
    ensures DiskFrame(s, Moving(hash, s, t, m, io).0, t)
  {
    MovingIs(hash, s, t, m, io);
    hide Moving, MoveNext, Places, MoveOk;
    var (r, next) := Moving(hash, s, t, m, io);
    MoveEffect(hash, s.disk, m, t, io);
    forall p | !Open(s, t, p) && !SameAt(s, r, p)
      ensures p !in r.disk && TakesBack(s, t, p)
    {
      assert p == m.src || p == m.dst || p == m.Temp(t);
    }
  }

  lemma MovingKept(hash: Hash, s: State, t: nat, m: Move, io: Io)
    requires t < |s.tasks| && MoveShape(s, t, m)
    ensures var (r, next) := Moving(hash, s, t, m, io);
      && (forall id: nat :: Kept(id) !in s.disk && Kept(id) != m.dst ==> Kept(id) !in r.disk)
      && (next.at.AtCheck? && s.tasks[t].kind.Restore? ==>
            Kept(Payload(s, t)) in s.disk && Kept(Payload(s, t)) !in r.disk)
  {
    MovingIs(hash, s, t, m, io);
    hide Moving, MoveNext, Places, MoveOk;
    MoveEffect(hash, s.disk, m, t, io);
  }

  /** A restore finds its payload only if nobody took it before. */
  lemma MovingConsumer(hash: Hash, s: State, t: nat, m: Move, io: Io)
    requires ConsumersOk(s) && t < |s.tasks| && MoveShape(s, t, m)
    ensures var (r, next) := Moving(hash, s, t, m, io);
      && ConsumersOk(r)
      && (forall id :: id in s.consumer ==> id in r.consumer && r.consumer[id] == s.consumer[id])
      && (s.tasks[t].kind.Restore? && next.at.AtCheck? ==> Payload(s, t) in r.consumer && r.consumer[Payload(s, t)] == t)
  {
    assert m.dst == Kept(t) ==> t !in s.consumer;
    assert s.tasks[t].kind.Restore? ==> s.tasks[Payload(s, t)].phase == Ended(Quarantined) && Payload(s, t) < |s.tasks|;
    assert forall id: nat :: m.dst == Kept(id) ==> id == t;
    MovingKept(hash, s, t, m, io);
    MovingIs(hash, s, t, m, io);
    hide Moving, MoveNext, Places, MoveShape, Payload;
    var (r, next) := Moving(hash, s, t, m, io);
    forall id | id in r.consumer
      ensures Kept(id) !in r.disk && id < |r.tasks| && r.tasks[id].phase == Ended(Quarantined)
    {
      if id in s.consumer {
        assert Kept(id) !in s.disk;
      }
    }
  }

  lemma MovingFrame(hash: Hash, s: State, t: nat, m: Move, io: Io)
    requires FilesOk(s) && ConsumersOk(s) && t < |s.tasks| && MoveShape(s, t, m)
    ensures Frame(s, Moving(hash, s, t, m, io).0, t)
  {
    MovingDisk(hash, s, t, m, io);
    MovingConsumer(hash, s, t, m, io);
    hide MoveNext, Places, MoveOk, Owner, DiskFrame, FilesOk, ConsumersOk, MoveShape;
  }

  /** A private file is new only if it is the destination. */
  lemma MovingPrivate(hash: Hash, s: State, t: nat, m: Move, io: Io, p: Path)
    requires t < |s.tasks| && MoveShape(s, t, m) && !p.Partial? && p in Moving(hash, s, t, m, io).0.disk
    ensures var r := Moving(hash, s, t, m, io).0;
      (p in s.disk && r.disk[p] == s.disk[p]) || (p == m.dst && Places(s.disk, m, t, io) == Some(r.disk[p]))
  {
    MovingIs(hash, s, t, m, io);
    hide Moving, MoveNext, Places, MoveOk;
    MoveEffect(hash, s.disk, m, t, io);
  }

  /** What a move puts somewhere is what the scanner was given, unless it is on its way to the scanner. */
  lemma MovingContent(hash: Hash, s: State, t: nat, m: Move, io: Io)
    requires FilesOk(s) && t < |s.tasks| && MoveShape(s, t, m) && m.dst != Held(t)
    requires Places(s.disk, m, t, io).Some? && (m.dst.Private() || !s.tampered)
    ensures Payload(s, t) in s.scans && Places(s.disk, m, t, io).value == s.scans[Payload(s, t)].bytes
  {
    assert FilesOf(s, t) && FilesOf(s, Payload(s, t));
    hide FilesOk;
  }

  lemma MovingFilesOf(hash: Hash, s: State, t: nat, m: Move, io: Io, id: nat)
    requires FilesOk(s) && t < |s.tasks| && MoveShape(s, t, m)
    ensures FilesOf(Moving(hash, s, t, m, io).0, id)
  {
    MovingIs(hash, s, t, m, io);
    assert FilesOf(s, id) && FilesOf(s, t);
    hide Moving, MoveNext, Places, FilesOk, MoveOk;
    var r := Moving(hash, s, t, m, io).0;
    if Held(id) in r.disk {
      MovingPrivate(hash, s, t, m, io, Held(id));
    }
    if Staged(id) in r.disk {
      MovingPrivate(hash, s, t, m, io, Staged(id));
    }
    if Kept(id) in r.disk {
      MovingPrivate(hash, s, t, m, io, Kept(id));
      if Kept(id) == m.dst && Places(s.disk, m, t, io).Some? {
        MovingContent(hash, s, t, m, io);
      }
    }
  }

  lemma MovingFiles(hash: Hash, s: State, t: nat, m: Move, io: Io)
    requires FilesOk(s) && t < |s.tasks| && MoveShape(s, t, m)
    ensures FilesOk(Moving(hash, s, t, m, io).0)
  {
    hide Moving, MoveShape, FilesOf;
    forall id: nat
      ensures FilesOf(Moving(hash, s, t, m, io).0, id)
    {
      MovingFilesOf(hash, s, t, m, io, id);
    }
  }

  lemma MovingPlacements(hash: Hash, s: State, t: nat, m: Move, io: Io)
    requires FilesOk(s) && PlacementsOk(s) && t < |s.tasks| && MoveShape(s, t, m)
    ensures PlacementsOk(Moving(hash, s, t, m, io).0)
  {
    MovingIs(hash, s, t, m, io);
    if Places(s.disk, m, t, io).Some? && !s.tampered && m.dst.Game? {
      MovingContent(hash, s, t, m, io);
    }
    hide Moving, MoveNext, Places, FilesOk, MoveOk;
    var r := Moving(hash, s, t, m, io).0;
    forall q | q in r.placed
      ensures PlacementOk(r, q)
    {
      if q in s.placed {
        assert PlacementOk(s, q);
      }
    }
  }

  lemma MovingMove(hash: Hash, s: State, t: nat, m: Move, io: Io)
    requires FilesOk(s) && t < |s.tasks| && MoveShape(s, t, m)
    ensures var (r, next) := Moving(hash, s, t, m, io);
      !next.Over() ==> MoveOk(r, t, Payload(s, t), next)
  {
    MovingIs(hash, s, t, m, io);
    assert FilesOf(s, t) && FilesOf(s, Payload(s, t));
    if Places(s.disk, m, t, io).Some? && m.dst != Held(t) && (m.dst.Private() || !s.tampered) {
      MovingContent(hash, s, t, m, io);
    }
    hide Moving, MoveNext, Places, FilesOk;
    MoveEffect(hash, s.disk, m, t, io);
  }

  lemma MovingDone(hash: Hash, s: State, t: nat, m: Move, io: Io)
    requires t < |s.tasks| && !m.Over()
    ensures var (r, next) := Moving(hash, s, t, m, io);
      && (next.at.AtDone? ==>
            && m.at.AtCheck? && m.dst in r.disk && IdentityOf(hash, r.disk[m.dst]) == m.identity
            && t in r.confirmed && r.confirmed[t] == Sighting(m.dst, r.disk[m.dst]))
  {
  }

  /** The source keeps quarantine's own file out of a move that goes elsewhere. */
  lemma MovingUnkept(hash: Hash, s: State, t: nat, m: Move, io: Io)
    requires t < |s.tasks| && MoveShape(s, t, m) && Kept(t) !in s.disk && m.dst != Kept(t)
    ensures Kept(t) !in Moving(hash, s, t, m, io).0.disk
  {
    MovingIs(hash, s, t, m, io);
    hide Moving, MoveNext, Places, MoveOk;
    MoveEffect(hash, s.disk, m, t, io);
  }

  /** The source is gone at the end of a move, and never comes back. */
  lemma MovingSource(hash: Hash, s: State, t: nat, m: Move, io: Io)
    requires t < |s.tasks| && MoveShape(s, t, m)
    ensures var (r, next) := Moving(hash, s, t, m, io);
      next.at.AtCheck? || m.src !in s.disk ==> m.src !in r.disk
  {
    MovingIs(hash, s, t, m, io);
    hide Moving, MoveNext, Places, MoveOk;
    MoveEffect(hash, s.disk, m, t, io);
  }

  /** Nothing that a move never touches matters to the rest of the invariant. */
  lemma MovingRest(hash: Hash, s: State, r: State)
    requires TrustOk(hash, s) && ManifestsOk(hash, s) && ProcessingOk(s)
    requires r.trusted == s.trusted && r.manifests == s.manifests && r.processing == s.processing
    requires r.tasks == s.tasks && r.scans == s.scans
    ensures TrustOk(hash, r) && ManifestsOk(hash, r) && ProcessingOk(r)
  {
    hide WasSafe, WasScanned, Owner;
    ProcessingStays(s, r);
    forall p | p in r.trusted
      ensures Vouched(hash, r, p, r.trusted[p])
    {
      var id :| id in s.scans && Owner(s, id, p) && WasSafe(hash, s, id, s.trusted[p]);
      SameScan(hash, s, r, id, p, s.trusted[p]);
    }
    forall id | id in r.manifests && r.manifests[id].state.QuarantinedState?
      ensures Restorable(hash, r, id, r.manifests[id])
    {
      SameScan(hash, s, r, id, r.manifests[id].original, r.manifests[id].identity);
    }
  }

  lemma ProcessingStays(s: State, r: State)
    requires ProcessingOk(s) && r.processing == s.processing && |r.tasks| == |s.tasks|
    requires forall k :: 0 <= k < |s.tasks| ==>
      r.tasks[k].kind == s.tasks[k].kind && (r.tasks[k].phase.Ended? <==> s.tasks[k].phase.Ended?)
    ensures ProcessingOk(r)
  {
    assert forall k: nat, p :: LiveAt(r, k, p) <==> LiveAt(s, k, p);
  }

  lemma SameScan(hash: Hash, s: State, r: State, id: nat, path: Path, identity: Identity)
    requires r.tasks == s.tasks && r.scans == s.scans
    ensures Owner(s, id, path) == Owner(r, id, path)
    ensures WasScanned(hash, s, id, identity) == WasScanned(hash, r, id, identity)
    ensures WasSafe(hash, s, id, identity) == WasSafe(hash, r, id, identity)
  {
  }

  lemma MovingKeeps(hash: Hash, s: State, t: nat, m: Move, io: Io)
    requires Inv(hash, s) && t < |s.tasks| && MoveShape(s, t, m)
    ensures var (r, next) := Moving(hash, s, t, m, io);
      Moved(hash, s, t, m, r, next)
  {
    assert !m.Over();
    hide MoveShape, MoveOk, MoveNext, Places, TaskOk, PlacementsOk, ConsumersOk, FilesOk, Frame;
    hide TrustOk, ManifestsOk, ProcessingOk;
    var (r, next) := Moving(hash, s, t, m, io);
    MovingFrame(hash, s, t, m, io);
    MovingOthers(hash, s, t, r);
    MovingFiles(hash, s, t, m, io);
    MovingPlacements(hash, s, t, m, io);
    MovingConsumer(hash, s, t, m, io);
    MovingRest(hash, s, r);
    MovingMove(hash, s, t, m, io);
    MovingDone(hash, s, t, m, io);
    if Kept(t) !in s.disk && m.dst != Kept(t) {
      MovingUnkept(hash, s, t, m, io);
    }
    MovingSource(hash, s, t, m, io);
    assert next == m.(at := next.at) by {
      NextMove(hash, s.disk, m, t, io);
    }
  }

  lemma NextMove(hash: Hash, disk: Disk, m: Move, t: nat, io: Io)
    ensures var next := MoveNext(hash, disk, m, t, io).1;
      next == m.(at := next.at)
  {
  }

  // ---------- Steps ----------

  /** `s` with task `t` moved on to `phase`, and possibly another map of paths being processed. */
  function Advanced(s: State, t: nat, phase: Phase, processing: map<Path, nat>): (r: State)
    requires t < |s.tasks|
    ensures |r.tasks| == |s.tasks|
  {
    At(s, t, phase).(processing := processing)
  }

  lemma AdvancedTasks(hash: Hash, s: State, t: nat, phase: Phase, processing: map<Path, nat>)
    requires t < |s.tasks| && !s.tasks[t].phase.Ended?
    requires forall k :: 0 <= k < |s.tasks| && k != t ==> TaskOk(hash, s, k)
    requires TaskOk(hash, Advanced(s, t, phase, processing), t)
    ensures TasksOk(hash, Advanced(s, t, phase, processing))
  {
    hide TaskOk;
    var r := Advanced(s, t, phase, processing);
    assert Frame(s, r, t);
    hide Frame;
    MovingOthers(hash, s, t, r);
  }

  lemma AdvancedFiles(s: State, t: nat, phase: Phase, processing: map<Path, nat>)
    requires t < |s.tasks| && !s.tasks[t].phase.Ended? && FilesOk(s) && PlacementsOk(s) && ConsumersOk(s)
    ensures var r := Advanced(s, t, phase, processing);
      FilesOk(r) && PlacementsOk(r) && ConsumersOk(r)
  {
    var r := Advanced(s, t, phase, processing);
    assert forall id: nat :: FilesOf(r, id) <==> FilesOf(s, id);
    hide FilesOf;
    forall q | q in r.placed
      ensures PlacementOk(r, q)
    {
      assert PlacementOk(s, q);
    }
  }

  lemma AdvancedRest(hash: Hash, s: State, t: nat, phase: Phase, processing: map<Path, nat>)
    requires t < |s.tasks| && !s.tasks[t].phase.Ended? && TrustOk(hash, s) && ManifestsOk(hash, s)
    ensures var r := Advanced(s, t, phase, processing);
      TrustOk(hash, r) && ManifestsOk(hash, r)
  {
    var r := Advanced(s, t, phase, processing);
    forall p | p in r.trusted
      ensures Vouched(hash, r, p, r.trusted[p])
    {
      var id :| id in s.scans && Owner(s, id, p) && WasSafe(hash, s, id, s.trusted[p]);
      assert Owner(r, id, p) && WasSafe(hash, r, id, r.trusted[p]);
    }
    forall id | id in r.manifests && r.manifests[id].state.QuarantinedState?
      ensures Restorable(hash, r, id, r.manifests[id])
    {
      assert Restorable(hash, s, id, s.manifests[id]);
    }
  }

  lemma AdvancedKeeps(hash: Hash, s: State, t: nat, phase: Phase, processing: map<Path, nat>)
    requires t < |s.tasks| && InvBut(hash, s, t) && !s.tasks[t].phase.Ended?
    requires TaskOk(hash, Advanced(s, t, phase, processing), t) && ProcessingOk(Advanced(s, t, phase, processing))
    ensures Inv(hash, Advanced(s, t, phase, processing))
  {
    hide TaskOk, TasksOk, FilesOk, PlacementsOk, TrustOk, ManifestsOk, ConsumersOk, ProcessingOk, Advanced;
    AdvancedTasks(hash, s, t, phase, processing);
    AdvancedFiles(s, t, phase, processing);
    AdvancedRest(hash, s, t, phase, processing);
  }

  lemma AtKeeps(hash: Hash, s: State, t: nat, phase: Phase)
    requires t < |s.tasks| && InvBut(hash, s, t) && !s.tasks[t].phase.Ended? && !phase.Ended?
    requires TaskOk(hash, At(s, t, phase), t)
    ensures Inv(hash, At(s, t, phase))
  {
    hide TaskOk, TasksOk, FilesOk, PlacementsOk, TrustOk, ManifestsOk, ConsumersOk;
    assert Advanced(s, t, phase, s.processing) == At(s, t, phase);
    ProcessingStays(s, At(s, t, phase));
    AdvancedKeeps(hash, s, t, phase, s.processing);
  }

  lemma EndLive(s: State, t: nat, ending: Ending, k: nat, p: Path)
    requires t < |s.tasks| && !s.tasks[t].phase.Ended?
    ensures LiveAt(End(s, t, ending), k, p) <==> LiveAt(s, k, p) && k != t
    ensures End(s, t, ending).processing == if s.tasks[t].kind.Process? then s.processing - {s.tasks[t].kind.path} else s.processing
    ensures LiveAt(s, t, p) <==> s.tasks[t].kind == Process(p)
  {
  }

  lemma EndProcessing(s: State, t: nat, ending: Ending)
    requires t < |s.tasks| && !s.tasks[t].phase.Ended? && ProcessingOk(s)
    ensures ProcessingOk(End(s, t, ending))
  {
    hide LiveAt, End;
    var e := End(s, t, ending);
    forall p | p in e.processing
      ensures LiveAt(e, e.processing[p], p)
    {
      EndLive(s, t, ending, 0, p);
      EndLive(s, t, ending, s.processing[p], p);
    }
    forall k: nat, p | LiveAt(e, k, p)
      ensures p in e.processing && e.processing[p] == k
    {
      EndLive(s, t, ending, k, p);
    }
  }

  lemma EndKeeps(hash: Hash, s: State, t: nat, ending: Ending)
    requires t < |s.tasks| && InvBut(hash, s, t) && !s.tasks[t].phase.Ended?
    requires TaskOk(hash, End(s, t, ending), t)
    ensures Inv(hash, End(s, t, ending))
  {
    hide TaskOk, TasksOk, FilesOk, PlacementsOk, TrustOk, ManifestsOk, ConsumersOk, ProcessingOk;
    var e := End(s, t, ending);
    EndProcessing(s, t, ending);
    assert e == Advanced(s, t, Ended(ending), e.processing);
    AdvancedKeeps(hash, s, t, Ended(ending), e.processing);
  }

  /** A step that changes only which paths are trusted, to vouched ones, or the manifests, to honest ones. */
  lemma RecordsKeep(hash: Hash, s: State, trusted: map<Path, Identity>, manifests: map<nat, Manifest>)
    requires Inv(hash, s)
    requires forall p :: p in trusted && !(p in s.trusted && s.trusted[p] == trusted[p]) ==> Vouched(hash, s, p, trusted[p])
    requires forall id :: id in manifests && manifests[id].state.QuarantinedState? ==> Restorable(hash, s, id, manifests[id])
    ensures Inv(hash, s.(trusted := trusted, manifests := manifests))
  {
    var r := s.(trusted := trusted, manifests := manifests);
    RecordsTasks(hash, s, trusted, manifests);
    RecordsFiles(s, trusted, manifests);
    ProcessingStays(s, r);
    hide TasksOk, FilesOk, PlacementsOk, ConsumersOk, ProcessingOk;
  }

  lemma RecordsTasks(hash: Hash, s: State, trusted: map<Path, Identity>, manifests: map<nat, Manifest>)
    requires TasksOk(hash, s)
    ensures TasksOk(hash, s.(trusted := trusted, manifests := manifests))
  {
    hide TaskOk;
    var r := s.(trusted := trusted, manifests := manifests);
    forall k | 0 <= k < |s.tasks|
      ensures TaskOk(hash, r, k)
    {
      assert Undisturbed(s, r, k);
      OthersKeep(hash, s, r, k);
    }
  }

  lemma RecordsFiles(s: State, trusted: map<Path, Identity>, manifests: map<nat, Manifest>)
    requires FilesOk(s) && PlacementsOk(s) && ConsumersOk(s)
    ensures var r := s.(trusted := trusted, manifests := manifests);
      FilesOk(r) && PlacementsOk(r) && ConsumersOk(r)
  {
    var r := s.(trusted := trusted, manifests := manifests);
    assert forall id: nat :: FilesOf(r, id) <==> FilesOf(s, id);
    hide FilesOf;
    assert forall q :: PlacementOk(r, q) <==> PlacementOk(s, q);
  }

  lemma ScannedOthers(hash: Hash, s: State, t: nat, file: Path, verdict: Verdict)
    requires TasksOk(hash, s) && t < |s.tasks| && t !in s.scans && file in s.disk
    ensures var r := GuardProtocol.Scanned(s, t, file, verdict);
      forall k :: 0 <= k < |r.tasks| && k != t ==> TaskOk(hash, r, k)
  {
    hide TaskOk;
    var r := GuardProtocol.Scanned(s, t, file, verdict);
    assert Frame(s, r, t);
    MovingOthers(hash, s, t, r);
  }

  lemma ScannedRest(hash: Hash, s: State, t: nat, file: Path, verdict: Verdict)
    requires TrustOk(hash, s) && ManifestsOk(hash, s) && t !in s.scans
    ensures var r := GuardProtocol.Scanned(s, t, file, verdict);
      TrustOk(hash, r) && ManifestsOk(hash, r)
  {
    var r := GuardProtocol.Scanned(s, t, file, verdict);
    forall p | p in r.trusted
      ensures Vouched(hash, r, p, r.trusted[p])
    {
      var id :| id in s.scans && Owner(s, id, p) && WasSafe(hash, s, id, s.trusted[p]);
      assert Owner(r, id, p) && WasSafe(hash, r, id, r.trusted[p]);
    }
    forall id | id in r.manifests && r.manifests[id].state.QuarantinedState?
      ensures Restorable(hash, r, id, r.manifests[id])
    {
      assert Restorable(hash, s, id, s.manifests[id]);
    }
  }

  lemma ScannedFiles(s: State, t: nat, file: Path, verdict: Verdict)
    requires FilesOk(s) && PlacementsOk(s) && ConsumersOk(s)
    requires t < |s.tasks| && t !in s.scans && file in s.disk && Kept(t) !in s.disk
    requires (file == Held(t) && s.tasks[t].kind.Process?) || (file == Staged(t) && s.tasks[t].kind.Install?)
    ensures var r := GuardProtocol.Scanned(s, t, file, verdict);
      FilesOk(r) && PlacementsOk(r) && ConsumersOk(r)
  {
    var r := GuardProtocol.Scanned(s, t, file, verdict);
    forall id: nat
      ensures FilesOf(r, id)
    {
      assert FilesOf(s, id);
    }
    hide FilesOf;
    forall q | q in r.placed
      ensures PlacementOk(r, q)
    {
      assert PlacementOk(s, q);
    }
  }

  lemma ScannedKeeps(hash: Hash, s: State, t: nat, file: Path, verdict: Verdict)
    requires Inv(hash, s) && t < |s.tasks| && t !in s.scans && file in s.disk && Kept(t) !in s.disk
    requires (file == Held(t) && s.tasks[t].kind.Process?) || (file == Staged(t) && s.tasks[t].kind.Install?)
    ensures InvBut(hash, GuardProtocol.Scanned(s, t, file, verdict), t)
  {
    hide TasksOk, TaskOk, FilesOk, PlacementsOk, ConsumersOk, TrustOk, ManifestsOk, ProcessingOk;
    ScannedOthers(hash, s, t, file, verdict);
    ScannedRest(hash, s, t, file, verdict);
    ScannedFiles(s, t, file, verdict);
    ProcessingStays(s, GuardProtocol.Scanned(s, t, file, verdict));
  }

  lemma TrustingRest(hash: Hash, s: State, t: nat, path: Path, identity: Identity)
    requires TrustOk(hash, s) && ManifestsOk(hash, s) && WasSafe(hash, s, t, identity) && Owner(s, t, path)
    ensures var r := GuardProtocol.Trusted(s, path, identity);
      TrustOk(hash, r) && ManifestsOk(hash, r)
  {
    var r := GuardProtocol.Trusted(s, path, identity);
    assert Vouched(hash, r, path, identity);
    forall p | p in r.trusted && p != path
      ensures Vouched(hash, r, p, r.trusted[p])
    {
      var id :| id in s.scans && Owner(s, id, p) && WasSafe(hash, s, id, s.trusted[p]);
      assert Owner(r, id, p) && WasSafe(hash, r, id, r.trusted[p]);
    }
  }

  lemma TrustingKeeps(hash: Hash, s: State, t: nat, path: Path, identity: Identity)
    requires t < |s.tasks| && InvBut(hash, s, t) && WasSafe(hash, s, t, identity) && Owner(s, t, path)
    ensures InvBut(hash, GuardProtocol.Trusted(s, path, identity), t)
  {
    var r := GuardProtocol.Trusted(s, path, identity);
    TrustingRest(hash, s, t, path, identity);
    RecordsFiles(s, r.trusted, s.manifests);
    ProcessingStays(s, r);
    hide FilesOk, PlacementsOk, ConsumersOk, ProcessingOk, TaskOk, TrustOk, ManifestsOk;
    assert Frame(s, r, t);
    MovingOthers(hash, s, t, r);
  }

  lemma ManifestRest(hash: Hash, s: State, id: nat, m: Manifest, io: Io)
    requires TrustOk(hash, s) && ManifestsOk(hash, s) && !m.state.QuarantinedState?
    ensures TrustOk(hash, WriteManifest(s, id, m, io)) && ManifestsOk(hash, WriteManifest(s, id, m, io))
  {
    var r := WriteManifest(s, id, m, io);
    forall p | p in r.trusted
      ensures Vouched(hash, r, p, r.trusted[p])
    {
      var k :| k in s.scans && Owner(s, k, p) && WasSafe(hash, s, k, s.trusted[p]);
      assert Owner(r, k, p) && WasSafe(hash, r, k, r.trusted[p]);
    }
    forall k | k in r.manifests && r.manifests[k].state.QuarantinedState?
      ensures Restorable(hash, r, k, r.manifests[k])
    {
      assert Restorable(hash, s, k, s.manifests[k]);
    }
  }

  lemma ManifestKeeps(hash: Hash, s: State, t: nat, id: nat, m: Manifest, io: Io)
    requires t < |s.tasks| && InvBut(hash, s, t) && !m.state.QuarantinedState?
    ensures InvBut(hash, WriteManifest(s, id, m, io), t)
  {
    var r := WriteManifest(s, id, m, io);
    ManifestRest(hash, s, id, m, io);
    RecordsFiles(s, s.trusted, r.manifests);
    ProcessingStays(s, r);
    hide FilesOk, PlacementsOk, ConsumersOk, ProcessingOk, TaskOk, TrustOk, ManifestsOk;
    assert Frame(s, r, t);
    MovingOthers(hash, s, t, r);
  }

  lemma Facts(hash: Hash, s: State, t: nat)
    requires Inv(hash, s) && t < |s.tasks|
    ensures InvBut(hash, s, t) && TaskOk(hash, s, t) && FilesOf(s, t)
  {
    hide FilesOf, PlacementsOk, ConsumersOk, ProcessingOk, TaskOk, TrustOk, ManifestsOk;
  }

  /** The private file that a task of its own hands to quarantine. */
  function SourceOf(s: State, t: nat): Path
    requires t < |s.tasks|
  {
    if s.tasks[t].kind.Process? then Held(t) else Staged(t)
  }

  /** A process or install task may end whenever it likes, as quarantined once its own file is gone. */
  lemma EndsQuietly(hash: Hash, s: State, t: nat, ending: Ending)
    requires t < |s.tasks| && InvBut(hash, s, t) && !s.tasks[t].phase.Ended?
    requires !s.tasks[t].kind.Restore? && s.tasks[t].kind.path.Game?
    requires ending.Quarantined? ==> SourceOf(s, t) !in s.disk
    ensures Inv(hash, End(s, t, ending))
  {
    hide Inv, InvBut, TaskOk;
    EndedOk(hash, End(s, t, ending), t);
    EndKeeps(hash, s, t, ending);
  }

  lemma EndedOk(hash: Hash, s: State, t: nat)
    requires t < |s.tasks| && s.tasks[t].phase.Ended? && !s.tasks[t].kind.Restore? && s.tasks[t].kind.path.Game?
    requires s.tasks[t].phase.ending.Quarantined? ==> SourceOf(s, t) !in s.disk
    ensures TaskOk(hash, s, t)
  {
    hide MoveOk, WasSafe, WasScanned, RestoreOk;
  }

  lemma CheckTrustedStep(hash: Hash, s: State, t: nat, io: Io, verdict: Verdict)
    requires Inv(hash, s) && t < |s.tasks| && s.tasks[t].kind.Process? && s.tasks[t].phase.CheckTrusted?
    ensures Inv(hash, ProcessNext(hash, s, t, io, verdict))
  {
    hide Inv, InvBut, SameIdentity, ReleaseNext, QuarantineNext, ProcessOk, InstallOk, RestoreOk, FilesOf, End, At;
    Facts(hash, s, t);
    var path := s.tasks[t].kind.path;
    if path in s.trusted && path in s.disk && !io.Fine? {
      EndsQuietly(hash, s, t, Threw);
    } else if path in s.trusted && SameIdentity(hash, Read(s.disk, path, io), s.trusted[path]) {
      EndsQuietly(hash, s, t, TrustedHit);
    } else if path in s.trusted {
      var distrusted := s.(trusted := s.trusted - {path});
      Distrusting(hash, s, path);
      ToStageHash(hash, distrusted, t);
    } else {
      ToStageHash(hash, s, t);
    }
  }

  lemma ToStageHash(hash: Hash, s: State, t: nat)
    requires Inv(hash, s) && t < |s.tasks| && s.tasks[t].kind.Process? && s.tasks[t].phase.CheckTrusted?
    ensures Inv(hash, At(s, t, StageHash))
  {
    hide Inv, InvBut, QuarantineOk, InstallOk, RestoreOk, FilesOf, MoveOk, WasSafe, WasScanned;
    Facts(hash, s, t);
    AtKeeps(hash, s, t, StageHash);
  }

  lemma Distrusting(hash: Hash, s: State, path: Path)
    requires Inv(hash, s)
    ensures Inv(hash, s.(trusted := s.trusted - {path}))
  {
    hide TasksOk, FilesOk, PlacementsOk, ConsumersOk, ProcessingOk, TrustOk;
    RecordsKeep(hash, s, s.trusted - {path}, s.manifests);
  }

  lemma StageHashStep(hash: Hash, s: State, t: nat, io: Io, verdict: Verdict)
    requires Inv(hash, s) && t < |s.tasks| && s.tasks[t].kind.Process? && s.tasks[t].phase.StageHash?
    ensures Inv(hash, ProcessNext(hash, s, t, io, verdict))
  {
    hide Inv, InvBut, FilesOf, ReleaseNext, QuarantineNext, QuarantineOk, InstallOk, RestoreOk, End;
    Facts(hash, s, t);
    var path := s.tasks[t].kind.path;
    var seen := Read(s.disk, path, io);
    if seen.None? {
      EndsQuietly(hash, s, t, if path !in s.disk then Disappeared else NotHeld);
    } else {
      AtKeeps(hash, s, t, Staging(StartMove(path, Held(t), IdentityOf(hash, seen.value))));
    }
  }

  lemma StagingOk(hash: Hash, s: State, t: nat, r: State, next: Move)
    requires t < |s.tasks| && s.tasks[t].kind.Process? && s.tasks[t].phase.Staging? && TaskOk(hash, s, t)
    requires Moved(hash, s, t, s.tasks[t].phase.m, r, next)
    ensures next.at.AtDone? ==> TaskOk(hash, At(r, t, Scanning(next.identity)), t)
    ensures !next.Over() ==> TaskOk(hash, At(r, t, Staging(next)), t)
  {
    hide InvBut, Frame, QuarantineOk, InstallOk, RestoreOk, MoveOk;
    SamePhaseMove(r, t, Staging(next), next);
  }

  lemma StagingStep(hash: Hash, s: State, t: nat, io: Io, verdict: Verdict)
    requires Inv(hash, s) && t < |s.tasks| && s.tasks[t].kind.Process? && s.tasks[t].phase.Staging?
    ensures Inv(hash, ProcessNext(hash, s, t, io, verdict))
  {
    hide Inv, InvBut, Moving, MoveNext, Places, MoveOk, FilesOf, Frame, ReleaseNext, QuarantineNext, QuarantineOk, InstallOk,
      RestoreOk, End, At;
    Facts(hash, s, t);
    var m := s.tasks[t].phase.m;
    MovingKeeps(hash, s, t, m, io);
    var (r, next) := Moving(hash, s, t, m, io);
    StagingOk(hash, s, t, r, next);
    hide TaskOk, ProcessOk;
    if next.at.AtDone? {
      AtKeeps(hash, r, t, Scanning(next.identity));
    } else if next.at.AtFailed? {
      EndsQuietly(hash, r, t, if next.at.missing then Disappeared else NotHeld);
    } else {
      AtKeeps(hash, r, t, Staging(next));
    }
  }

  /** What is known of a move does not depend on the phase of its task. */
  lemma SamePhaseMove(s: State, t: nat, phase: Phase, m: Move)
    requires t < |s.tasks|
    ensures MoveOk(At(s, t, phase), t, Payload(s, t), m) == MoveOk(s, t, Payload(s, t), m)
  {
  }

  lemma ScanningStep(hash: Hash, s: State, t: nat, io: Io, verdict: Verdict)
    requires Inv(hash, s) && t < |s.tasks| && s.tasks[t].kind.Process? && s.tasks[t].phase.Scanning?
    ensures Inv(hash, ProcessNext(hash, s, t, io, verdict))
  {
    hide Inv, InvBut, FilesOf, ReleaseNext, QuarantineNext, QuarantineOk, InstallOk, RestoreOk, MoveOk;
    Facts(hash, s, t);
    ScannedKeeps(hash, s, t, Held(t), verdict);
    AtKeeps(hash, GuardProtocol.Scanned(s, t, Held(t), verdict), t, Verifying(s.tasks[t].phase.identity, verdict));
  }

  lemma VerifyingStep(hash: Hash, s: State, t: nat, io: Io, verdict: Verdict)
    requires Inv(hash, s) && t < |s.tasks| && s.tasks[t].kind.Process? && s.tasks[t].phase.Verifying?
    ensures Inv(hash, ProcessNext(hash, s, t, io, verdict))
  {
    hide Inv, InvBut, FilesOf, ReleaseNext, QuarantineNext, InstallOk, RestoreOk, MoveOk;
    Facts(hash, s, t);
    var identity, said := s.tasks[t].phase.identity, s.tasks[t].phase.verdict;
    if SameIdentity(hash, Read(s.disk, Held(t), io), identity) && DecideContainment(said).Release? {
      AtKeeps(hash, s, t, ReleaseVerify(identity));
    } else {
      AtKeeps(hash, s, t, QuarantineHash);
    }
  }

  lemma ReleaseVerifyStep(hash: Hash, s: State, t: nat, path: Path, io: Io)
    requires Inv(hash, s) && t < |s.tasks| && s.tasks[t].kind == Process(path) && s.tasks[t].phase.ReleaseVerify?
    ensures Inv(hash, ReleaseNext(hash, s, t, path, io))
  {
    hide Inv, InvBut, FilesOf, QuarantineNext, InstallOk, RestoreOk, SameIdentity, MoveOk;
    Facts(hash, s, t);
    AtKeeps(hash, s, t, QuarantineHash);
    AtKeeps(hash, s, t, ReleaseAccess(s.tasks[t].phase.identity));
  }

  lemma ReleaseAccessStep(hash: Hash, s: State, t: nat, path: Path, io: Io)
    requires Inv(hash, s) && t < |s.tasks| && s.tasks[t].kind == Process(path) && s.tasks[t].phase.ReleaseAccess?
    ensures Inv(hash, ReleaseNext(hash, s, t, path, io))
  {
    hide Inv, InvBut, FilesOf, QuarantineNext, InstallOk, RestoreOk, Absent;
    Facts(hash, s, t);
    AtKeeps(hash, s, t, QuarantineHash);
    AtKeeps(hash, s, t, Releasing(StartMove(Held(t), path, s.tasks[t].phase.identity)));
  }

  lemma ReleasingOk(hash: Hash, s: State, t: nat, r: State, next: Move)
    requires t < |s.tasks| && s.tasks[t].kind.Process? && s.tasks[t].phase.Releasing? && TaskOk(hash, s, t)
    requires Moved(hash, s, t, s.tasks[t].phase.m, r, next)
    ensures TaskOk(hash, At(r, t, QuarantineHash), t)
    ensures !next.Over() ==> TaskOk(hash, At(r, t, Releasing(next)), t)
    ensures WasSafe(hash, r, t, next.identity) && Owner(r, t, s.tasks[t].kind.path)
  {
    hide InvBut, Frame, InstallOk, RestoreOk, MoveOk;
    SamePhaseMove(r, t, Releasing(next), next);
  }

  lemma ReleasingStep(hash: Hash, s: State, t: nat, path: Path, io: Io)
    requires Inv(hash, s) && t < |s.tasks| && s.tasks[t].kind == Process(path) && s.tasks[t].phase.Releasing?
    ensures Inv(hash, ReleaseNext(hash, s, t, path, io))
  {
    hide Inv, InvBut, Moving, MoveNext, Places, MoveOk, FilesOf, Frame, QuarantineNext, QuarantineOk, InstallOk, RestoreOk;
    hide End, At;
    Facts(hash, s, t);
    var m := s.tasks[t].phase.m;
    MovingKeeps(hash, s, t, m, io);
    var (r, next) := Moving(hash, s, t, m, io);
    ReleasingOk(hash, s, t, r, next);
    hide TaskOk, ProcessOk, WasSafe, Owner;
    if next.at.AtDone? {
      TrustingKeeps(hash, r, t, path, next.identity);
      EndsQuietly(hash, GuardProtocol.Trusted(r, path, next.identity), t, Released);
    } else {
      AtKeeps(hash, r, t, if next.at.AtFailed? then QuarantineHash else Releasing(next));
    }
  }

  // ---------- Quarantine ----------

  lemma QuarantineHashStep(hash: Hash, s: State, t: nat, path: Path, io: Io)
    requires Inv(hash, s) && t < |s.tasks| && !s.tasks[t].kind.Restore? && s.tasks[t].kind.path == path
    requires s.tasks[t].phase.QuarantineHash?
    ensures Inv(hash, QuarantineNext(hash, s, t, SourceOf(s, t), path, io))
  {
    hide Inv, InvBut, RestoreOk, End, MoveOk;
    Facts(hash, s, t);
    EndsQuietly(hash, s, t, LeftBehind);
    var seen := Read(s.disk, SourceOf(s, t), io);
    if seen.Some? {
      AtKeeps(hash, s, t, QuarantinePending(IdentityOf(hash, seen.value)));
    }
  }

  lemma PendingNext(hash: Hash, s: State, t: nat, source: Path, path: Path, io: Io)
    requires t < |s.tasks| && s.tasks[t].phase.QuarantinePending?
    ensures var before := s.tasks[t].phase.before;
      QuarantineNext(hash, s, t, source, path, io) ==
        if t in s.manifests || !io.Fine? then End(s, t, LeftBehind)
        else At(WriteManifest(s, t, Manifest(PendingState, path, before), io), t,
                Quarantining(StartMove(source, Kept(t), before)))
  {
    hide At, End, WriteManifest;
  }

  lemma QuarantinePendingStep(hash: Hash, s: State, t: nat, path: Path, io: Io)
    requires Inv(hash, s) && t < |s.tasks| && !s.tasks[t].kind.Restore? && s.tasks[t].kind.path == path
    requires s.tasks[t].phase.QuarantinePending?
    ensures Inv(hash, QuarantineNext(hash, s, t, SourceOf(s, t), path, io))
  {
    PendingNext(hash, s, t, SourceOf(s, t), path, io);
    hide Inv, InvBut, RestoreOk, End, FilesOf, QuarantineNext, WriteManifest;
    Facts(hash, s, t);
    EndsQuietly(hash, s, t, LeftBehind);
    if t !in s.manifests && io.Fine? {
      var before := s.tasks[t].phase.before;
      var pending := Manifest(PendingState, path, before);
      ManifestKeeps(hash, s, t, t, pending, io);
      MoveStarts(hash, s, t, before, pending, io);
      AtKeeps(hash, WriteManifest(s, t, pending, io), t, Quarantining(StartMove(SourceOf(s, t), Kept(t), before)));
    }
  }

  lemma MoveStarts(hash: Hash, s: State, t: nat, before: Identity, pending: Manifest, io: Io)
    requires t < |s.tasks| && !s.tasks[t].kind.Restore? && TaskOk(hash, s, t)
    requires s.tasks[t].phase == QuarantinePending(before)
    ensures TaskOk(hash, At(WriteManifest(s, t, pending, io), t, Quarantining(StartMove(SourceOf(s, t), Kept(t), before))), t)
  {
    hide RestoreOk;
  }

  predicate InQuarantine(phase: Phase) {
    phase.Quarantining? || phase.QuarantineWrite? || phase.QuarantineFailed?
  }

  lemma QuarantineIsTask(hash: Hash, s: State, t: nat)
    requires t < |s.tasks| && !s.tasks[t].kind.Restore? && s.tasks[t].kind.path.Game? && InQuarantine(s.tasks[t].phase)
    ensures TaskOk(hash, s, t) <==> QuarantineOk(hash, s, t, SourceOf(s, t))
  {
    hide QuarantineOk;
  }

  lemma QuarantiningOk(hash: Hash, s: State, t: nat, r: State, next: Move)
    requires t < |s.tasks| && !s.tasks[t].kind.Restore? && s.tasks[t].phase.Quarantining? && TaskOk(hash, s, t)
    requires Moved(hash, s, t, s.tasks[t].phase.m, r, next)
    ensures next.at.AtDone? ==> TaskOk(hash, At(r, t, QuarantineWrite(next.identity)), t)
    ensures TaskOk(hash, At(r, t, QuarantineFailed(next.identity)), t)
    ensures !next.Over() ==> TaskOk(hash, At(r, t, Quarantining(next)), t)
  {
    hide InvBut, Frame, MoveOk, TaskOk;
    assert s.tasks[t].kind.path.Game? by { IsGamePath(hash, s, t); }
    QuarantineIsTask(hash, s, t);
    QuarantineIsTask(hash, At(r, t, QuarantineWrite(next.identity)), t);
    QuarantineIsTask(hash, At(r, t, QuarantineFailed(next.identity)), t);
    QuarantineIsTask(hash, At(r, t, Quarantining(next)), t);
    SamePhaseMove(r, t, Quarantining(next), next);
  }

  lemma IsGamePath(hash: Hash, s: State, t: nat)
    requires t < |s.tasks| && !s.tasks[t].kind.Restore? && TaskOk(hash, s, t)
    ensures s.tasks[t].kind.path.Game?
  {
    hide ProcessOk, InstallOk;
  }

  lemma QuarantiningStep(hash: Hash, s: State, t: nat, path: Path, io: Io)
    requires Inv(hash, s) && t < |s.tasks| && !s.tasks[t].kind.Restore? && s.tasks[t].kind.path == path
    requires s.tasks[t].phase.Quarantining?
    ensures Inv(hash, QuarantineNext(hash, s, t, SourceOf(s, t), path, io))
  {
    hide Inv, InvBut, Moving, MoveNext, Places, MoveOk, FilesOf, Frame, RestoreOk, End, At;
    Facts(hash, s, t);
    var m := s.tasks[t].phase.m;
    MovingKeeps(hash, s, t, m, io);
    var (r, next) := Moving(hash, s, t, m, io);
    QuarantiningOk(hash, s, t, r, next);
    hide TaskOk, ProcessOk, InstallOk, QuarantineOk;
    AtKeeps(hash, r, t,
      if next.at.AtDone? then QuarantineWrite(m.identity)
      else if next.at.AtFailed? then QuarantineFailed(m.identity) else Quarantining(next));
  }

  /** The manifest says quarantined only when the task is over and the file lies in quarantine as scanned. */
  lemma QuarantinedKeeps(hash: Hash, s: State, t: nat, path: Path, before: Identity)
    requires Inv(hash, s) && t < |s.tasks| && s.tasks[t].phase == Ended(Quarantined)
    requires Owner(s, t, path) && WasScanned(hash, s, t, before)
    ensures Inv(hash, Distrusted(s.(manifests := s.manifests[t := Manifest(QuarantinedState, path, before)]), t, path))
  {
    hide TasksOk, FilesOk, PlacementsOk, ConsumersOk, ProcessingOk, TrustOk;
    var manifests := s.manifests[t := Manifest(QuarantinedState, path, before)];
    RecordsKeep(hash, s, s.trusted, manifests);
    RecordsKeep(hash, s, s.trusted - {path}, manifests);
    assert s.(manifests := manifests) == s.(trusted := s.trusted, manifests := manifests);
  }

  lemma QuarantineFailedStep(hash: Hash, s: State, t: nat, path: Path, io: Io)
    requires Inv(hash, s) && t < |s.tasks| && !s.tasks[t].kind.Restore? && s.tasks[t].kind.path == path
    requires s.tasks[t].phase.QuarantineFailed?
    ensures Inv(hash, QuarantineNext(hash, s, t, SourceOf(s, t), path, io))
  {
    hide Inv, InvBut, FilesOf, RestoreOk, MoveOk, End, WasScanned;
    Facts(hash, s, t);
    var failed := Manifest(FailedState, path, s.tasks[t].phase.before);
    ManifestKeeps(hash, s, t, t, failed, io);
    EndsQuietly(hash, WriteManifest(s, t, failed, io), t, LeftBehind);
  }

  lemma EndIs(s: State, t: nat, ending: Ending)
    requires t < |s.tasks|
    ensures var e := End(s, t, ending);
      |e.tasks| == |s.tasks| && e.tasks[t] == Task(s.tasks[t].kind, Ended(ending)) && e.scans == s.scans
  {
    hide End;
  }

  lemma QuarantineWriteStep(hash: Hash, s: State, t: nat, path: Path, io: Io)
    requires Inv(hash, s) && t < |s.tasks| && !s.tasks[t].kind.Restore? && s.tasks[t].kind.path == path
    requires s.tasks[t].phase.QuarantineWrite?
    ensures Inv(hash, QuarantineNext(hash, s, t, SourceOf(s, t), path, io))
  {
    hide Inv, InvBut, FilesOf, RestoreOk, MoveOk, End, Distrusted;
    Facts(hash, s, t);
    var before := s.tasks[t].phase.before;
    if !io.Fine? {
      AtKeeps(hash, s, t, QuarantineFailed(before));
    } else {
      EndsQuietly(hash, s, t, Quarantined);
      EndIs(s, t, Quarantined);
      QuarantinedKeeps(hash, End(s, t, Quarantined), t, path, before);
    }
  }

  // ---------- Restore ----------

  lemma NotRestoredKeeps(hash: Hash, s: State, t: nat)
    requires t < |s.tasks| && InvBut(hash, s, t) && s.tasks[t].kind.Restore? && !s.tasks[t].phase.Ended?
    ensures Inv(hash, End(s, t, NotRestored))
  {
    hide Inv, InvBut;
    EndKeeps(hash, s, t, NotRestored);
  }

  lemma RestoreReadStep(hash: Hash, s: State, t: nat, io: Io)
    requires Inv(hash, s) && t < |s.tasks| && s.tasks[t].kind.Restore? && s.tasks[t].phase.RestoreRead?
    ensures Inv(hash, RestoreNext(hash, s, t, io))
  {
    hide Inv, InvBut, FilesOf, ProcessOk, InstallOk, MoveOk, End, GaveBack;
    Facts(hash, s, t);
    NotRestoredKeeps(hash, s, t);
    var id := s.tasks[t].kind.payload;
    if id in s.manifests && s.manifests[id].state.QuarantinedState? {
      ManifestIsHonest(hash, s, id);
      AtKeeps(hash, s, t, RestoreHash(s.manifests[id]));
    }
  }

  lemma RestoreHashStep(hash: Hash, s: State, t: nat, io: Io)
    requires Inv(hash, s) && t < |s.tasks| && s.tasks[t].kind.Restore? && s.tasks[t].phase.RestoreHash?
    ensures Inv(hash, RestoreNext(hash, s, t, io))
  {
    hide Inv, InvBut, FilesOf, ProcessOk, InstallOk, MoveOk, End, GaveBack, SameIdentity;
    Facts(hash, s, t);
    NotRestoredKeeps(hash, s, t);
    AtKeeps(hash, s, t, RestoreAccess(s.tasks[t].phase.manifest));
  }

  lemma RestoreAccessStep(hash: Hash, s: State, t: nat, io: Io)
    requires Inv(hash, s) && t < |s.tasks| && s.tasks[t].kind.Restore? && s.tasks[t].phase.RestoreAccess?
    ensures Inv(hash, RestoreNext(hash, s, t, io))
  {
    hide Inv, InvBut, FilesOf, ProcessOk, InstallOk, End, GaveBack, Absent;
    Facts(hash, s, t);
    NotRestoredKeeps(hash, s, t);
    var id, manifest := s.tasks[t].kind.payload, s.tasks[t].phase.manifest;
    AtKeeps(hash, s, t, Restoring(manifest, StartMove(Kept(id), manifest.original, manifest.identity)));
  }

  lemma ManifestIsHonest(hash: Hash, s: State, id: nat)
    requires Inv(hash, s) && id in s.manifests && s.manifests[id].state.QuarantinedState?
    ensures Restorable(hash, s, id, s.manifests[id])
  {
    hide Restorable;
  }

  lemma RestoringOk(hash: Hash, s: State, t: nat, r: State, next: Move)
    requires t < |s.tasks| && s.tasks[t].kind.Restore? && s.tasks[t].phase.Restoring? && TaskOk(hash, s, t)
    requires Moved(hash, s, t, s.tasks[t].phase.m, r, next)
    ensures next.at.AtDone? ==> TaskOk(hash, At(r, t, RestoreWrite(s.tasks[t].phase.manifest)), t)
    ensures !next.Over() ==> TaskOk(hash, At(r, t, Restoring(s.tasks[t].phase.manifest, next)), t)
  {
    hide InvBut, ProcessOk, InstallOk, MoveOk, DiskFrame;
    SamePhaseMove(r, t, Restoring(s.tasks[t].phase.manifest, next), next);
  }

  lemma RestoringStep(hash: Hash, s: State, t: nat, io: Io)
    requires Inv(hash, s) && t < |s.tasks| && s.tasks[t].kind.Restore? && s.tasks[t].phase.Restoring?
    ensures Inv(hash, RestoreNext(hash, s, t, io))
  {
    hide Inv, InvBut, Moving, MoveNext, Places, MoveOk, FilesOf, Frame, ProcessOk, InstallOk, End, At;
    Facts(hash, s, t);
    var manifest, m := s.tasks[t].phase.manifest, s.tasks[t].phase.m;
    MovingKeeps(hash, s, t, m, io);
    var (r, next) := Moving(hash, s, t, m, io);
    RestoringOk(hash, s, t, r, next);
    hide TaskOk, RestoreOk;
    if next.at.AtDone? {
      AtKeeps(hash, r, t, RestoreWrite(manifest));
    } else if next.at.AtFailed? {
      NotRestoredKeeps(hash, r, t);
    } else {
      AtKeeps(hash, r, t, Restoring(manifest, next));
    }
  }

  lemma RestoreWriteStep(hash: Hash, s: State, t: nat, io: Io)
    requires Inv(hash, s) && t < |s.tasks| && s.tasks[t].kind.Restore? && s.tasks[t].phase.RestoreWrite?
    ensures Inv(hash, RestoreNext(hash, s, t, io))
  {
    hide Inv, InvBut, FilesOf, ProcessOk, InstallOk, MoveOk;
    Facts(hash, s, t);
    NotRestoredKeeps(hash, s, t);
    var written := s.tasks[t].phase.manifest.(state := RestoredState);
    ManifestKeeps(hash, s, t, s.tasks[t].kind.payload, written, io);
    EndKeeps(hash, WriteManifest(s, s.tasks[t].kind.payload, written, io), t, Restored);
  }

  // ---------- Managed install ----------

  lemma InstallCopyStep(hash: Hash, s: State, t: nat, io: Io, verdict: Verdict)
    requires Inv(hash, s) && t < |s.tasks| && s.tasks[t].kind.Install? && s.tasks[t].phase.InstallCopy?
    ensures Inv(hash, InstallNext(hash, s, t, io, verdict))
  {
    hide Inv, InvBut, ProcessOk, RestoreOk, MoveOk, PlaceNext, End;
    Facts(hash, s, t);
    EndsQuietly(hash, s, t, NotInstalled);
    var seen := Read(s.disk, s.tasks[t].kind.source, io);
    if seen.Some? {
      StagedKeeps(hash, s, t, seen.value);
      AtKeeps(hash, s.(disk := s.disk[Staged(t) := seen.value]), t, InstallHash);
    }
  }

  lemma StagedKeeps(hash: Hash, s: State, t: nat, b: Bytes)
    requires Inv(hash, s) && t < |s.tasks| && s.tasks[t].kind.Install? && t !in s.scans && !s.tasks[t].phase.Ended?
    ensures InvBut(hash, s.(disk := s.disk[Staged(t) := b]), t)
  {
    hide TaskOk, PlacementOk, TrustOk;
    var r := s.(disk := s.disk[Staged(t) := b]);
    MovingRest(hash, s, r);
    forall id: nat
      ensures FilesOf(r, id)
    {
      assert FilesOf(s, id);
    }
    hide FilesOf, ManifestsOk, ProcessingOk;
    assert forall q :: PlacementOk(r, q) <==> PlacementOk(s, q) by {
      SamePlacements(s, r);
    }
    assert Frame(s, r, t);
    MovingOthers(hash, s, t, r);
  }

  lemma SamePlacements(s: State, r: State)
    requires r.tasks == s.tasks && r.scans == s.scans && r.tampered == s.tampered
    ensures forall q :: PlacementOk(r, q) <==> PlacementOk(s, q)
  {
  }

  lemma InstallHashStep(hash: Hash, s: State, t: nat, io: Io, verdict: Verdict)
    requires Inv(hash, s) && t < |s.tasks| && s.tasks[t].kind.Install? && s.tasks[t].phase.InstallHash?
    ensures Inv(hash, InstallNext(hash, s, t, io, verdict))
  {
    hide Inv, InvBut, ProcessOk, RestoreOk, MoveOk, PlaceNext, QuarantineOk, End, FilesOf;
    Facts(hash, s, t);
    EndsQuietly(hash, s, t, NotInstalled);
    AtKeeps(hash, s, t, InstallScan(IdentityOf(hash, s.disk[Staged(t)])));
  }

  lemma InstallScanStep(hash: Hash, s: State, t: nat, io: Io, verdict: Verdict)
    requires Inv(hash, s) && t < |s.tasks| && s.tasks[t].kind.Install? && s.tasks[t].phase.InstallScan?
    ensures Inv(hash, InstallNext(hash, s, t, io, verdict))
  {
    hide Inv, InvBut, ProcessOk, RestoreOk, MoveOk, PlaceNext, QuarantineOk, End, FilesOf;
    Facts(hash, s, t);
    ScannedKeeps(hash, s, t, Staged(t), verdict);
    AtKeeps(hash, GuardProtocol.Scanned(s, t, Staged(t), verdict), t, InstallVerify(s.tasks[t].phase.before, verdict));
  }

  lemma InstallVerifyStep(hash: Hash, s: State, t: nat, io: Io, verdict: Verdict)
    requires Inv(hash, s) && t < |s.tasks| && s.tasks[t].kind.Install? && s.tasks[t].phase.InstallVerify?
    ensures Inv(hash, InstallNext(hash, s, t, io, verdict))
  {
    hide Inv, InvBut, ProcessOk, RestoreOk, MoveOk, PlaceNext, End, FilesOf;
    Facts(hash, s, t);
    EndsQuietly(hash, s, t, NotInstalled);
    var before, said := s.tasks[t].phase.before, s.tasks[t].phase.verdict;
    AtKeeps(hash, s, t, QuarantineHash);
    if DecideContainment(said).Release? {
      AtKeeps(hash, s, t, InstallAccess(before));
    }
  }

  lemma InstallAccessStep(hash: Hash, s: State, t: nat, path: Path, io: Io)
    requires Inv(hash, s) && t < |s.tasks| && s.tasks[t].kind.Install? && s.tasks[t].kind.path == path && s.tasks[t].phase.InstallAccess?
    ensures Inv(hash, PlaceNext(hash, s, t, path, io))
  {
    hide Inv, InvBut, ProcessOk, RestoreOk, QuarantineNext, QuarantineOk, End, FilesOf, MoveOk;
    Facts(hash, s, t);
    EndsQuietly(hash, s, t, NotInstalled);
    AtKeeps(hash, s, t, InstallRehash(s.tasks[t].phase.after));
  }

  lemma InstallRehashStep(hash: Hash, s: State, t: nat, path: Path, io: Io)
    requires Inv(hash, s) && t < |s.tasks| && s.tasks[t].kind.Install? && s.tasks[t].kind.path == path && s.tasks[t].phase.InstallRehash?
    ensures Inv(hash, PlaceNext(hash, s, t, path, io))
  {
    hide Inv, InvBut, ProcessOk, RestoreOk, QuarantineNext, QuarantineOk, End, FilesOf, SameIdentity;
    Facts(hash, s, t);
    EndsQuietly(hash, s, t, NotInstalled);
    AtKeeps(hash, s, t, Installing(StartMove(Staged(t), s.tasks[t].kind.path, s.tasks[t].phase.after)));
  }

  lemma InstallCheckStep(hash: Hash, s: State, t: nat, path: Path, io: Io)
    requires Inv(hash, s) && t < |s.tasks| && s.tasks[t].kind.Install? && s.tasks[t].kind.path == path && s.tasks[t].phase.InstallCheck?
    ensures Inv(hash, PlaceNext(hash, s, t, path, io))
  {
    hide Inv, InvBut, ProcessOk, InstallOk, RestoreOk, QuarantineNext, QuarantineOk, End, FilesOf, SameIdentity;
    Facts(hash, s, t);
    EndsQuietly(hash, s, t, NotInstalled);
    EndsQuietly(hash, s, t, Installed);
  }

  lemma InstallingOk(hash: Hash, s: State, t: nat, r: State, next: Move)
    requires t < |s.tasks| && s.tasks[t].kind.Install? && s.tasks[t].phase.Installing? && TaskOk(hash, s, t)
    requires Moved(hash, s, t, s.tasks[t].phase.m, r, next)
    ensures TaskOk(hash, At(r, t, InstallCheck(next.identity)), t)
    ensures !next.Over() ==> TaskOk(hash, At(r, t, Installing(next)), t)
  {
    hide InvBut, Frame, ProcessOk, RestoreOk, MoveOk, QuarantineOk;
    SamePhaseMove(r, t, Installing(next), next);
  }

  lemma InstallingStep(hash: Hash, s: State, t: nat, path: Path, io: Io)
    requires Inv(hash, s) && t < |s.tasks| && s.tasks[t].kind.Install? && s.tasks[t].kind.path == path && s.tasks[t].phase.Installing?
    ensures Inv(hash, PlaceNext(hash, s, t, path, io))
  {
    hide Inv, InvBut, Moving, MoveNext, Places, MoveOk, FilesOf, Frame, ProcessOk, RestoreOk, QuarantineOk, QuarantineNext;
    hide End, At;
    Facts(hash, s, t);
    var m := s.tasks[t].phase.m;
    MovingKeeps(hash, s, t, m, io);
    var (r, next) := Moving(hash, s, t, m, io);
    InstallingOk(hash, s, t, r, next);
    hide TaskOk, InstallOk;
    if next.at.AtDone? {
      AtKeeps(hash, r, t, InstallCheck(next.identity));
    } else if next.at.AtFailed? {
      EndsQuietly(hash, r, t, NotInstalled);
    } else {
      AtKeeps(hash, r, t, Installing(next));
    }
  }

  // ---------- Every step ----------

  lemma QuarantineKeepsInv(hash: Hash, s: State, t: nat, path: Path, io: Io)
    requires Inv(hash, s) && t < |s.tasks| && !s.tasks[t].kind.Restore? && s.tasks[t].kind.path == path
    ensures Inv(hash, QuarantineNext(hash, s, t, SourceOf(s, t), path, io))
  {
    hide Inv;
    match s.tasks[t].phase
    case QuarantineHash => QuarantineHashStep(hash, s, t, path, io);
    case QuarantinePending(_) => QuarantinePendingStep(hash, s, t, path, io);
    case Quarantining(_) => QuarantiningStep(hash, s, t, path, io);
    case QuarantineWrite(_) => QuarantineWriteStep(hash, s, t, path, io);
    case QuarantineFailed(_) => QuarantineFailedStep(hash, s, t, path, io);
    case _ =>
  }

  lemma ProcessKeepsInv(hash: Hash, s: State, t: nat, io: Io, verdict: Verdict)
    requires Inv(hash, s) && t < |s.tasks| && s.tasks[t].kind.Process?
    ensures Inv(hash, ProcessNext(hash, s, t, io, verdict))
  {
    hide Inv;
    var path := s.tasks[t].kind.path;
    QuarantineKeepsInv(hash, s, t, path, io);
    hide QuarantineNext;
    match s.tasks[t].phase
    case CheckTrusted => CheckTrustedStep(hash, s, t, io, verdict);
    case StageHash => StageHashStep(hash, s, t, io, verdict);
    case Staging(_) => StagingStep(hash, s, t, io, verdict);
    case Scanning(_) => ScanningStep(hash, s, t, io, verdict);
    case Verifying(_, _) => VerifyingStep(hash, s, t, io, verdict);
    case ReleaseVerify(_) => ReleaseVerifyStep(hash, s, t, path, io);
    case ReleaseAccess(_) => ReleaseAccessStep(hash, s, t, path, io);
    case Releasing(_) => ReleasingStep(hash, s, t, path, io);
    case _ =>
  }

  lemma InstallKeepsInv(hash: Hash, s: State, t: nat, io: Io, verdict: Verdict)
    requires Inv(hash, s) && t < |s.tasks| && s.tasks[t].kind.Install?
    ensures Inv(hash, InstallNext(hash, s, t, io, verdict))
  {
    hide Inv;
    QuarantineKeepsInv(hash, s, t, s.tasks[t].kind.path, io);
    hide QuarantineNext;
    match s.tasks[t].phase
    case InstallCopy => InstallCopyStep(hash, s, t, io, verdict);
    case InstallHash => InstallHashStep(hash, s, t, io, verdict);
    case InstallScan(_) => InstallScanStep(hash, s, t, io, verdict);
    case InstallVerify(_, _) => InstallVerifyStep(hash, s, t, io, verdict);
    case InstallAccess(_) => InstallAccessStep(hash, s, t, s.tasks[t].kind.path, io);
    case InstallRehash(_) => InstallRehashStep(hash, s, t, s.tasks[t].kind.path, io);
    case Installing(_) => InstallingStep(hash, s, t, s.tasks[t].kind.path, io);
    case InstallCheck(_) => InstallCheckStep(hash, s, t, s.tasks[t].kind.path, io);
    case _ =>
  }

  lemma RestoreKeepsInv(hash: Hash, s: State, t: nat, io: Io)
    requires Inv(hash, s) && t < |s.tasks| && s.tasks[t].kind.Restore?
    ensures Inv(hash, RestoreNext(hash, s, t, io))
  {
    hide Inv;
    match s.tasks[t].phase
    case RestoreRead => RestoreReadStep(hash, s, t, io);
    case RestoreHash(_) => RestoreHashStep(hash, s, t, io);
    case RestoreAccess(_) => RestoreAccessStep(hash, s, t, io);
    case Restoring(_, _) => RestoringStep(hash, s, t, io);
    case RestoreWrite(_) => RestoreWriteStep(hash, s, t, io);
    case _ =>
  }

  lemma OutsideKeeps(hash: Hash, s: State, disk: Disk)
    requires Inv(hash, s) && Enabled(s, Outside(disk))
    ensures Inv(hash, Next(hash, s, Outside(disk)))
  {
    var r := Next(hash, s, Outside(disk));
    assert PrivateSame(s, r);
    OutsideTasks(hash, s, r);
    OutsideFiles(hash, s, r);
    MovingRest(hash, s, r);
    hide TasksOk, FilesOk, PlacementsOk, ConsumersOk, ProcessingOk, TrustOk, ManifestsOk;
  }

  /** Between `s` and `r` only files outside the guard's directories changed, partial copies only when `r` is tampered. */
  ghost predicate PrivateSame(s: State, r: State) {
    && r == s.(disk := r.disk, tampered := r.tampered) && (s.tampered ==> r.tampered)
    && (forall p: Path :: p.Private() ==> SameAt(s, r, p))
    && (!r.tampered ==> forall p: Path :: p.Partial? ==> SameAt(s, r, p))
  }

  lemma OutsideTasks(hash: Hash, s: State, r: State)
    requires TasksOk(hash, s) && PrivateSame(s, r)
    ensures TasksOk(hash, r)
  {
    hide TaskOk;
    forall k | 0 <= k < |s.tasks|
      ensures TaskOk(hash, r, k)
    {
      assert Undisturbed(s, r, k);
      OthersKeep(hash, s, r, k);
    }
  }

  lemma OutsideFiles(hash: Hash, s: State, r: State)
    requires FilesOk(s) && PlacementsOk(s) && ConsumersOk(s) && PrivateSame(s, r)
    ensures FilesOk(r) && PlacementsOk(r) && ConsumersOk(r)
  {
    forall id: nat
      ensures FilesOf(r, id)
    {
      assert FilesOf(s, id) && SameAt(s, r, Held(id)) && SameAt(s, r, Kept(id)) && SameAt(s, r, Staged(id));
    }
    forall id | id in r.consumer
      ensures Kept(id) !in r.disk
    {
      assert SameAt(s, r, Kept(id));
    }
    hide FilesOf, PrivateSame;
    forall q | q in r.placed
      ensures PlacementOk(r, q)
    {
      assert PlacementOk(s, q);
    }
  }

  // ---------- New tasks ----------

  function WithTask(s: State, kind: Kind, phase: Phase, processing: map<Path, nat>): State {
    s.(tasks := s.tasks + [Task(kind, phase)], processing := processing)
  }

  lemma NewTasks(hash: Hash, s: State, kind: Kind, phase: Phase, processing: map<Path, nat>)
    requires TasksOk(hash, s) && TaskOk(hash, WithTask(s, kind, phase, processing), |s.tasks|)
    requires |s.tasks| !in s.scans
    ensures TasksOk(hash, WithTask(s, kind, phase, processing))
  {
    hide TaskOk;
    var r := WithTask(s, kind, phase, processing);
    forall k | 0 <= k < |s.tasks|
      ensures TaskOk(hash, r, k)
    {
      assert Undisturbed(s, r, k);
      OthersKeep(hash, s, r, k);
    }
  }

  lemma NewFiles(hash: Hash, s: State, kind: Kind, phase: Phase, processing: map<Path, nat>)
    requires FilesOk(s) && PlacementsOk(s) && ConsumersOk(s)
    ensures var r := WithTask(s, kind, phase, processing);
      FilesOk(r) && PlacementsOk(r) && ConsumersOk(r)
  {
    var r := WithTask(s, kind, phase, processing);
    forall id: nat
      ensures FilesOf(r, id)
    {
      assert FilesOf(s, id);
    }
    hide FilesOf;
    forall q | q in r.placed
      ensures PlacementOk(r, q)
    {
      assert PlacementOk(s, q);
    }
  }

  lemma NewRest(hash: Hash, s: State, kind: Kind, phase: Phase, processing: map<Path, nat>)
    requires TrustOk(hash, s) && ManifestsOk(hash, s)
    ensures var r := WithTask(s, kind, phase, processing);
      TrustOk(hash, r) && ManifestsOk(hash, r)
  {
    var r := WithTask(s, kind, phase, processing);
    forall p | p in r.trusted
      ensures Vouched(hash, r, p, r.trusted[p])
    {
      var k :| k in s.scans && Owner(s, k, p) && WasSafe(hash, s, k, s.trusted[p]);
      assert Owner(r, k, p) && WasSafe(hash, r, k, r.trusted[p]);
    }
    forall k | k in r.manifests && r.manifests[k].state.QuarantinedState?
      ensures Restorable(hash, r, k, r.manifests[k])
    {
      assert Restorable(hash, s, k, s.manifests[k]);
    }
  }

  lemma NewProcessing(s: State, kind: Kind, phase: Phase, processing: map<Path, nat>)
    requires ProcessingOk(s) && !phase.Ended?
    requires if kind.Process? then kind.path !in s.processing && processing == s.processing[kind.path := |s.tasks|]
             else processing == s.processing
    ensures ProcessingOk(WithTask(s, kind, phase, processing))
  {
    var r := WithTask(s, kind, phase, processing);
    assert forall k: nat, p :: LiveAt(r, k, p) <==> LiveAt(s, k, p) || (k == |s.tasks| && kind == Process(p));
    hide LiveAt;
  }

  lemma NewKeeps(hash: Hash, s: State, kind: Kind, phase: Phase, processing: map<Path, nat>)
    requires !kind.Restore? ==> kind.path.Game?
    requires phase == match kind case Process(_) => CheckTrusted case Restore(_) => RestoreRead case Install(_, _) => InstallCopy
    requires if kind.Process? then kind.path !in s.processing && processing == s.processing[kind.path := |s.tasks|]
             else processing == s.processing
    requires Inv(hash, s)
    ensures Inv(hash, WithTask(s, kind, phase, processing))
  {
    hide TasksOk, PlacementsOk, ConsumersOk, ProcessingOk, TrustOk, ManifestsOk;
    assert FilesOf(s, |s.tasks|);
    hide FilesOk;
    NewFiles(hash, s, kind, phase, processing);
    NewRest(hash, s, kind, phase, processing);
    NewProcessing(s, kind, phase, processing);
    NewTasks(hash, s, kind, phase, processing);
  }

  lemma StepKeeps(hash: Hash, s: State, e: Event)
    requires Inv(hash, s) && Enabled(s, e)
    ensures Inv(hash, Next(hash, s, e))
  {
    hide Inv, ProcessNext, RestoreNext, InstallNext, SameIdentity;
    match e
    case Outside(disk) => OutsideKeeps(hash, s, disk);
    case FileEvent(path) =>
      if path !in s.processing {
        NewKeeps(hash, s, Process(path), CheckTrusted, s.processing[path := |s.tasks|]);
      }
    case RestoreRequest(id) => NewKeeps(hash, s, Restore(id), RestoreRead, s.processing);
    case InstallRequest(source, path) => NewKeeps(hash, s, Install(source, path), InstallCopy, s.processing);
    case IsTrusted(path, _) => Distrusting(hash, s, path);
    case Step(t, io, verdict) =>
      if s.tasks[t].kind.Process? {
        ProcessKeepsInv(hash, s, t, io, verdict);
      } else if s.tasks[t].kind.Restore? {
        RestoreKeepsInv(hash, s, t, io);
      } else {
        InstallKeepsInv(hash, s, t, io, verdict);
      }
  }
}
