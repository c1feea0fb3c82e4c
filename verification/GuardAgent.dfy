/**
 * The guard's agent and stores as an object: each method does the one file operation a task awaits, in place, and keeps
 * what the guard promises.
 */
module GuardAgent {
  import opened Prelude
  import opened GuardProtocol
  import opened GuardSafety
  import opened GuardEffects
  import opened GuardConservation
  import opened GuardRestores

  /** The operation of `quarantine` that writes the final manifest. */
  lemma ConcludingIs(hash: Hash, s: State, t: nat, source: Path, path: Path, io: Io)
    requires t < |s.tasks| && s.tasks[t].phase.QuarantineWrite?
    ensures QuarantineNext(hash, s, t, source, path, io) ==
      var before := s.tasks[t].phase.before;
      if !io.Fine? then At(s, t, QuarantineFailed(before))
      else Distrusted(WriteManifest(End(s, t, Quarantined), t, Manifest(QuarantinedState, path, before), io), t, path)
  {
    hide At, End, WriteManifest, Distrusted;
  }

  /** The operation of `quarantine` that moves the file. */
  lemma KeepingIs(hash: Hash, s: State, t: nat, m: Move, source: Path, path: Path, io: Io)
    requires t < |s.tasks| && s.tasks[t].phase == Quarantining(m)
    ensures var (r, next) := Moving(hash, s, t, m, io);
      QuarantineNext(hash, s, t, source, path, io) ==
        At(r, t, if next.at.AtDone? then QuarantineWrite(m.identity)
                 else if next.at.AtFailed? then QuarantineFailed(m.identity) else Quarantining(next))
  {
    hide Moving, At;
  }

  // ---------- What an operation gives its caller ----------

  /**
   * An operation of a move touches no other file; the source goes only when its bytes have arrived, or when it is unlinked
   * after its copy was renamed; the unlink comes only then; and done means the destination was seen as expected.
   */
  predicate Delivers(hash: Hash, before: Disk, m: Move, task: nat, after: Disk, next: Move) {
    && (forall p :: p in before.Keys + after.Keys && p != m.src && p != m.dst && p != m.Temp(task) ==>
          p in before && p in after && after[p] == before[p])
    && (m.src in before && m.src !in after ==> m.at.AtUnlink? || (m.dst in after && after[m.dst] == before[m.src]))
    && (m.src in after ==> m.src in before && after[m.src] == before[m.src])
    && (next.at.AtUnlink? && !m.at.AtUnlink? ==>
          m.Temp(task) in before && m.dst in after && after[m.dst] == before[m.Temp(task)])
    && (next.at.AtDone? && !m.at.AtDone? ==> m.dst in after && IdentityOf(hash, after[m.dst]) == m.identity)
  }

  lemma MoveDelivers(hash: Hash, disk: Disk, m: Move, task: nat, io: Io)
    ensures m.src != m.dst && !m.src.Partial? && !m.dst.Partial? ==>
      Delivers(hash, disk, m, task, MoveNext(hash, disk, m, task, io).0, MoveNext(hash, disk, m, task, io).1)
  {
    if m.src != m.dst && !m.src.Partial? && !m.dst.Partial? {
      MoveEffect(hash, disk, m, task, io);
    }
  }

  // ---------- What a task is doing ----------

  /** In front of a release: the file is being held and scanned. */
  predicate Holding(phase: Phase) {
    phase.CheckTrusted? || phase.StageHash? || phase.Staging? || phase.Scanning? || phase.Verifying?
  }

  /** In front of putting a staged file into place. */
  predicate Preparing(phase: Phase) {
    phase.InstallCopy? || phase.InstallHash? || phase.InstallScan? || phase.InstallVerify?
  }

  predicate PuttingBack(phase: Phase) {
    phase.ReleaseVerify? || phase.ReleaseAccess? || phase.Releasing?
  }

  predicate Placing(phase: Phase) {
    phase.InstallAccess? || phase.InstallRehash? || phase.Installing? || phase.InstallCheck?
  }

  predicate Keeping(phase: Phase) {
    || phase.QuarantineHash? || phase.QuarantinePending? || phase.Quarantining? || phase.QuarantineWrite?
    || phase.QuarantineFailed? || phase.Ended?
  }

  lemma ReleaseIsStep(hash: Hash, s: State, t: nat, io: Io, verdict: Verdict)
    requires t < |s.tasks| && s.tasks[t].kind.Process? && !Holding(s.tasks[t].phase)
    ensures Next(hash, s, Step(t, io, verdict)) == ReleaseNext(hash, s, t, s.tasks[t].kind.path, io)
  {
    hide ReleaseNext;
  }

  lemma PlaceIsStep(hash: Hash, s: State, t: nat, io: Io, verdict: Verdict)
    requires t < |s.tasks| && s.tasks[t].kind.Install? && !Preparing(s.tasks[t].phase)
    ensures Next(hash, s, Step(t, io, verdict)) == PlaceNext(hash, s, t, s.tasks[t].kind.path, io)
  {
    hide PlaceNext;
  }

  lemma KeepingIsStep(hash: Hash, s: State, t: nat, io: Io, verdict: Verdict)
    requires t < |s.tasks| && !s.tasks[t].kind.Restore? && Keeping(s.tasks[t].phase)
    ensures Next(hash, s, Step(t, io, verdict)) == QuarantineNext(hash, s, t, SourceOf(s, t), s.tasks[t].kind.path, io)
  {
    hide QuarantineNext;
  }

  /** A task that is neither holding, releasing, preparing nor installing is on its way into quarantine, or over. */
  lemma ElseKeeping(hash: Hash, s: State, t: nat)
    requires Inv(hash, s) && t < |s.tasks|
    ensures s.tasks[t].kind.Process? ==> Holding(s.tasks[t].phase) || PuttingBack(s.tasks[t].phase) || Keeping(s.tasks[t].phase)
    ensures s.tasks[t].kind.Install? ==> Preparing(s.tasks[t].phase) || Placing(s.tasks[t].phase) || Keeping(s.tasks[t].phase)
    ensures !s.tasks[t].kind.Restore? && Keeping(s.tasks[t].phase) ==>
      CurrentMove(s.tasks[t].phase).None? || s.tasks[t].phase.Quarantining?
  {
    hide Inv, InvBut, FilesOf, MoveOk, WasScanned;
    Facts(hash, s, t);
  }

  /** What a step of a process or install task puts into the game tree, a scan of the task's own file called safe. */
  ghost predicate PlacesOnlySafe(s: State, t: nat, r: State) {
    forall q :: q in r.placed && q !in s.placed ==>
      q.task == t && q.id == t && Owner(r, t, q.path) && t in r.scans && r.scans[t].verdict.Safe?
        && (!r.tampered ==> q.bytes == r.scans[t].bytes)
  }

  lemma OwnStepPlacesSafe(hash: Hash, s: State, t: nat, io: Io, verdict: Verdict)
    requires Inv(hash, s) && t < |s.tasks| && !s.tasks[t].kind.Restore?
    ensures PlacesOnlySafe(s, t, Next(hash, s, Step(t, io, verdict)))
  {
    hide Inv, Next, Touched, Careful, KeepsBytes;
    StepPromises(hash, s, t, io, verdict);
    WhatAStepTouches(hash, s, t, io, verdict);
  }

  /** A restore puts its payload into the game tree, and only while it is still to be had. */
  ghost predicate PlacesOnlyPayload(s: State, id: nat, r: State) {
    && (forall q :: q in r.placed && q !in s.placed ==> q.id == id && Owner(r, id, q.path))
    && (!StillPlaceable(s, id) ==> r.placed == s.placed)
  }

  lemma RestorePlacesPayload(hash: Hash, s: State, t: nat, io: Io, verdict: Verdict)
    requires Inv(hash, s) && t < |s.tasks| && s.tasks[t].kind.Restore?
    ensures PlacesOnlyPayload(s, s.tasks[t].kind.payload, Next(hash, s, Step(t, io, verdict)))
  {
    hide Inv, Next, Touched, Careful, KeepsBytes, StillPlaceable;
    StepPromises(hash, s, t, io, verdict);
    WhatAStepTouches(hash, s, t, io, verdict);
    if !StillPlaceable(s, s.tasks[t].kind.payload) {
      UnplaceableStep(hash, s, t, s.tasks[t].kind.payload, io, verdict);
    }
  }

  lemma KeepingPromises(hash: Hash, s: State, t: nat, io: Io)
    requires Inv(hash, s) && t < |s.tasks| && !s.tasks[t].kind.Restore? && Keeping(s.tasks[t].phase)
    ensures var r := QuarantineNext(hash, s, t, SourceOf(s, t), s.tasks[t].kind.path, io);
      && Promises(hash, s, t, io, r) && r.placed == s.placed
      && forall b: Bytes :: InOwnFiles(s, t, b) ==> InOwnFiles(r, t, b)
  {
    hide Inv, Promises, InOwnFiles, Next, QuarantineNext;
    KeepingIsStep(hash, s, t, io, Safe);
    ElseKeeping(hash, s, t);
    StepPromises(hash, s, t, io, Safe);
    KeepingPlacesNothing(hash, s, t, io);
    forall b: Bytes | InOwnFiles(s, t, b)
      ensures InOwnFiles(Next(hash, s, Step(t, io, Safe)), t, b)
    {
      QuarantineLosesNothing(hash, s, t, io, Safe, b);
    }
  }

  lemma KeepingPlacesNothing(hash: Hash, s: State, t: nat, io: Io)
    requires Inv(hash, s) && t < |s.tasks| && !s.tasks[t].kind.Restore? && Keeping(s.tasks[t].phase)
    ensures Next(hash, s, Step(t, io, Safe)).placed == s.placed
  {
    hide Inv, Next, Moving;
    ElseKeeping(hash, s, t);
    WhatAStepTouches(hash, s, t, io, Safe);
    if s.tasks[t].phase.Quarantining? {
      IntoQuarantine(hash, s, t, s.tasks[t].phase.m);
      MovingIs(hash, s, t, s.tasks[t].phase.m, io);
    }
  }

  lemma EventKeepsInv(hash: Hash, s: State, e: Event)
    requires Inv(hash, s) && Enabled(s, e)
    ensures Inv(hash, Next(hash, s, e))
    ensures forall p :: p in Next(hash, s, e).trusted && e.IsTrusted? ==> Vouched(hash, s, p, Next(hash, s, e).trusted[p])
  {
    StepKeeps(hash, s, e);
    hide TasksOk, FilesOk, PlacementsOk, ConsumersOk, ProcessingOk, ManifestsOk, Vouched, ProcessNext, RestoreNext, InstallNext;
    hide SameIdentity;
  }

  class Agent {
    const hash: Hash
    const shouldProtectPath: Path -> bool
    var disk: Disk
    var manifests: map<nat, Manifest>
    var trusted: map<Path, Identity>
    var processing: map<Path, nat>
    var tasks: seq<Task>
    ghost var scans: map<nat, Scan>
    ghost var placed: seq<Placement>
    ghost var consumer: map<nat, nat>
    ghost var confirmed: map<nat, Sighting>
    ghost var tampered: bool

    ghost function View(): State
      reads this
    {
      State(disk, manifests, trusted, processing, tasks, scans, placed, consumer, confirmed, tampered)
    }

    constructor (hash: Hash, shouldProtectPath: Path -> bool)
      ensures View() == INITIAL && Inv(hash, View())
      ensures this.hash == hash && this.shouldProtectPath == shouldProtectPath
    {
      InitialHolds(hash);
      this.hash, this.shouldProtectPath := hash, shouldProtectPath;
      disk, manifests, trusted, processing, tasks := map[], map[], map[], map[], [];
      scans, placed, consumer, confirmed, tampered := map[], [], map[], map[], false;
    }

    /** `processPath`: a path out of scope is ignored, and one that is being processed is not processed twice. */
    method ProcessPath(path: Path)
      requires Inv(hash, View()) && path.Game?
      modifies this
      ensures View() == if shouldProtectPath(path) then Next(hash, old(View()), FileEvent(path)) else old(View())
      ensures Inv(hash, View())
    {
      hide Inv;
      EventKeepsInv(hash, View(), FileEvent(path));
      if !shouldProtectPath(path) {
        return;
      }
      if path in processing {
        return;
      }
      processing := processing[path := |tasks|];
      tasks := tasks + [Task(Process(path), CheckTrusted)];
    }

    /** True for a file with the identity that a scan of a file of this path called safe; another is forgotten. */
    method IsTrustedPath(path: Path, io: Io) returns (answer: bool)
      requires Inv(hash, View()) && path.Game?
      modifies this
      ensures View() == Next(hash, old(View()), IsTrusted(path, io)) && Inv(hash, View())
      ensures answer == (path in old(trusted) && SameIdentity(hash, Read(old(disk), path, io), old(trusted)[path]))
      ensures answer ==> path in disk && Vouched(hash, old(View()), path, IdentityOf(hash, disk[path]))
    {
      hide Inv, Vouched;
      EventKeepsInv(hash, View(), IsTrusted(path, io));
      if path !in trusted {
        return false;
      }
      if path in disk && !io.Fine? {
        return false;
      }
      var current := Read(disk, path, io);
      if SameIdentity(hash, current, trusted[path]) {
        return true;
      }
      trusted := trusted - {path};
      return false;
    }

    method GoTo(t: nat, phase: Phase)
      requires t < |tasks|
      modifies this`tasks
      ensures View() == At(old(View()), t, phase)
    {
      tasks := tasks[t := Task(tasks[t].kind, phase)];
    }

    method Finish(t: nat, ending: Ending)
      requires t < |tasks|
      modifies this`tasks, this`processing
      ensures View() == End(old(View()), t, ending)
    {
      if tasks[t].kind.Process? {
        processing := processing - {tasks[t].kind.path};
      }
      tasks := tasks[t := Task(tasks[t].kind, Ended(ending))];
    }

    /** What the agent remembers about a released path. */
    method Trust(path: Path, identity: Identity)
      modifies this`trusted
      ensures View() == Trusted(old(View()), path, identity)
    {
      trusted := trusted[path := identity];
    }

    method Distrust(t: nat, path: Path)
      requires t < |tasks|
      modifies this`trusted
      ensures View() == Distrusted(old(View()), t, path)
    {
      if tasks[t].kind.Process? {
        trusted := trusted - {path};
      }
    }

    ghost method RecordScan(t: nat, file: Path, verdict: Verdict)
      modifies this`scans
      ensures View() == Scanned(old(View()), t, file, verdict)
    {
      if file in disk {
        scans := scans[t := Scan(disk[file], verdict)];
      }
    }

    /** `_writeManifestAtomic`, past its check for an existing file. */
    method WriteManifestAtomic(id: nat, m: Manifest, io: Io)
      modifies this`manifests
      ensures View() == WriteManifest(old(View()), id, m, io)
    {
      if io.Fine? {
        manifests := manifests[id := m];
      }
    }

    /** The next operation of `movePreservingIdentity`, on the disk. */
    method MoveFile(t: nat, m: Move, io: Io) returns (next: Move)
      modifies this`disk
      ensures (disk, next) == MoveNext(hash, old(disk), m, t, io)
      ensures m.src != m.dst && !m.src.Partial? && !m.dst.Partial? ==> Delivers(hash, old(disk), m, t, disk, next)
    {
      hide SameIdentity, Delivers;
      ghost var was := disk;
      MoveDelivers(hash, was, m, t, io);
      var temp := m.Temp(t);
      next := m;
      match m.at {
        case AtStart =>
          var before := Read(disk, m.src, io);
          next := m.(at := if SameIdentity(hash, before, m.identity) then AtRename else AtFailed(m.src !in disk));
        case AtRename =>
          if m.src !in disk {
            next := m.(at := AtFailed(true));
          } else if io.Fine? {
            disk := Renamed(disk, m.src, m.dst);
            next := m.(at := AtCheck);
          } else {
            next := m.(at := if io.CrossDevice? then AtCopy else AtFailed(false));
          }
        case AtCopy =>
          if m.src !in disk || temp in disk {
            next := m.(at := AtCleanup(m.src !in disk));
          } else if io.Fine? {
            disk := disk[temp := disk[m.src]];
            next := m.(at := AtHashCopy);
          } else {
            if io.Fault? && io.left.Some? {
              disk := disk[temp := io.left.value];
            }
            next := m.(at := AtCleanup(false));
          }
        case AtHashCopy =>
          var copied := Read(disk, temp, io);
          next := m.(at := if SameIdentity(hash, copied, m.identity) then AtRenameCopy else AtCleanup(temp !in disk));
        case AtRenameCopy =>
          if temp in disk && io.Fine? {
            disk := Renamed(disk, temp, m.dst);
            next := m.(at := AtUnlink);
          } else {
            next := m.(at := AtCleanup(temp !in disk));
          }
        case AtUnlink =>
          if m.src in disk && io.Fine? {
            disk := disk - {m.src};
            next := m.(at := AtCheck);
          } else {
            next := m.(at := AtCleanup(m.src !in disk));
          }
        case AtCleanup(missing) =>
          if io.Fine? {
            disk := disk - {temp};
          }
          next := m.(at := AtFailed(missing));
        case AtCheck =>
          var after := Read(disk, m.dst, io);
          next := m.(at := if SameIdentity(hash, after, m.identity) then AtDone else AtFailed(m.dst !in disk));
        case _ =>
      }
    }

    /** The same, with its history. */
    method MoveOnce(t: nat, m: Move, io: Io) returns (next: Move)
      requires t < |tasks|
      modifies this`disk, this`placed, this`consumer, this`confirmed
      ensures (View(), next) == Moving(hash, old(View()), t, m, io)
    {
      hide MoveNext, Places;
      ghost var put, was := Places(disk, m, t, io), disk;
      next := MoveFile(t, m, io);
      if put.Some? && m.dst.Game? {
        placed := placed + [Placement(t, Payload(View(), t), m.dst, put.value)];
      }
      if next.at.AtCheck? && tasks[t].kind.Restore? {
        consumer := consumer[tasks[t].kind.payload := t];
      }
      confirmed := if m.at.AtCheck? && next.at.AtDone? && m.dst in was then confirmed[t := Sighting(m.dst, was[m.dst])]
        else confirmed;
    }

    /** The next operation of `_processPathOnce`; `verdict` is what the scanner says when it is asked. */
    method ProcessOnce(t: nat, io: Io, verdict: Verdict)
      requires Inv(hash, View()) && t < |tasks| && tasks[t].kind.Process?
      modifies this
      ensures View() == ProcessNext(hash, old(View()), t, io, verdict)
      ensures Promises(hash, old(View()), t, io, View()) && PlacesOnlySafe(old(View()), t, View())
    {
      hide Moving, At, End, Read, GuardProtocol.Scanned, IdentityOf, SameIdentity, ReleaseNext, DecideContainment;
      hide Inv, Promises, PlacesOnlySafe;
      StepPromises(hash, View(), t, io, verdict);
      OwnStepPlacesSafe(hash, View(), t, io, verdict);
      var path := tasks[t].kind.path;
      var phase := tasks[t].phase;
      if phase.CheckTrusted? {
        CheckTrustedOnce(t, path, io, verdict);
      } else if phase.StageHash? {
        var identity := Read(disk, path, io);
        if identity.None? {
          Finish(t, if path !in disk then Disappeared else NotHeld);
        } else {
          GoTo(t, Staging(StartMove(path, Held(t), IdentityOf(hash, identity.value))));
        }
      } else if phase.Staging? {
        var m := phase.m;
        var next := MoveOnce(t, m, io);
        if next.at.AtDone? {
          GoTo(t, Scanning(next.identity));
        } else if next.at.AtFailed? {
          Finish(t, if next.at.missing then Disappeared else NotHeld);
        } else {
          GoTo(t, Staging(next));
        }
      } else if phase.Scanning? {
        var identity := phase.identity;
        RecordScan(t, Held(t), verdict);
        GoTo(t, Verifying(identity, verdict));
      } else if phase.Verifying? {
        var identity, said := phase.identity, phase.verdict;
        var held := Read(disk, Held(t), io);
        if SameIdentity(hash, held, identity) && DecideContainment(said).Release? {
          GoTo(t, ReleaseVerify(identity));
        } else {
          GoTo(t, QuarantineHash);
        }
      } else {
        ReleaseOnce(t, path, io);
      }
    }

    /** The next operation of `PendingHoldStore.release`. */
    method ReleaseOnce(t: nat, path: Path, io: Io)
      requires Inv(hash, View()) && t < |tasks| && tasks[t].kind == Process(path) && !Holding(tasks[t].phase)
      modifies this
      ensures View() == ReleaseNext(hash, old(View()), t, path, io)
      ensures Promises(hash, old(View()), t, io, View()) && PlacesOnlySafe(old(View()), t, View())
    {
      hide Moving, At, End, Read, GuardProtocol.Trusted, SameIdentity, QuarantineNext, Absent, Inv, Promises, PlacesOnlySafe;
      StepPromises(hash, View(), t, io, Safe);
      OwnStepPlacesSafe(hash, View(), t, io, Safe);
      ReleaseIsStep(hash, View(), t, io, Safe);
      ElseKeeping(hash, View(), t);
      var phase := tasks[t].phase;
      if phase.ReleaseVerify? {
        var identity := phase.identity;
        var current := Read(disk, Held(t), io);
        GoTo(t, if SameIdentity(hash, current, identity) then ReleaseAccess(identity) else QuarantineHash);
      } else if phase.ReleaseAccess? {
        var identity := phase.identity;
        GoTo(t, if Absent(disk, path, io) then Releasing(StartMove(Held(t), path, identity)) else QuarantineHash);
      } else if phase.Releasing? {
        PutBackOnce(t, phase.m, path, io);
      } else {
        QuarantineOnce(t, Held(t), path, io);
      }
    }

    /** The next operation of `QuarantineStore.quarantine`. */
    method QuarantineOnce(t: nat, source: Path, path: Path, io: Io)
      requires Inv(hash, View()) && t < |tasks| && !tasks[t].kind.Restore? && Keeping(tasks[t].phase)
      requires source == SourceOf(View(), t) && path == tasks[t].kind.path
      modifies this
      ensures View() == QuarantineNext(hash, old(View()), t, source, path, io)
      ensures Promises(hash, old(View()), t, io, View()) && placed == old(placed)
      ensures forall b: Bytes :: InOwnFiles(old(View()), t, b) ==> InOwnFiles(View(), t, b)
    {
      hide Moving, At, End, Read, WriteManifest, Distrusted, IdentityOf, Inv, Promises, InOwnFiles;
      KeepingPromises(hash, View(), t, io);
      var phase := tasks[t].phase;
      if phase.QuarantineHash? {
        var before := Read(disk, source, io);
        if before.None? {
          Finish(t, LeftBehind);
        } else {
          GoTo(t, QuarantinePending(IdentityOf(hash, before.value)));
        }
      } else if phase.QuarantinePending? {
        var before := phase.before;
        if t in manifests || !io.Fine? {
          Finish(t, LeftBehind);
        } else {
          WriteManifestAtomic(t, Manifest(PendingState, path, before), io);
          GoTo(t, Quarantining(StartMove(source, Kept(t), before)));
        }
      } else if phase.Quarantining? {
        KeepOnce(t, phase.m, source, path, io);
      } else if phase.QuarantineWrite? {
        ConcludeQuarantine(t, source, path, io);
      } else if phase.QuarantineFailed? {
        var before := phase.before;
        WriteManifestAtomic(t, Manifest(FailedState, path, before), io);
        Finish(t, LeftBehind);
      }
    }

    /** The next operation of `QuarantineStore.restore`. */
    method RestoreOnce(t: nat, io: Io)
      requires Inv(hash, View()) && t < |tasks| && tasks[t].kind.Restore?
      modifies this
      ensures View() == RestoreNext(hash, old(View()), t, io)
      ensures Promises(hash, old(View()), t, io, View())
      ensures PlacesOnlyPayload(old(View()), old(tasks[t].kind.payload), View())
    {
      hide Moving, At, End, Read, WriteManifest, SameIdentity, Absent, Inv, Promises, PlacesOnlyPayload;
      StepPromises(hash, View(), t, io, Safe);
      RestorePlacesPayload(hash, View(), t, io, Safe);
      var id := tasks[t].kind.payload;
      var phase := tasks[t].phase;
      if phase.RestoreRead? {
        if id !in manifests || !io.Fine? || !manifests[id].state.QuarantinedState? {
          Finish(t, NotRestored);
        } else {
          GoTo(t, RestoreHash(manifests[id]));
        }
      } else if phase.RestoreHash? {
        var manifest := phase.manifest;
        var current := Read(disk, Kept(id), io);
        if SameIdentity(hash, current, manifest.identity) {
          GoTo(t, RestoreAccess(manifest));
        } else {
          Finish(t, NotRestored);
        }
      } else if phase.RestoreAccess? {
        var manifest := phase.manifest;
        if Absent(disk, manifest.original, io) {
          GoTo(t, Restoring(manifest, StartMove(Kept(id), manifest.original, manifest.identity)));
        } else {
          Finish(t, NotRestored);
        }
      } else if phase.Restoring? {
        var manifest, m := phase.manifest, phase.m;
        var next := MoveOnce(t, m, io);
        if next.at.AtDone? {
          GoTo(t, RestoreWrite(manifest));
        } else if next.at.AtFailed? {
          Finish(t, NotRestored);
        } else {
          GoTo(t, Restoring(manifest, next));
        }
      } else if phase.RestoreWrite? {
        var manifest := phase.manifest;
        if io.Fine? {
          WriteManifestAtomic(id, manifest.(state := RestoredState), io);
          Finish(t, Restored);
        } else {
          Finish(t, NotRestored);
        }
      }
    }

    /** The next operation of `ManagedInstallGuard.install`. */
    method InstallOnce(t: nat, io: Io, verdict: Verdict)
      requires Inv(hash, View()) && t < |tasks| && tasks[t].kind.Install?
      modifies this
      ensures View() == InstallNext(hash, old(View()), t, io, verdict)
      ensures Promises(hash, old(View()), t, io, View()) && PlacesOnlySafe(old(View()), t, View())
    {
      hide Moving, At, End, Read, GuardProtocol.Scanned, IdentityOf, PlaceNext, DecideContainment, Inv, Promises, PlacesOnlySafe;
      StepPromises(hash, View(), t, io, verdict);
      OwnStepPlacesSafe(hash, View(), t, io, verdict);
      var path, stage := tasks[t].kind.path, Staged(t);
      var phase := tasks[t].phase;
      if phase.InstallCopy? {
        CopyToStage(t, io, verdict);
      } else if phase.InstallHash? {
        var before := Read(disk, stage, io);
        if before.None? {
          Finish(t, NotInstalled);
        } else {
          GoTo(t, InstallScan(IdentityOf(hash, before.value)));
        }
      } else if phase.InstallScan? {
        var before := phase.before;
        RecordScan(t, stage, verdict);
        GoTo(t, InstallVerify(before, verdict));
      } else if phase.InstallVerify? {
        VerifyStaged(t, io, verdict);
      } else {
        PlaceOnce(t, path, io);
      }
    }

    /** The part of `install` that puts a file called safe into place. */
    method PlaceOnce(t: nat, path: Path, io: Io)
      requires Inv(hash, View()) && t < |tasks| && tasks[t].kind.Install? && tasks[t].kind.path == path
      requires !Preparing(tasks[t].phase)
      modifies this
      ensures View() == PlaceNext(hash, old(View()), t, path, io)
      ensures Promises(hash, old(View()), t, io, View()) && PlacesOnlySafe(old(View()), t, View())
    {
      hide Moving, At, End, Read, SameIdentity, Absent, QuarantineNext, IdentityOf, DecideContainment, GuardProtocol.Scanned;
      hide Inv, Promises, PlacesOnlySafe;
      StepPromises(hash, View(), t, io, Safe);
      OwnStepPlacesSafe(hash, View(), t, io, Safe);
      PlaceIsStep(hash, View(), t, io, Safe);
      ElseKeeping(hash, View(), t);
      var phase := tasks[t].phase;
      if phase.InstallAccess? || phase.InstallRehash? {
        CheckBeforePlacing(t, path, io);
      } else if phase.Installing? {
        PlacingOnce(t, phase.m, path, io);
      } else if phase.InstallCheck? {
        var after := phase.after;
        var installed := Read(disk, path, io);
        Finish(t, if SameIdentity(hash, installed, after) then Installed else NotInstalled);
      } else {
        QuarantineOnce(t, Staged(t), path, io);
      }
    }

    method PlacingOnce(t: nat, m: Move, path: Path, io: Io)
      requires t < |tasks| && tasks[t].kind.Install? && tasks[t].phase == Installing(m)
      modifies this
      ensures View() == PlaceNext(hash, old(View()), t, path, io)
    {
      hide Moving, At, End, Read, SameIdentity, Absent, QuarantineNext, IdentityOf;
      var next := MoveOnce(t, m, io);
      if next.at.AtDone? {
        GoTo(t, InstallCheck(next.identity));
      } else if next.at.AtFailed? {
        Finish(t, NotInstalled);
      } else {
        GoTo(t, Installing(next));
      }
    }

    /** The file that was scanned must be the one that is staged. */
    method VerifyStaged(t: nat, io: Io, verdict: Verdict)
      requires t < |tasks| && tasks[t].kind.Install? && tasks[t].phase.InstallVerify?
      modifies this
      ensures View() == InstallNext(hash, old(View()), t, io, verdict)
    {
      hide At, End, Read, IdentityOf, PlaceNext, DecideContainment;
      var after := Read(disk, Staged(t), io);
      if after.None? {
        Finish(t, NotInstalled);
        return;
      }
      if IdentityOf(hash, after.value) == tasks[t].phase.before && DecideContainment(tasks[t].phase.verdict).Release? {
        GoTo(t, InstallAccess(tasks[t].phase.before));
      } else {
        GoTo(t, QuarantineHash);
      }
    }

    /** The destination must be free, and the staged file still the one that was scanned. */
    method CheckBeforePlacing(t: nat, path: Path, io: Io)
      requires t < |tasks| && tasks[t].kind.Install? && (tasks[t].phase.InstallAccess? || tasks[t].phase.InstallRehash?)
      modifies this
      ensures View() == PlaceNext(hash, old(View()), t, path, io)
    {
      hide At, End, Read, SameIdentity, Absent, QuarantineNext, IdentityOf;
      var after := tasks[t].phase.after;
      if tasks[t].phase.InstallAccess? {
        if Absent(disk, path, io) {
          GoTo(t, InstallRehash(after));
        } else {
          Finish(t, NotInstalled);
        }
        return;
      }
      if SameIdentity(hash, Read(disk, Staged(t), io), after) {
        GoTo(t, Installing(StartMove(Staged(t), path, after)));
      } else {
        Finish(t, NotInstalled);
      }
    }

    /** The move of a held file back to its path; the agent trusts what it released. */
    method PutBackOnce(t: nat, m: Move, path: Path, io: Io)
      requires t < |tasks| && tasks[t].kind.Process? && tasks[t].phase == Releasing(m)
      modifies this
      ensures View() == ReleaseNext(hash, old(View()), t, path, io)
    {
      hide Moving, At, End, Trusted, SameIdentity, QuarantineNext, Absent;
      var next := MoveOnce(t, m, io);
      if next.at.AtDone? {
        Trust(path, next.identity);
        Finish(t, Released);
      } else {
        GoTo(t, if next.at.AtFailed? then QuarantineHash else Releasing(next));
      }
    }

    /** A file that the agent itself released is not scanned again while it is the same. */
    method CheckTrustedOnce(t: nat, path: Path, io: Io, verdict: Verdict)
      requires t < |tasks| && tasks[t].kind == Process(path) && tasks[t].phase.CheckTrusted?
      modifies this
      ensures View() == ProcessNext(hash, old(View()), t, io, verdict)
    {
      hide At, End, Read, SameIdentity, ReleaseNext;
      if path !in trusted {
        GoTo(t, StageHash);
      } else if path in disk && !io.Fine? {
        Finish(t, Threw);
      } else if SameIdentity(hash, Read(disk, path, io), trusted[path]) {
        Finish(t, TrustedHit);
      } else {
        trusted := trusted - {path};
        GoTo(t, StageHash);
      }
    }

    method CopyToStage(t: nat, io: Io, verdict: Verdict)
      requires t < |tasks| && tasks[t].kind.Install? && tasks[t].phase.InstallCopy?
      modifies this
      ensures View() == InstallNext(hash, old(View()), t, io, verdict)
    {
      hide At, End, Read, PlaceNext;
      var source := Read(disk, tasks[t].kind.source, io);
      if source.None? || Staged(t) in disk {
        Finish(t, NotInstalled);
      } else {
        disk := disk[Staged(t) := source.value];
        GoTo(t, InstallHash);
      }
    }

    /** The move into quarantine. */
    method KeepOnce(t: nat, m: Move, source: Path, path: Path, io: Io)
      requires t < |tasks| && tasks[t].phase == Quarantining(m)
      modifies this
      ensures View() == QuarantineNext(hash, old(View()), t, source, path, io)
    {
      hide Moving, At, End, QuarantineNext;
      KeepingIs(hash, View(), t, m, source, path, io);
      var next := MoveOnce(t, m, io);
      GoTo(t, if next.at.AtDone? then QuarantineWrite(m.identity)
              else if next.at.AtFailed? then QuarantineFailed(m.identity) else Quarantining(next));
    }

    /** The final manifest; the agent no longer trusts the path. */
    method ConcludeQuarantine(t: nat, source: Path, path: Path, io: Io)
      requires t < |tasks| && tasks[t].phase.QuarantineWrite?
      modifies this
      ensures View() == QuarantineNext(hash, old(View()), t, source, path, io)
    {
      hide At, End, WriteManifest, Distrusted, QuarantineNext;
      ConcludingIs(hash, View(), t, source, path, io);
      var before := tasks[t].phase.before;
      if !io.Fine? {
        GoTo(t, QuarantineFailed(before));
      } else {
        Finish(t, Quarantined);
        WriteManifestAtomic(t, Manifest(QuarantinedState, path, before), io);
        Distrust(t, path);
      }
    }
  }
}
