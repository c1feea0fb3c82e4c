/**
 * What the guard's operations come to when nothing goes wrong and nothing comes between: a task's own steps hold, release,
 * quarantine, restore or install its file, within one volume or across volumes, and refuse a destination that is taken.
 */
module GuardOutcomes {
  import opened Prelude
  import opened GuardProtocol
  import opened GuardSafety
  import opened GuardEffects
  import opened GuardRestores
  import opened GuardStretches

  // ---------- Processing a file ----------

  lemma ReleasedStep(hash: Hash, s: State, t: nat, path: Path, m: Move)
    requires t < |s.tasks| && s.tasks[t] == Task(Process(path), Releasing(m)) && m.at.AtCheck? && m.dst == path
    requires path in s.disk && IdentityOf(hash, s.disk[path]) == m.identity
    ensures var r := Done(hash, s, t, Fine, Safe);
      r == s.(tasks := s.tasks[t := Task(Process(path), Ended(Released))], processing := s.processing - {path},
              trusted := s.trusted[path := m.identity], confirmed := r.confirmed)
  {
    hide IdentityOf, QuarantineNext;
    var (moved, next) := Moving(hash, s, t, m, Fine);
    assert next == m.(at := AtDone) && moved == s.(confirmed := moved.confirmed);
    hide Moving;
    assert Done(hash, s, t, Fine, Safe) == End(Trusted(moved, path, m.identity), t, Released);
  }

  /** A new file comes to be scanned; its bytes are held. */
  lemma HeldRun(hash: Hash, s: State, path: Path, crossing: bool) returns (run: seq<Event>, r: State)
    requires path.Game? && path in s.disk && path !in s.processing && path !in s.trusted
    requires crossing ==> Partial(Held(|s.tasks|), |s.tasks|) !in s.disk
    ensures Leads(hash, s, [FileEvent(path)] + run, r) && OwnSteps(run, |s.tasks|, crossing)
    ensures r == s.(disk := Renamed(s.disk, path, Held(|s.tasks|)), processing := s.processing[path := |s.tasks|],
      tasks := s.tasks + [Task(Process(path), Scanning(IdentityOf(hash, s.disk[path])))],
      consumer := r.consumer, confirmed := r.confirmed)
  {
    hide Next, Leads, IdentityOf, Renamed;
    var t := |s.tasks|;
    var staged, s1 := StageRun(hash, s, path);
    var m := s1.tasks[t].phase.m;
    var moved, s2 := RenameRun(hash, s1, t, m, crossing);
    Arrives(s.disk, path, Held(t));
    CheckSteps(hash, s2, t, m.(at := AtCheck));
    r := Done(hash, s2, t, Fine, Safe);
    var last := Steps(hash, t, [s2, r]);
    LeadsThen(hash, s1, moved, s2, last, r);
    LeadsThen(hash, s, staged, s1, moved + last, r);
    run := staged[1..] + (moved + last);
    assert [FileEvent(path)] + run == staged + (moved + last);
  }

  /** Held bytes that the scan calls safe are back at their path, which is trusted from now on. */
  lemma ReleasedRun(hash: Hash, s: State, t: nat, path: Path, crossing: bool) returns (run: seq<Event>, r: State)
    requires t < |s.tasks| && s.tasks[t].kind == Process(path) && path.Game? && s.tasks[t].phase.Scanning? && path !in s.disk
    requires Held(t) in s.disk && IdentityOf(hash, s.disk[Held(t)]) == s.tasks[t].phase.identity
    requires crossing ==> Partial(path, t) !in s.disk
    ensures Leads(hash, s, run, r) && OwnSteps(run, t, crossing)
    ensures r == s.(disk := Renamed(s.disk, Held(t), path), processing := s.processing - {path},
      trusted := s.trusted[path := s.tasks[t].phase.identity], scans := s.scans[t := GuardProtocol.Scan(s.disk[Held(t)], Safe)],
      tasks := s.tasks[t := Task(Process(path), Ended(Released))], consumer := r.consumer, confirmed := r.confirmed,
      placed := s.placed + [Placement(t, t, path, s.disk[Held(t)])])
  {
    hide Next, Leads, IdentityOf, Renamed;
    var released, s1 := ReleaseRun(hash, s, t, path, s.tasks[t].phase.identity);
    var m := s1.tasks[t].phase.m;
    var moved, s2 := RenameRun(hash, s1, t, m, crossing);
    Arrives(s.disk, Held(t), path);
    ReleasedStep(hash, s2, t, path, m.(at := AtCheck));
    r := Done(hash, s2, t, Fine, Safe);
    var last := Steps(hash, t, [s2, r]);
    LeadsThen(hash, s1, moved, s2, last, r);
    LeadsThen(hash, s, released, s1, moved + last, r);
    run := released + (moved + last);
  }

  lemma ThereAndBack(disk: Disk, src: Path, dst: Path)
    requires src in disk && dst !in disk && src != dst
    ensures Renamed(Renamed(disk, src, dst), dst, src) == disk
    ensures src !in Renamed(disk, src, dst)
  {
  }

  lemma ThereAndOn(disk: Disk, src: Path, mid: Path, dst: Path)
    requires src in disk && mid !in disk && src != mid && mid != dst
    ensures Renamed(Renamed(disk, src, mid), mid, dst) == Renamed(disk, src, dst)
  {
  }

  lemma OneTask(tasks: seq<Task>, one: Task, two: Task)
    ensures (tasks + [one])[|tasks| := two] == tasks + [two]
  {
  }

  lemma PathIsFreeAgain(processing: map<Path, nat>, path: Path, t: nat)
    requires path !in processing
    ensures processing[path := t] - {path} == processing
  {
  }

  /** A new file that its scan calls safe is where it was, with the bytes it had, and trusted. */
  lemma SafeFileIsReleased(hash: Hash, s: State, path: Path, crossing: bool) returns (run: seq<Event>, r: State)
    requires path.Game? && path in s.disk && path !in s.processing && path !in s.trusted && Held(|s.tasks|) !in s.disk
    requires crossing ==> Partial(Held(|s.tasks|), |s.tasks|) !in s.disk && Partial(path, |s.tasks|) !in s.disk
    ensures Leads(hash, s, [FileEvent(path)] + run, r) && OwnSteps(run, |s.tasks|, crossing)
    ensures var t, b := |s.tasks|, s.disk[path];
      r == s.(tasks := s.tasks + [Task(Process(path), Ended(Released))], trusted := s.trusted[path := IdentityOf(hash, b)],
        scans := s.scans[t := GuardProtocol.Scan(b, Safe)], placed := s.placed + [Placement(t, t, path, b)],
        consumer := r.consumer, confirmed := r.confirmed)
  {
    hide Next, Leads, IdentityOf;
    var t := |s.tasks|;
    var held, s1 := HeldRun(hash, s, path, crossing);
    Arrives(s.disk, path, Held(t));
    ThereAndBack(s.disk, path, Held(t));
    var released: seq<Event>;
    released, r := ReleasedRun(hash, s1, t, path, crossing);
    hide Renamed;
    LeadsThen(hash, s, [FileEvent(path)] + held, s1, released, r);
    run := held + released;
    assert [FileEvent(path)] + run == [FileEvent(path)] + held + released;
    OneTask(s.tasks, s1.tasks[t], r.tasks[t]);
    PathIsFreeAgain(s.processing, path, t);
  }

  /** A new file that its scan calls anything else leaves the game tree for quarantine, with its bytes and its record. */
  lemma UnsafeFileIsQuarantined(hash: Hash, s: State, path: Path, verdict: Verdict, crossing: bool)
    returns (run: seq<Event>, r: State)
    requires path.Game? && path in s.disk && path !in s.processing && path !in s.trusted && !verdict.Safe?
    requires Held(|s.tasks|) !in s.disk && |s.tasks| !in s.manifests
    requires crossing ==> Partial(Held(|s.tasks|), |s.tasks|) !in s.disk && Partial(Kept(|s.tasks|), |s.tasks|) !in s.disk
    ensures Leads(hash, s, [FileEvent(path)] + run, r) && OwnSteps(run, |s.tasks|, crossing)
    ensures var t, b := |s.tasks|, s.disk[path];
      r == s.(disk := Renamed(s.disk, path, Kept(t)), tasks := s.tasks + [Task(Process(path), Ended(Quarantined))],
        manifests := s.manifests[t := Manifest(QuarantinedState, path, IdentityOf(hash, b))],
        scans := s.scans[t := GuardProtocol.Scan(b, verdict)], consumer := r.consumer, confirmed := r.confirmed)
  {
    hide Next, Leads, IdentityOf;
    var t := |s.tasks|;
    var held, s1 := HeldRun(hash, s, path, crossing);
    Arrives(s.disk, path, Held(t));
    ThereAndOn(s.disk, path, Held(t), Kept(t));
    var condemned, s2 := CondemnRun(hash, s1, t, path, verdict);
    var kept: seq<Event>;
    kept, r := QuarantineRun(hash, s2, t, Held(t), crossing);
    hide Renamed;
    LeadsThen(hash, s1, condemned, s2, kept, r);
    LeadsThen(hash, s, [FileEvent(path)] + held, s1, condemned + kept, r);
    run := held + (condemned + kept);
    assert [FileEvent(path)] + run == [FileEvent(path)] + held + (condemned + kept);
    OneTask(s.tasks, s1.tasks[t], r.tasks[t]);
    PathIsFreeAgain(s.processing, path, t);
    assert s.trusted - {path} == s.trusted;
  }

  /** A safe file whose path has been taken meanwhile goes to quarantine, and what stands at the path stays. */
  lemma OccupiedPathIsKept(hash: Hash, s: State, t: nat, path: Path, io: Io, crossing: bool) returns (run: seq<Event>, r: State)
    requires t < |s.tasks| && s.tasks[t].kind == Process(path) && s.tasks[t].phase.ReleaseAccess?
    requires path in s.disk && path.Game? && Held(t) in s.disk && t !in s.manifests
    requires crossing ==> Partial(Kept(t), t) !in s.disk
    ensures Leads(hash, s, [Step(t, io, Safe)] + run, r) && OwnSteps(run, t, crossing)
    ensures path in r.disk && r.disk[path] == s.disk[path]
    ensures r == s.(disk := Renamed(s.disk, Held(t), Kept(t)), tasks := s.tasks[t := Task(Process(path), Ended(Quarantined))],
      manifests := s.manifests[t := Manifest(QuarantinedState, path, IdentityOf(hash, s.disk[Held(t)]))],
      processing := s.processing - {path}, trusted := s.trusted - {path}, consumer := r.consumer, confirmed := r.confirmed)
  {
    hide Leads, IdentityOf, QuarantineNext, At;
    var s1 := At(s, t, QuarantineHash);
    assert Next(hash, s, Step(t, io, Safe)) == s1;
    AtIs(s, t);
    run, r := QuarantineRun(hash, s1, t, Held(t), crossing);
    hide Next;
    LeadsOne(hash, s, Step(t, io, Safe));
    LeadsThen(hash, s, [Step(t, io, Safe)], s1, run, r);
  }

  /** A file with its trusted identity is left alone; with any other identity it loses the trust and is held. */
  lemma TrustIsChecked(hash: Hash, s: State, path: Path)
    requires path.Game? && path in s.disk && path !in s.processing && path in s.trusted
    ensures var t, s1 := |s.tasks|, Next(hash, s, FileEvent(path));
      var r := Done(hash, s1, t, Fine, Safe);
      if IdentityOf(hash, s.disk[path]) == s.trusted[path]
      then r == s.(tasks := s.tasks + [Task(Process(path), Ended(TrustedHit))])
      else r == s.(tasks := s.tasks + [Task(Process(path), StageHash)], trusted := s.trusted - {path},
                   processing := s.processing[path := t])
  {
    hide IdentityOf, ReleaseNext;
    var t, s1 := |s.tasks|, Next(hash, s, FileEvent(path));
    PathIsFreeAgain(s.processing, path, t);
    OneTask(s.tasks, Task(Process(path), CheckTrusted), Task(Process(path), Ended(TrustedHit)));
    OneTask(s.tasks, Task(Process(path), CheckTrusted), Task(Process(path), StageHash));
  }

  // ---------- Restoring a payload ----------

  /** A quarantined payload whose path is free is back there with its bytes, and its record says so. */
  lemma PayloadIsRestored(hash: Hash, s: State, id: nat, crossing: bool) returns (run: seq<Event>, r: State)
    requires id in s.manifests && s.manifests[id].state.QuarantinedState? && s.manifests[id].original.Game?
    requires Kept(id) in s.disk && IdentityOf(hash, s.disk[Kept(id)]) == s.manifests[id].identity
    requires s.manifests[id].original !in s.disk
    requires crossing ==> Partial(s.manifests[id].original, |s.tasks|) !in s.disk
    ensures Leads(hash, s, [RestoreRequest(id)] + run, r) && OwnSteps(run, |s.tasks|, crossing)
    ensures var u, man := |s.tasks|, s.manifests[id];
      r == s.(disk := Renamed(s.disk, Kept(id), man.original), tasks := s.tasks + [Task(Restore(id), Ended(Restored))],
        manifests := s.manifests[id := man.(state := RestoredState)], consumer := r.consumer, confirmed := r.confirmed,
        placed := s.placed + [Placement(u, id, man.original, s.disk[Kept(id)])])
  {
    hide Leads, IdentityOf, At, Renamed;
    var u, man := |s.tasks|, s.manifests[id];
    var s1 := s.(tasks := s.tasks + [Task(Restore(id), RestoreRead)]);
    assert Next(hash, s, RestoreRequest(id)) == s1;
    hide Next;
    var step := Step(u, Fine, Safe);
    var s2 := RestoreReachesRename(hash, s1, u, id, man);
    AtIs(s1, u);
    var m := s2.tasks[u].phase.m;
    var moved, s3 := RenameRun(hash, s2, u, m, crossing);
    var last: seq<Event>;
    Arrives(s.disk, Kept(id), man.original);
    last, r := RestoredRun(hash, s3, u, id, man, m.(at := AtCheck));
    LeadsThen(hash, s2, moved, s3, last, r);
    LeadsThen(hash, s1, [step, step, step, step], s2, moved + last, r);
    run := [step, step, step, step] + (moved + last);
    LeadsOn(hash, s, RestoreRequest(id), s1, run, r);
    OneTask(s.tasks, s1.tasks[u], r.tasks[u]);
  }

  lemma RestoredRun(hash: Hash, s: State, u: nat, id: nat, man: Manifest, m: Move) returns (run: seq<Event>, r: State)
    requires u < |s.tasks| && s.tasks[u] == Task(Restore(id), Restoring(man, m)) && m.at.AtCheck?
    requires m.dst in s.disk && IdentityOf(hash, s.disk[m.dst]) == m.identity
    ensures Leads(hash, s, run, r) && OwnSteps(run, u, false)
    ensures r == s.(tasks := s.tasks[u := Task(Restore(id), Ended(Restored))], confirmed := r.confirmed,
      manifests := s.manifests[id := man.(state := RestoredState)])
  {
    hide Next, Leads, IdentityOf, At;
    CheckSteps(hash, s, u, m);
    var s1 := Done(hash, s, u, Fine, Safe);
    RestoreIsRecorded(hash, s1, u, id, man);
    r := Done(hash, s1, u, Fine, Safe);
    run := Steps(hash, u, [s, s1, r]);
  }

  lemma RestoreIsRecorded(hash: Hash, s: State, u: nat, id: nat, man: Manifest)
    requires u < |s.tasks| && s.tasks[u] == Task(Restore(id), RestoreWrite(man))
    ensures Done(hash, s, u, Fine, Safe) == s.(manifests := s.manifests[id := man.(state := RestoredState)],
      tasks := s.tasks[u := Task(Restore(id), Ended(Restored))])
  {
  }

  /** What makes a restore of `id` impossible. */
  predicate Unrestorable(hash: Hash, s: State, id: nat) {
    || id !in s.manifests || !s.manifests[id].state.QuarantinedState?
    || Kept(id) !in s.disk || IdentityOf(hash, s.disk[Kept(id)]) != s.manifests[id].identity
    || s.manifests[id].original in s.disk
  }

  function Refused(s: State, u: nat, id: nat): State
    requires u < |s.tasks|
  {
    s.(tasks := s.tasks[u := Task(Restore(id), Ended(NotRestored))])
  }

  /** A request for what is not in quarantine, or whose bytes or path are not as they should be, changes nothing. */
  lemma RestoreIsRefused(hash: Hash, s: State, id: nat) returns (run: seq<Event>, r: State)
    requires Unrestorable(hash, s, id)
    ensures Leads(hash, s, [RestoreRequest(id)] + run, r) && OwnSteps(run, |s.tasks|, false)
    ensures r == s.(tasks := s.tasks + [Task(Restore(id), Ended(NotRestored))])
  {
    hide Leads, IdentityOf;
    var s1 := s.(tasks := s.tasks + [Task(Restore(id), RestoreRead)]);
    assert Next(hash, s, RestoreRequest(id)) == s1;
    hide Next;
    r := Refused(s1, |s.tasks|, id);
    run := RefusedFromRead(hash, s1, |s.tasks|, id);
    LeadsOn(hash, s, RestoreRequest(id), s1, run, r);
    OneTask(s.tasks, s1.tasks[|s.tasks|], r.tasks[|s.tasks|]);
  }

  lemma RefusedAll(s: State, u: nat, id: nat, phase: Phase)
    requires u < |s.tasks|
    ensures Refused(At(s, u, phase), u, id) == Refused(s, u, id)
  {
  }

  /** One more step, and the restore is refused. */
  lemma RefusedNow(hash: Hash, s: State, u: nat, id: nat) returns (run: seq<Event>)
    requires u < |s.tasks| && Done(hash, s, u, Fine, Safe) == Refused(s, u, id)
    ensures Leads(hash, s, run, Refused(s, u, id)) && OwnSteps(run, u, false)
  {
    hide Leads, Next, Refused;
    run := Steps(hash, u, [s, Refused(s, u, id)]);
  }

  /** One more step, and the restore is refused from there. */
  lemma RefusedLater(hash: Hash, s: State, u: nat, id: nat, phase: Phase, rest: seq<Event>) returns (run: seq<Event>)
    requires u < |s.tasks| && Done(hash, s, u, Fine, Safe) == At(s, u, phase)
    requires Leads(hash, At(s, u, phase), rest, Refused(At(s, u, phase), u, id)) && OwnSteps(rest, u, false)
    ensures Leads(hash, s, run, Refused(s, u, id)) && OwnSteps(run, u, false)
  {
    RefusedAll(s, u, id, phase);
    TaskSteps(s, u);
    hide Leads, Next, Refused, At, Enabled;
    LeadsOn(hash, s, Step(u, Fine, Safe), At(s, u, phase), rest, Refused(s, u, id));
    run := [Step(u, Fine, Safe)] + rest;
  }

  lemma RefusedFromRead(hash: Hash, s: State, u: nat, id: nat) returns (run: seq<Event>)
    requires u < |s.tasks| && s.tasks[u] == Task(Restore(id), RestoreRead) && Unrestorable(hash, s, id)
    ensures Leads(hash, s, run, Refused(s, u, id)) && OwnSteps(run, u, false)
  {
    hide Leads, IdentityOf, Next, At;
    RefusingSteps(hash, s, u, id);
    if id !in s.manifests || !s.manifests[id].state.QuarantinedState? {
      run := RefusedNow(hash, s, u, id);
    } else {
      var man := s.manifests[id];
      ReadHashAccess(hash, s, u, id, man);
      var rest := RefusedFromHash(hash, At(s, u, RestoreHash(man)), u, id, man);
      run := RefusedLater(hash, s, u, id, RestoreHash(man), rest);
    }
  }

  lemma RefusedFromHash(hash: Hash, s: State, u: nat, id: nat, man: Manifest) returns (run: seq<Event>)
    requires u < |s.tasks| && s.tasks[u] == Task(Restore(id), RestoreHash(man))
    requires Kept(id) !in s.disk || IdentityOf(hash, s.disk[Kept(id)]) != man.identity || man.original in s.disk
    ensures Leads(hash, s, run, Refused(s, u, id)) && OwnSteps(run, u, false)
  {
    hide Leads, IdentityOf, Next, At;
    RefusingSteps(hash, s, u, id);
    if Kept(id) !in s.disk || IdentityOf(hash, s.disk[Kept(id)]) != man.identity {
      run := RefusedNow(hash, s, u, id);
    } else {
      ReadHashAccess(hash, s, u, id, man);
      var s1 := At(s, u, RestoreAccess(man));
      RefusingSteps(hash, s1, u, id);
      var rest := RefusedNow(hash, s1, u, id);
      run := RefusedLater(hash, s, u, id, RestoreAccess(man), rest);
    }
  }

  lemma RefusingSteps(hash: Hash, s: State, u: nat, id: nat)
    requires u < |s.tasks| && s.tasks[u].kind == Restore(id)
    ensures
      || (s.tasks[u].phase == RestoreRead && (id !in s.manifests || !s.manifests[id].state.QuarantinedState?))
      || (s.tasks[u].phase.RestoreHash? && (Kept(id) !in s.disk || IdentityOf(hash, s.disk[Kept(id)]) != s.tasks[u].phase.manifest.identity))
      || (s.tasks[u].phase.RestoreAccess? && s.tasks[u].phase.manifest.original in s.disk)
      ==> Done(hash, s, u, Fine, Safe) == s.(tasks := s.tasks[u := Task(Restore(id), Ended(NotRestored))])
  {
    hide IdentityOf, Moving;
  }

  // ---------- Installing a file ----------

  lemma CopyingSteps(hash: Hash, s: State, t: nat, source: Path, path: Path)
    requires t < |s.tasks| && s.tasks[t].kind == Install(source, path)
    ensures s.tasks[t].phase == InstallCopy && source in s.disk && Staged(t) !in s.disk ==>
      Done(hash, s, t, Fine, Safe) == At(s.(disk := s.disk[Staged(t) := s.disk[source]]), t, InstallHash)
    ensures s.tasks[t].phase == InstallHash && Staged(t) in s.disk ==>
      Done(hash, s, t, Fine, Safe) == At(s, t, InstallScan(IdentityOf(hash, s.disk[Staged(t)])))
    ensures forall v :: s.tasks[t].phase.InstallScan? ==>
      Done(hash, s, t, Fine, v) == At(GuardProtocol.Scanned(s, t, Staged(t), v), t, InstallVerify(s.tasks[t].phase.before, v))
  {
    hide At, End, IdentityOf, PlaceNext, GuardProtocol.Scanned;
  }

  lemma PlacingSteps(hash: Hash, s: State, t: nat, source: Path, path: Path, identity: Identity)
    requires t < |s.tasks| && s.tasks[t].kind == Install(source, path)
    requires Staged(t) in s.disk && IdentityOf(hash, s.disk[Staged(t)]) == identity
    ensures s.tasks[t].phase.InstallVerify? && s.tasks[t].phase.before == identity ==>
      Done(hash, s, t, Fine, Safe)
        == At(s, t, if s.tasks[t].phase.verdict.Safe? then InstallAccess(identity) else QuarantineHash)
    ensures s.tasks[t].phase == InstallAccess(identity) && path !in s.disk ==>
      Done(hash, s, t, Fine, Safe) == At(s, t, InstallRehash(identity))
    ensures s.tasks[t].phase == InstallRehash(identity) ==>
      Done(hash, s, t, Fine, Safe) == At(s, t, Installing(StartMove(Staged(t), path, identity)))
  {
    hide At, End, IdentityOf, QuarantineNext;
  }

  lemma InstalledSteps(hash: Hash, s: State, t: nat, source: Path, path: Path, identity: Identity)
    requires t < |s.tasks| && s.tasks[t].kind == Install(source, path)
    requires path in s.disk && IdentityOf(hash, s.disk[path]) == identity
    ensures s.tasks[t].phase.Installing? && s.tasks[t].phase.m.at.AtCheck? && s.tasks[t].phase.m.dst == path
            && s.tasks[t].phase.m.identity == identity ==>
      var r := Done(hash, s, t, Fine, Safe);
      r == s.(tasks := s.tasks[t := Task(Install(source, path), InstallCheck(identity))], confirmed := r.confirmed)
    ensures s.tasks[t].phase == InstallCheck(identity) ==>
      Done(hash, s, t, Fine, Safe) == s.(tasks := s.tasks[t := Task(Install(source, path), Ended(Installed))])
  {
    hide IdentityOf, QuarantineNext;
    if s.tasks[t].phase.Installing? && s.tasks[t].phase.m.at.AtCheck? && s.tasks[t].phase.m.dst == path
       && s.tasks[t].phase.m.identity == identity {
      var m := s.tasks[t].phase.m;
      var (moved, next) := Moving(hash, s, t, m, Fine);
      assert next == m.(at := AtDone) && moved == s.(confirmed := moved.confirmed);
      hide Moving;
      assert Done(hash, s, t, Fine, Safe) == At(moved, t, InstallCheck(identity));
    }
  }

  /** The file to be installed is staged and scanned. */
  lemma StagedRun(hash: Hash, s: State, t: nat, verdict: Verdict) returns (run: seq<Event>, r: State)
    requires t < |s.tasks| && s.tasks[t].kind.Install? && s.tasks[t].phase == InstallCopy
    requires s.tasks[t].kind.source in s.disk && Staged(t) !in s.disk
    ensures Leads(hash, s, run, r) && OwnSteps(run, t, false)
    ensures var kind := s.tasks[t].kind;
      var b := s.disk[kind.source];
      r == s.(disk := s.disk[Staged(t) := b], scans := s.scans[t := GuardProtocol.Scan(b, verdict)],
        tasks := s.tasks[t := Task(kind, InstallVerify(IdentityOf(hash, b), verdict))])
  {
    hide Next, Leads, IdentityOf, At;
    var kind := s.tasks[t].kind;
    var b := s.disk[kind.source];
    var copied := s.(disk := s.disk[Staged(t) := b]);
    CopyingSteps(hash, s, t, kind.source, kind.path);
    var s1 := At(copied, t, InstallHash);
    CopyingSteps(hash, s1, t, kind.source, kind.path);
    var s2 := At(s1, t, InstallScan(IdentityOf(hash, b)));
    AtIs(copied, t);
    AtIs(s1, t);
    run := Steps(hash, t, [s, s1, s2]);
    r := StageIsScanned(hash, s2, t, verdict);
    LeadsThen(hash, s, run, s2, [Step(t, Fine, verdict)], r);
    run := run + [Step(t, Fine, verdict)];
  }

  lemma StageIsScanned(hash: Hash, s: State, t: nat, verdict: Verdict) returns (r: State)
    requires t < |s.tasks| && s.tasks[t].kind.Install? && s.tasks[t].phase.InstallScan? && Staged(t) in s.disk
    ensures Leads(hash, s, [Step(t, Fine, verdict)], r)
    ensures r == s.(scans := s.scans[t := GuardProtocol.Scan(s.disk[Staged(t)], verdict)],
      tasks := s.tasks[t := Task(s.tasks[t].kind, InstallVerify(s.tasks[t].phase.before, verdict))])
  {
    hide Next, Leads, IdentityOf, At;
    CopyingSteps(hash, s, t, s.tasks[t].kind.source, s.tasks[t].kind.path);
    LeadsOne(hash, s, Step(t, Fine, verdict));
    r := Next(hash, s, Step(t, Fine, verdict));
    AtIs(GuardProtocol.Scanned(s, t, Staged(t), verdict), t);
  }

  /** A staged file called safe, whose destination is free, comes to its move. */
  lemma ToBePlacedRun(hash: Hash, s: State, t: nat, identity: Identity) returns (run: seq<Event>, r: State)
    requires t < |s.tasks| && s.tasks[t].kind.Install? && s.tasks[t].phase == InstallVerify(identity, Safe)
    requires Staged(t) in s.disk && IdentityOf(hash, s.disk[Staged(t)]) == identity && s.tasks[t].kind.path !in s.disk
    ensures Leads(hash, s, run, r) && OwnSteps(run, t, false)
    ensures var kind := s.tasks[t].kind;
      r == s.(tasks := s.tasks[t := Task(kind, Installing(StartMove(Staged(t), kind.path, identity)))])
  {
    hide Next, Leads, IdentityOf, At;
    var kind := s.tasks[t].kind;
    PlacingSteps(hash, s, t, kind.source, kind.path, identity);
    var s1 := At(s, t, InstallAccess(identity));
    PlacingSteps(hash, s1, t, kind.source, kind.path, identity);
    var s2 := At(s1, t, InstallRehash(identity));
    PlacingSteps(hash, s2, t, kind.source, kind.path, identity);
    r := At(s2, t, Installing(StartMove(Staged(t), kind.path, identity)));
    AtIs(s, t);
    AtIs(s1, t);
    AtIs(s2, t);
    run := Steps(hash, t, [s, s1, s2, r]);
  }

  lemma PlacedRun(hash: Hash, s: State, t: nat, identity: Identity, crossing: bool) returns (run: seq<Event>, r: State)
    requires t < |s.tasks| && s.tasks[t].kind.Install? && s.tasks[t].kind.path.Game?
    requires s.tasks[t].phase == Installing(StartMove(Staged(t), s.tasks[t].kind.path, identity))
    requires Staged(t) in s.disk && IdentityOf(hash, s.disk[Staged(t)]) == identity
    requires crossing ==> Partial(s.tasks[t].kind.path, t) !in s.disk
    ensures Leads(hash, s, run, r) && OwnSteps(run, t, crossing)
    ensures var kind := s.tasks[t].kind;
      r == s.(disk := Renamed(s.disk, Staged(t), kind.path), tasks := s.tasks[t := Task(kind, Ended(Installed))],
        placed := s.placed + [Placement(t, t, kind.path, s.disk[Staged(t)])], consumer := r.consumer, confirmed := r.confirmed)
  {
    hide Next, Leads, IdentityOf, Renamed;
    var kind := s.tasks[t].kind;
    var moved, s1 := MoveRun(hash, s, t, StartMove(Staged(t), kind.path, identity), crossing);
    Arrives(s.disk, Staged(t), kind.path);
    InstalledSteps(hash, s1, t, kind.source, kind.path, identity);
    var s2 := Done(hash, s1, t, Fine, Safe);
    InstalledSteps(hash, s2, t, kind.source, kind.path, identity);
    r := Done(hash, s2, t, Fine, Safe);
    var last := Steps(hash, t, [s1, s2, r]);
    LeadsThen(hash, s, moved, s1, last, r);
    run := moved + last;
  }

  lemma StagedAndOn(disk: Disk, source: Path, stage: Path, dst: Path)
    requires source in disk && stage !in disk && stage != dst
    ensures Renamed(disk[stage := disk[source]], stage, dst) == disk[dst := disk[source]]
  {
  }

  /** A file that the scan calls safe is installed at its free destination with the bytes of its source. */
  lemma SafeFileIsInstalled(hash: Hash, s: State, t: nat, crossing: bool) returns (run: seq<Event>, r: State)
    requires t < |s.tasks| && s.tasks[t].kind.Install? && s.tasks[t].kind.path.Game? && s.tasks[t].phase == InstallCopy
    requires s.tasks[t].kind.source in s.disk && Staged(t) !in s.disk && s.tasks[t].kind.path !in s.disk
    requires crossing ==> Partial(s.tasks[t].kind.path, t) !in s.disk
    ensures Leads(hash, s, run, r) && OwnSteps(run, t, crossing)
    ensures var kind := s.tasks[t].kind;
      var b := s.disk[kind.source];
      r == s.(disk := s.disk[kind.path := b], tasks := s.tasks[t := Task(kind, Ended(Installed))],
        scans := s.scans[t := GuardProtocol.Scan(b, Safe)], placed := s.placed + [Placement(t, t, kind.path, b)],
        consumer := r.consumer, confirmed := r.confirmed)
  {
    hide Next, Leads, IdentityOf, Renamed;
    var kind := s.tasks[t].kind;
    var b := s.disk[kind.source];
    var identity := IdentityOf(hash, b);
    var staged, s1 := StagedRun(hash, s, t, Safe);
    var checked, s2 := ToBePlacedRun(hash, s1, t, identity);
    StagedAndOn(s.disk, kind.source, Staged(t), kind.path);
    var placed: seq<Event>;
    placed, r := PlacedRun(hash, s2, t, identity, crossing);
    LeadsThen(hash, s1, checked, s2, placed, r);
    LeadsThen(hash, s, staged, s1, checked + placed, r);
    run := staged + (checked + placed);
  }

  /** The install goes on to its placement exactly when the destination is seen to be free; otherwise nothing is changed. */
  lemma PlacesIff(hash: Hash, s: State, t: nat, io: Io, verdict: Verdict)
    requires t < |s.tasks| && s.tasks[t].kind.Install? && s.tasks[t].phase.InstallAccess?
    ensures var r := Next(hash, s, Step(t, io, verdict));
      && (r.tasks[t].phase == InstallRehash(s.tasks[t].phase.after) <==> s.tasks[t].kind.path !in s.disk && io.Fine?)
      && (r.tasks[t].phase == Ended(NotInstalled) <==> s.tasks[t].kind.path in s.disk || !io.Fine?)
      && r == s.(tasks := s.tasks[t := Task(s.tasks[t].kind, r.tasks[t].phase)])
  {
    hide IdentityOf, QuarantineNext;
  }

  /** A destination that is taken is left as it is: the install ends, and the staged copy stays where it was made. */
  lemma OccupiedDestinationIsKept(hash: Hash, s: State, t: nat) returns (run: seq<Event>, r: State)
    requires t < |s.tasks| && s.tasks[t].kind.Install? && s.tasks[t].kind.path.Game? && s.tasks[t].phase == InstallCopy
    requires s.tasks[t].kind.source in s.disk && Staged(t) !in s.disk && s.tasks[t].kind.path in s.disk
    ensures Leads(hash, s, run, r) && OwnSteps(run, t, false)
    ensures var kind := s.tasks[t].kind;
      var b := s.disk[kind.source];
      r == s.(disk := s.disk[Staged(t) := b], tasks := s.tasks[t := Task(kind, Ended(NotInstalled))],
        scans := s.scans[t := GuardProtocol.Scan(b, Safe)])
  {
    hide Next, Leads, IdentityOf, At;
    var kind := s.tasks[t].kind;
    var identity := IdentityOf(hash, s.disk[kind.source]);
    var staged, s1 := StagedRun(hash, s, t, Safe);
    PlacingSteps(hash, s1, t, kind.source, kind.path, identity);
    var s2 := At(s1, t, InstallAccess(identity));
    AtIs(s1, t);
    PlacesIff(hash, s2, t, Fine, Safe);
    r := Done(hash, s2, t, Fine, Safe);
    var last := Steps(hash, t, [s1, s2, r]);
    LeadsThen(hash, s, staged, s1, last, r);
    run := staged + last;
  }

  /** A file that the scan calls anything but safe is not installed: its staged copy goes to quarantine. */
  lemma UnsafeFileIsNotInstalled(hash: Hash, s: State, t: nat, verdict: Verdict, crossing: bool)
    returns (run: seq<Event>, r: State)
    requires t < |s.tasks| && s.tasks[t].kind.Install? && s.tasks[t].phase == InstallCopy && !verdict.Safe?
    requires s.tasks[t].kind.source in s.disk && Staged(t) !in s.disk && t !in s.manifests
    requires crossing ==> Partial(Kept(t), t) !in s.disk
    ensures Leads(hash, s, run, r) && OwnSteps(run, t, crossing)
    ensures var kind := s.tasks[t].kind;
      var b := s.disk[kind.source];
      r == s.(disk := s.disk[Kept(t) := b], tasks := s.tasks[t := Task(kind, Ended(Quarantined))],
        manifests := s.manifests[t := Manifest(QuarantinedState, kind.path, IdentityOf(hash, b))],
        scans := s.scans[t := GuardProtocol.Scan(b, verdict)], consumer := r.consumer, confirmed := r.confirmed)
  {
    hide Next, Leads, IdentityOf, At, Renamed;
    var kind := s.tasks[t].kind;
    var staged, s1 := StagedRun(hash, s, t, verdict);
    PlacingSteps(hash, s1, t, kind.source, kind.path, IdentityOf(hash, s.disk[kind.source]));
    var s2 := At(s1, t, QuarantineHash);
    AtIs(s1, t);
    var checked := Steps(hash, t, [s1, s2]);
    var kept: seq<Event>;
    kept, r := QuarantineRun(hash, s2, t, Staged(t), crossing);
    StagedAndOn(s.disk, kind.source, Staged(t), Kept(t));
    LeadsThen(hash, s1, checked, s2, kept, r);
    LeadsThen(hash, s, staged, s1, checked + kept, r);
    run := staged + (checked + kept);
  }
}
