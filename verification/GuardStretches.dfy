/** Stretches of a run in which one task goes on by its own steps and they succeed. */
module GuardStretches {
  import opened Prelude
  import opened GuardProtocol
  import opened GuardSafety
  import opened GuardEffects
  import opened GuardRestores

  // ---------- Steps that succeed ----------

  /** The state after one more step of task `t`. */
  function Done(hash: Hash, s: State, t: nat, io: Io, verdict: Verdict): State
    requires t < |s.tasks|
  {
    Next(hash, s, Step(t, io, verdict))
  }

  lemma HoldingSteps(hash: Hash, s: State, t: nat, path: Path)
    requires t < |s.tasks| && s.tasks[t].kind == Process(path)
    ensures s.tasks[t].phase.CheckTrusted? && path !in s.trusted ==> Done(hash, s, t, Fine, Safe) == At(s, t, StageHash)
    ensures s.tasks[t].phase.StageHash? && path in s.disk ==>
      Done(hash, s, t, Fine, Safe) == At(s, t, Staging(StartMove(path, Held(t), IdentityOf(hash, s.disk[path]))))
  {
    hide At, End, IdentityOf, ReleaseNext, SameIdentity;
  }

  lemma VerdictSteps(hash: Hash, s: State, t: nat, path: Path, identity: Identity)
    requires t < |s.tasks| && s.tasks[t].kind == Process(path)
    requires Held(t) in s.disk && IdentityOf(hash, s.disk[Held(t)]) == identity
    ensures s.tasks[t].phase == Scanning(identity) ==> forall v ::
      Done(hash, s, t, Fine, v) == At(GuardProtocol.Scanned(s, t, Held(t), v), t, Verifying(identity, v))
    ensures s.tasks[t].phase == Verifying(identity, Safe) ==> Done(hash, s, t, Fine, Safe) == At(s, t, ReleaseVerify(identity))
    ensures s.tasks[t].phase.Verifying? && s.tasks[t].phase.identity == identity && !s.tasks[t].phase.verdict.Safe? ==>
      Done(hash, s, t, Fine, Safe) == At(s, t, QuarantineHash)
  {
    hide At, End, IdentityOf, ReleaseNext, GuardProtocol.Scanned;
  }

  lemma ReleaseSteps(hash: Hash, s: State, t: nat, path: Path, identity: Identity)
    requires t < |s.tasks| && s.tasks[t].kind == Process(path)
    requires Held(t) in s.disk && IdentityOf(hash, s.disk[Held(t)]) == identity
    ensures s.tasks[t].phase == ReleaseVerify(identity) ==> Done(hash, s, t, Fine, Safe) == At(s, t, ReleaseAccess(identity))
    ensures s.tasks[t].phase == ReleaseAccess(identity) && path !in s.disk ==>
      Done(hash, s, t, Fine, Safe) == At(s, t, Releasing(StartMove(Held(t), path, identity)))
  {
    hide At, End, IdentityOf, QuarantineNext;
  }

  lemma QuarantineSteps(hash: Hash, s: State, t: nat, source: Path, path: Path, identity: Identity)
    requires t < |s.tasks| && !s.tasks[t].kind.Restore? && source == SourceOf(s, t) && path == s.tasks[t].kind.path
    ensures s.tasks[t].phase == QuarantineHash && source in s.disk && IdentityOf(hash, s.disk[source]) == identity ==>
      Done(hash, s, t, Fine, Safe) == At(s, t, QuarantinePending(identity))
    ensures s.tasks[t].phase == QuarantinePending(identity) && t !in s.manifests ==>
      Done(hash, s, t, Fine, Safe) == At(WriteManifest(s, t, Manifest(PendingState, path, identity), Fine), t,
        Quarantining(StartMove(source, Kept(t), identity)))
    ensures s.tasks[t].phase == QuarantineWrite(identity) ==>
      Done(hash, s, t, Fine, Safe) == Distrusted(WriteManifest(End(s, t, Quarantined), t, Manifest(QuarantinedState, path, identity),
        Fine), t, path)
  {
    hide At, End, IdentityOf, WriteManifest, Distrusted;
  }

  /** The steps of a move, whatever it is for. */
  lemma MoveSteps(hash: Hash, s: State, t: nat, m: Move, io: Io)
    requires t < |s.tasks| && CurrentMove(s.tasks[t].phase) == Some(m) && FitsKind(s.tasks[t])
    ensures var (disk, next) := MoveNext(hash, s.disk, m, t, io);
      var r := Done(hash, s, t, io, Safe);
      !next.Over() ==>
        && r == s.(disk := disk, tasks := s.tasks[t := Task(s.tasks[t].kind, WithMove(s.tasks[t].phase, next))],
                   placed := r.placed, consumer := r.consumer, confirmed := r.confirmed)
        && (Places(s.disk, m, t, io).None? || m.dst.Private() ==> r.placed == s.placed)
        && (Places(s.disk, m, t, io).Some? && m.dst.Game? ==>
              r.placed == s.placed + [Placement(t, Payload(s, t), m.dst, Places(s.disk, m, t, io).value)])
  {
    hide MoveNext, Places, Next, FitsKind;
    MoveGoesOn(hash, s, t, io, Safe, m);
  }

  /** The check that ends a move. */
  lemma CheckSteps(hash: Hash, s: State, t: nat, m: Move)
    requires t < |s.tasks| && CurrentMove(s.tasks[t].phase) == Some(m) && FitsKind(s.tasks[t]) && m.at.AtCheck?
    requires m.dst in s.disk && IdentityOf(hash, s.disk[m.dst]) == m.identity
    ensures var r := Done(hash, s, t, Fine, Safe);
      var next := match s.tasks[t].phase
        case Staging(_) => Scanning(m.identity)
        case Quarantining(_) => QuarantineWrite(m.identity)
        case Restoring(manifest, _) => RestoreWrite(manifest)
        case _ => s.tasks[t].phase;
      !s.tasks[t].phase.Releasing? && !s.tasks[t].phase.Installing? ==>
        r == s.(tasks := s.tasks[t := Task(s.tasks[t].kind, next)], confirmed := r.confirmed)
  {
    hide IdentityOf, Next, FitsKind, At;
    var moved := Moving(hash, s, t, m, Fine);
    assert moved.1.at.AtDone? && moved.0 == s.(confirmed := moved.0.confirmed);
    hide Moving;
    CheckIs(hash, s, t, m);
    AtIs(moved.0, t);
  }

  lemma AtIs(s: State, t: nat)
    requires t < |s.tasks|
    ensures forall phase :: At(s, t, phase) == s.(tasks := s.tasks[t := Task(s.tasks[t].kind, phase)])
  {
  }

  lemma CheckIs(hash: Hash, s: State, t: nat, m: Move)
    requires t < |s.tasks| && CurrentMove(s.tasks[t].phase) == Some(m) && FitsKind(s.tasks[t])
    requires Moving(hash, s, t, m, Fine).1.at.AtDone?
    ensures var (r, next) := Moving(hash, s, t, m, Fine);
      var phase := s.tasks[t].phase;
      && (phase.Staging? ==> Done(hash, s, t, Fine, Safe) == At(r, t, Scanning(next.identity)))
      && (phase.Quarantining? ==> Done(hash, s, t, Fine, Safe) == At(r, t, QuarantineWrite(m.identity)))
      && (phase.Restoring? ==> Done(hash, s, t, Fine, Safe) == At(r, t, RestoreWrite(phase.manifest)))
  {
    hide Moving, At, End;
  }

  // ---------- Stretches of a run ----------

  /** A file to be held comes to the rename that takes it out of the game tree. */
  lemma StageRun(hash: Hash, s: State, path: Path) returns (run: seq<Event>, r: State)
    requires path.Game? && path in s.disk && path !in s.processing && path !in s.trusted
    ensures Leads(hash, s, run, r) && run != [] && run[0] == FileEvent(path) && OwnSteps(run[1..], |s.tasks|, false)
    ensures r == s.(processing := s.processing[path := |s.tasks|], confirmed := r.confirmed, consumer := r.consumer,
      tasks := s.tasks + [Task(Process(path),
        Staging(Move(path, Held(|s.tasks|), IdentityOf(hash, s.disk[path]), AtRename)))])
  {
    hide Next, Leads, IdentityOf, Places;
    var t, identity := |s.tasks|, IdentityOf(hash, s.disk[path]);
    var s1 := Appears(hash, s, path);
    HoldingSteps(hash, s1, t, path);
    var s2 := Done(hash, s1, t, Fine, Safe);
    HoldingSteps(hash, s2, t, path);
    var s3 := Done(hash, s2, t, Fine, Safe);
    MoveSteps(hash, s3, t, StartMove(path, Held(t), identity), Fine);
    r := Done(hash, s3, t, Fine, Safe);
    run := Steps(hash, t, [s1, s2, s3, r]);
    LeadsOn(hash, s, FileEvent(path), s1, run, r);
    run := [FileEvent(path)] + run;
  }

  /** A file is held: moved out of the game tree and ready to be scanned. */
  lemma HoldRun(hash: Hash, s: State, path: Path) returns (run: seq<Event>, r: State)
    requires path.Game? && path in s.disk && path !in s.processing && path !in s.trusted
    ensures Leads(hash, s, run, r)
    ensures r == s.(disk := Renamed(s.disk, path, Held(|s.tasks|)), processing := r.processing, confirmed := r.confirmed,
      tasks := s.tasks + [Task(Process(path), Scanning(IdentityOf(hash, s.disk[path])))], consumer := r.consumer)
  {
    hide Next, Leads, IdentityOf, Places;
    var t := |s.tasks|;
    var s1: State;
    run, s1 := StageRun(hash, s, path);
    var m := s1.tasks[t].phase.m;
    MoveSteps(hash, s1, t, m, Fine);
    var s2 := Done(hash, s1, t, Fine, Safe);
    CheckSteps(hash, s2, t, m.(at := AtCheck));
    r := Done(hash, s2, t, Fine, Safe);
    var more := Steps(hash, t, [s1, s2, r]);
    LeadsThen(hash, s, run, s1, more, r);
    run := run + more;
  }

  lemma Appears(hash: Hash, s: State, path: Path) returns (s1: State)
    requires path.Game? && path !in s.processing
    ensures Enabled(s, FileEvent(path)) && s1 == Next(hash, s, FileEvent(path))
    ensures s1 == s.(processing := s.processing[path := |s.tasks|], tasks := s.tasks + [Task(Process(path), CheckTrusted)])
  {
    s1 := Next(hash, s, FileEvent(path));
  }

  lemma TaskSteps(s: State, t: nat)
    ensures Enabled(s, Step(t, Fine, Safe)) <==> t < |s.tasks|
  {
  }

  /** Nothing but steps of task `t` happens, and they succeed; with `crossing`, renames may find another volume. */
  predicate OwnSteps(run: seq<Event>, t: nat, crossing: bool) {
    forall e :: e in run ==> e.Step? && e.t == t && (e.io.Fine? || (crossing && e.io.CrossDevice?))
  }

  ghost predicate ChainedAt(hash: Hash, t: nat, states: seq<State>, i: nat)
    requires 0 < i < |states|
  {
    t < |states[i - 1].tasks| && states[i] == Done(hash, states[i - 1], t, Fine, Safe)
  }

  /** Each state comes from the one before by a fine step of task `t`. */
  ghost predicate Chained(hash: Hash, t: nat, states: seq<State>) {
    forall i :: 0 < i < |states| ==> ChainedAt(hash, t, states, i)
  }

  lemma {:induction false} Steps(hash: Hash, t: nat, states: seq<State>) returns (run: seq<Event>)
    requires states != [] && Chained(hash, t, states)
    ensures Leads(hash, states[0], run, states[|states| - 1]) && OwnSteps(run, t, false)
  {
    hide Next, Enabled, Leads;
    if |states| == 1 {
      run := [];
      assert Leads(hash, states[0], [], states[0]) by { LeadsNowhere(hash, states[0]); }
    } else {
      ChainedRest(hash, t, states);
      run := Steps(hash, t, states[1..]);
      TaskSteps(states[0], t);
      LeadsOn(hash, states[0], Step(t, Fine, Safe), states[1], run, states[|states| - 1]);
      run := [Step(t, Fine, Safe)] + run;
    }
  }

  lemma LeadsNowhere(hash: Hash, s: State)
    ensures Leads(hash, s, [], s)
  {
  }

  lemma ChainedRest(hash: Hash, t: nat, states: seq<State>)
    requires |states| > 1 && Chained(hash, t, states)
    ensures t < |states[0].tasks| && states[1] == Done(hash, states[0], t, Fine, Safe) && Chained(hash, t, states[1..])
  {
    hide Done;
    assert ChainedAt(hash, t, states, 1);
    var rest := states[1..];
    forall i | 0 < i < |rest|
      ensures ChainedAt(hash, t, rest, i)
    {
      assert ChainedAt(hash, t, states, i + 1);
    }
  }

  lemma Scans(hash: Hash, s: State, t: nat, path: Path, identity: Identity, verdict: Verdict) returns (r: State)
    requires t < |s.tasks| && s.tasks[t] == Task(Process(path), Scanning(identity))
    requires Held(t) in s.disk && IdentityOf(hash, s.disk[Held(t)]) == identity
    ensures Leads(hash, s, [Step(t, Fine, verdict)], r)
    ensures r == s.(tasks := s.tasks[t := Task(Process(path), Verifying(identity, verdict))],
      scans := s.scans[t := GuardProtocol.Scan(s.disk[Held(t)], verdict)])
  {
    hide Next, Leads, IdentityOf, At;
    VerdictSteps(hash, s, t, path, identity);
    LeadsOne(hash, s, Step(t, Fine, verdict));
    r := Next(hash, s, Step(t, Fine, verdict));
    AtIs(GuardProtocol.Scanned(s, t, Held(t), verdict), t);
  }

  /** A held file called safe comes to the rename that puts it back. */
  lemma ReleaseRun(hash: Hash, s: State, t: nat, path: Path, identity: Identity) returns (run: seq<Event>, r: State)
    requires t < |s.tasks| && s.tasks[t] == Task(Process(path), Scanning(identity)) && path !in s.disk
    requires Held(t) in s.disk && IdentityOf(hash, s.disk[Held(t)]) == identity
    ensures Leads(hash, s, run, r) && OwnSteps(run, t, false)
    ensures r == s.(tasks := s.tasks[t := Task(Process(path), Releasing(Move(Held(t), path, identity, AtRename)))],
      scans := s.scans[t := GuardProtocol.Scan(s.disk[Held(t)], Safe)], consumer := r.consumer, confirmed := r.confirmed)
  {
    hide Next, Leads, IdentityOf, At;
    var s1 := Scans(hash, s, t, path, identity, Safe);
    VerdictSteps(hash, s1, t, path, identity);
    var s2 := At(s1, t, ReleaseVerify(identity));
    ReleaseSteps(hash, s2, t, path, identity);
    var s3 := At(s2, t, ReleaseAccess(identity));
    ReleaseSteps(hash, s3, t, path, identity);
    var m := StartMove(Held(t), path, identity);
    var s4 := At(s3, t, Releasing(m));
    MoveSteps(hash, s4, t, m, Fine);
    r := Done(hash, s4, t, Fine, Safe);
    AtAgain(s2, t, ReleaseAccess(identity), Releasing(m));
    AtAgain(s1, t, ReleaseVerify(identity), Releasing(m));
    AtIs(s1, t);
    var more := Steps(hash, t, [s1, s2, s3, s4, r]);
    LeadsThen(hash, s, [Step(t, Fine, Safe)], s1, more, r);
    run := [Step(t, Fine, Safe)] + more;
  }

  // ---------- Cross-volume copies ----------

  /** A move whose rename crosses volumes makes its copy and checks it. */
  lemma CopyRun(hash: Hash, s: State, t: nat, m: Move) returns (run: seq<Event>, r: State)
    requires t < |s.tasks| && CurrentMove(s.tasks[t].phase) == Some(m) && FitsKind(s.tasks[t]) && m.at.AtRename?
    requires m.src in s.disk && IdentityOf(hash, s.disk[m.src]) == m.identity && m.Temp(t) !in s.disk && !m.src.Partial?
    ensures Leads(hash, s, run, r) && OwnSteps(run, t, true)
    ensures r == s.(disk := s.disk[m.Temp(t) := s.disk[m.src]], consumer := r.consumer, confirmed := r.confirmed,
      tasks := s.tasks[t := Task(s.tasks[t].kind, WithMove(s.tasks[t].phase, m.(at := AtRenameCopy)))])
  {
    hide IdentityOf, Next, Leads, FitsKind;
    var crossing := Step(t, CrossDevice, Safe);
    MoveSteps(hash, s, t, m, CrossDevice);
    var s1 := Next(hash, s, crossing);
    LeadsOne(hash, s, crossing);
    SameFit(s, s1, t, m.(at := AtCopy));
    run, r := CopyChecked(hash, s1, t, m.(at := AtCopy));
    LeadsThen(hash, s, [crossing], s1, run, r);
    run := [crossing] + run;
  }

  lemma CopyChecked(hash: Hash, s: State, t: nat, m: Move) returns (run: seq<Event>, r: State)
    requires t < |s.tasks| && CurrentMove(s.tasks[t].phase) == Some(m) && FitsKind(s.tasks[t]) && m.at.AtCopy?
    requires m.src in s.disk && IdentityOf(hash, s.disk[m.src]) == m.identity && m.Temp(t) !in s.disk && !m.src.Partial?
    ensures Leads(hash, s, run, r) && OwnSteps(run, t, true)
    ensures r == s.(disk := s.disk[m.Temp(t) := s.disk[m.src]], consumer := r.consumer, confirmed := r.confirmed,
      tasks := s.tasks[t := Task(s.tasks[t].kind, WithMove(s.tasks[t].phase, m.(at := AtRenameCopy)))])
  {
    hide IdentityOf, Next, Leads, FitsKind;
    MoveSteps(hash, s, t, m, Fine);
    var s1 := Done(hash, s, t, Fine, Safe);
    SameFit(s, s1, t, m.(at := AtHashCopy));
    MoveSteps(hash, s1, t, m.(at := AtHashCopy), Fine);
    r := Done(hash, s1, t, Fine, Safe);
    SameFit(s1, r, t, m.(at := AtRenameCopy));
    run := Steps(hash, t, [s, s1, r]);
  }

  lemma SameFit(s: State, r: State, t: nat, m: Move)
    requires t < |s.tasks| && CurrentMove(s.tasks[t].phase).Some? && FitsKind(s.tasks[t])
    requires t < |r.tasks| && r.tasks[t] == Task(s.tasks[t].kind, WithMove(s.tasks[t].phase, m))
    ensures CurrentMove(r.tasks[t].phase) == Some(m) && FitsKind(r.tasks[t])
    ensures forall m2 :: WithMove(r.tasks[t].phase, m2) == WithMove(s.tasks[t].phase, m2)
  {
  }

  /** The checked copy is renamed onto the destination. */
  lemma RenameCopy(hash: Hash, s: State, t: nat, m: Move) returns (r: State)
    requires t < |s.tasks| && CurrentMove(s.tasks[t].phase) == Some(m) && FitsKind(s.tasks[t]) && m.at.AtRenameCopy?
    requires m.Temp(t) in s.disk && (m.dst.Game? || m.dst.Private()) && !m.src.Partial?
    ensures r == Next(hash, s, Step(t, Fine, Safe)) && Leads(hash, s, [Step(t, Fine, Safe)], r)
    ensures r == s.(disk := Renamed(s.disk, m.Temp(t), m.dst), consumer := r.consumer, confirmed := r.confirmed,
      tasks := s.tasks[t := Task(s.tasks[t].kind, WithMove(s.tasks[t].phase, m.(at := AtUnlink)))],
      placed := if m.dst.Game? then s.placed + [Placement(t, Payload(s, t), m.dst, s.disk[m.Temp(t)])] else s.placed)
    ensures CurrentMove(r.tasks[t].phase) == Some(m.(at := AtUnlink)) && FitsKind(r.tasks[t])
  {
    hide Next, Leads, FitsKind;
    MoveSteps(hash, s, t, m, Fine);
    r := Next(hash, s, Step(t, Fine, Safe));
    LeadsOne(hash, s, Step(t, Fine, Safe));
    SameFit(s, r, t, m.(at := AtUnlink));
  }

  lemma UnlinkSource(hash: Hash, s: State, t: nat, m: Move) returns (r: State)
    requires t < |s.tasks| && CurrentMove(s.tasks[t].phase) == Some(m) && FitsKind(s.tasks[t]) && m.at.AtUnlink?
    requires m.src in s.disk
    ensures r == Next(hash, s, Step(t, Fine, Safe)) && Leads(hash, s, [Step(t, Fine, Safe)], r)
    ensures r == s.(disk := s.disk - {m.src}, consumer := r.consumer, confirmed := r.confirmed,
      tasks := s.tasks[t := Task(s.tasks[t].kind, WithMove(s.tasks[t].phase, m.(at := AtCheck)))])
    ensures CurrentMove(r.tasks[t].phase) == Some(m.(at := AtCheck)) && FitsKind(r.tasks[t])
  {
    hide Next, Leads, FitsKind;
    MoveSteps(hash, s, t, m, Fine);
    r := Next(hash, s, Step(t, Fine, Safe));
    LeadsOne(hash, s, Step(t, Fine, Safe));
    SameFit(s, r, t, m.(at := AtCheck));
  }

  // ---------- A move within one volume or across volumes ----------

  lemma RenamedTwice(disk: Disk, src: Path, dst: Path, temp: Path)
    requires src in disk && temp !in disk && temp != dst && src != dst
    ensures Renamed(disk[temp := disk[src]], temp, dst) - {src} == Renamed(disk, src, dst)
  {
  }

  lemma {:induction false} NotItsOwnCopy(p: Path, t: nat)
    ensures Partial(p, t) != p
    decreases p
  {
    if p.Partial? {
      NotItsOwnCopy(p.target, p.task);
    }
  }

  /** A move that stands at its rename gets the file to its destination, on this volume or another. */
  lemma RenameRun(hash: Hash, s: State, t: nat, m: Move, crossing: bool) returns (run: seq<Event>, r: State)
    requires t < |s.tasks| && CurrentMove(s.tasks[t].phase) == Some(m) && FitsKind(s.tasks[t]) && m.at.AtRename?
    requires m.src in s.disk && IdentityOf(hash, s.disk[m.src]) == m.identity && !m.src.Partial? && m.src != m.dst
    requires (m.dst.Game? || m.dst.Private()) && (crossing ==> m.Temp(t) !in s.disk)
    ensures Leads(hash, s, run, r) && OwnSteps(run, t, crossing)
    ensures r == s.(disk := Renamed(s.disk, m.src, m.dst), consumer := r.consumer, confirmed := r.confirmed,
      tasks := s.tasks[t := Task(s.tasks[t].kind, WithMove(s.tasks[t].phase, m.(at := AtCheck)))],
      placed := if m.dst.Game? then s.placed + [Placement(t, Payload(s, t), m.dst, s.disk[m.src])] else s.placed)
    ensures CurrentMove(r.tasks[t].phase) == Some(m.(at := AtCheck)) && FitsKind(r.tasks[t])
  {
    hide IdentityOf, Next, Leads, FitsKind, Renamed;
    var step := [Step(t, Fine, Safe)];
    if crossing {
      var copied, s1 := CopyRun(hash, s, t, m);
      SameFit(s, s1, t, m.(at := AtRenameCopy));
      var s2 := RenameCopy(hash, s1, t, m.(at := AtRenameCopy));
      NotItsOwnCopy(m.dst, t);
      SourceStays(s1.disk, m, t);
      r := UnlinkSource(hash, s2, t, m.(at := AtUnlink));
      RenamedTwice(s.disk, m.src, m.dst, m.Temp(t));
      LeadsThen(hash, s1, step, s2, step, r);
      LeadsThen(hash, s, copied, s1, step + step, r);
      run := copied + (step + step);
    } else {
      MoveSteps(hash, s, t, m, Fine);
      r := Next(hash, s, step[0]);
      LeadsOne(hash, s, step[0]);
      run := step;
    }
    SameFit(s, r, t, m.(at := AtCheck));
  }

  /** A move of a file that is as expected gets it to its destination. */
  lemma MoveRun(hash: Hash, s: State, t: nat, m: Move, crossing: bool) returns (run: seq<Event>, r: State)
    requires t < |s.tasks| && CurrentMove(s.tasks[t].phase) == Some(m) && FitsKind(s.tasks[t]) && m.at.AtStart?
    requires m.src in s.disk && IdentityOf(hash, s.disk[m.src]) == m.identity && !m.src.Partial? && m.src != m.dst
    requires (m.dst.Game? || m.dst.Private()) && (crossing ==> m.Temp(t) !in s.disk)
    ensures Leads(hash, s, run, r) && OwnSteps(run, t, crossing)
    ensures r == s.(disk := Renamed(s.disk, m.src, m.dst), consumer := r.consumer, confirmed := r.confirmed,
      tasks := s.tasks[t := Task(s.tasks[t].kind, WithMove(s.tasks[t].phase, m.(at := AtCheck)))],
      placed := if m.dst.Game? then s.placed + [Placement(t, Payload(s, t), m.dst, s.disk[m.src])] else s.placed)
  {
    hide Next, Leads, IdentityOf, FitsKind, Renamed;
    MoveSteps(hash, s, t, m, Fine);
    var s1 := Done(hash, s, t, Fine, Safe);
    SameFit(s, s1, t, m.(at := AtRename));
    var first := Steps(hash, t, [s, s1]);
    run, r := RenameRun(hash, s1, t, m.(at := AtRename), crossing);
    LeadsThen(hash, s, first, s1, run, r);
    run := first + run;
  }

  lemma Arrives(disk: Disk, src: Path, dst: Path)
    requires src in disk
    ensures dst in Renamed(disk, src, dst) && Renamed(disk, src, dst)[dst] == disk[src]
  {
  }

  lemma SourceStays(disk: Disk, m: Move, t: nat)
    requires m.Temp(t) in disk && m.src in disk && !m.src.Partial? && m.src != m.dst
    ensures m.src in Renamed(disk, m.Temp(t), m.dst)
  {
  }

  // ---------- Quarantine ----------

  lemma PendingIs(s: State, t: nat, path: Path, identity: Identity)
    requires t < |s.tasks|
    ensures var pending := Manifest(PendingState, path, identity);
      forall phase :: At(WriteManifest(s, t, pending, Fine), t, phase) ==
        s.(manifests := s.manifests[t := pending], tasks := s.tasks[t := Task(s.tasks[t].kind, phase)])
  {
  }

  /** A processed path may be processed again. */
  function StillProcessing(processing: map<Path, nat>, kind: Kind): map<Path, nat> {
    if kind.Process? then processing - {kind.path} else processing
  }

  /** A processed path whose file went to quarantine is trusted no more. */
  function StillTrusted(trusted: map<Path, Identity>, kind: Kind): map<Path, Identity> {
    if kind.Process? then trusted - {kind.path} else trusted
  }

  lemma ConcludedIs(s: State, t: nat, path: Path, identity: Identity)
    requires t < |s.tasks| && !s.tasks[t].kind.Restore? && s.tasks[t].kind.path == path
    ensures Distrusted(WriteManifest(End(s, t, Quarantined), t, Manifest(QuarantinedState, path, identity), Fine), t, path)
      == s.(manifests := s.manifests[t := Manifest(QuarantinedState, path, identity)],
            processing := StillProcessing(s.processing, s.tasks[t].kind), trusted := StillTrusted(s.trusted, s.tasks[t].kind),
            tasks := s.tasks[t := Task(s.tasks[t].kind, Ended(Quarantined))])
  {
    var ended := End(s, t, Quarantined);
    assert ended == s.(processing := StillProcessing(s.processing, s.tasks[t].kind),
                       tasks := s.tasks[t := Task(s.tasks[t].kind, Ended(Quarantined))]);
    assert ended.tasks[t].kind == s.tasks[t].kind;
    hide End, At;
  }

  /** A file that was moved to quarantine is recorded there. */
  lemma KeptRun(hash: Hash, s: State, t: nat, source: Path, m: Move) returns (run: seq<Event>, r: State)
    requires t < |s.tasks| && !s.tasks[t].kind.Restore? && source == SourceOf(s, t)
    requires s.tasks[t].phase == Quarantining(m) && m.at.AtCheck? && m.dst == Kept(t)
    requires Kept(t) in s.disk && IdentityOf(hash, s.disk[Kept(t)]) == m.identity
    ensures Leads(hash, s, run, r) && OwnSteps(run, t, false)
    ensures r == s.(processing := StillProcessing(s.processing, s.tasks[t].kind),
      trusted := StillTrusted(s.trusted, s.tasks[t].kind), consumer := r.consumer, confirmed := r.confirmed,
      tasks := s.tasks[t := Task(s.tasks[t].kind, Ended(Quarantined))],
      manifests := s.manifests[t := Manifest(QuarantinedState, s.tasks[t].kind.path, m.identity)])
  {
    hide Next, Leads, IdentityOf, At, End, WriteManifest, Distrusted, StillProcessing, StillTrusted;
    CheckSteps(hash, s, t, m);
    var s1 := Done(hash, s, t, Fine, Safe);
    QuarantineSteps(hash, s1, t, source, s.tasks[t].kind.path, m.identity);
    r := Done(hash, s1, t, Fine, Safe);
    ConcludedIs(s1, t, s.tasks[t].kind.path, m.identity);
    run := Steps(hash, t, [s, s1, r]);
  }

  /** A file that is not to be let go comes to its move. */
  lemma PendingRun(hash: Hash, s: State, t: nat, source: Path) returns (run: seq<Event>, r: State)
    requires t < |s.tasks| && !s.tasks[t].kind.Restore? && source == SourceOf(s, t) && s.tasks[t].phase == QuarantineHash
    requires t !in s.manifests && source in s.disk
    ensures Leads(hash, s, run, r) && OwnSteps(run, t, false)
    ensures var identity := IdentityOf(hash, s.disk[source]);
      r == s.(manifests := s.manifests[t := Manifest(PendingState, s.tasks[t].kind.path, identity)],
        tasks := s.tasks[t := Task(s.tasks[t].kind, Quarantining(StartMove(source, Kept(t), identity)))])
  {
    hide Next, Leads, IdentityOf, At, WriteManifest;
    var path, identity := s.tasks[t].kind.path, IdentityOf(hash, s.disk[source]);
    QuarantineSteps(hash, s, t, source, path, identity);
    var s1 := At(s, t, QuarantinePending(identity));
    QuarantineSteps(hash, s1, t, source, path, identity);
    r := Done(hash, s1, t, Fine, Safe);
    AtIs(s, t);
    PendingIs(s1, t, path, identity);
    run := Steps(hash, t, [s, s1, r]);
  }

  /** A file that is not to be let go ends in quarantine. */
  lemma QuarantineRun(hash: Hash, s: State, t: nat, source: Path, crossing: bool) returns (run: seq<Event>, r: State)
    requires t < |s.tasks| && !s.tasks[t].kind.Restore? && source == SourceOf(s, t) && s.tasks[t].phase == QuarantineHash
    requires t !in s.manifests && source in s.disk && (crossing ==> Partial(Kept(t), t) !in s.disk)
    ensures Leads(hash, s, run, r) && OwnSteps(run, t, crossing)
    ensures r == s.(disk := Renamed(s.disk, source, Kept(t)),
      processing := StillProcessing(s.processing, s.tasks[t].kind), trusted := StillTrusted(s.trusted, s.tasks[t].kind),
      tasks := s.tasks[t := Task(s.tasks[t].kind, Ended(Quarantined))], consumer := r.consumer, confirmed := r.confirmed,
      manifests := s.manifests[t := Manifest(QuarantinedState, s.tasks[t].kind.path, IdentityOf(hash, s.disk[source]))])
  {
    hide Next, Leads, IdentityOf, Renamed, StillProcessing, StillTrusted;
    var first, s1 := PendingRun(hash, s, t, source);
    var m := s1.tasks[t].phase.m;
    var moved, s2 := MoveRun(hash, s1, t, m, crossing);
    Arrives(s.disk, source, Kept(t));
    var last: seq<Event>;
    last, r := KeptRun(hash, s2, t, source, m.(at := AtCheck));
    LeadsThen(hash, s1, moved, s2, last, r);
    LeadsThen(hash, s, first, s1, moved + last, r);
    run := first + (moved + last);
  }

  /** A held file that its scan does not call safe is not to be let go. */
  lemma CondemnRun(hash: Hash, s: State, t: nat, path: Path, verdict: Verdict) returns (run: seq<Event>, r: State)
    requires t < |s.tasks| && s.tasks[t].kind == Process(path) && s.tasks[t].phase.Scanning? && !verdict.Safe?
    requires Held(t) in s.disk && IdentityOf(hash, s.disk[Held(t)]) == s.tasks[t].phase.identity
    ensures Leads(hash, s, run, r) && OwnSteps(run, t, false)
    ensures r == s.(tasks := s.tasks[t := Task(Process(path), QuarantineHash)],
      scans := s.scans[t := GuardProtocol.Scan(s.disk[Held(t)], verdict)])
  {
    hide Next, Leads, IdentityOf, At;
    var identity := s.tasks[t].phase.identity;
    var s1 := Scans(hash, s, t, path, identity, verdict);
    VerdictSteps(hash, s1, t, path, identity);
    r := Done(hash, s1, t, Fine, Safe);
    AtIs(s1, t);
    var more := Steps(hash, t, [s1, r]);
    LeadsThen(hash, s, [Step(t, Fine, verdict)], s1, more, r);
    run := [Step(t, Fine, verdict)] + more;
  }
}
