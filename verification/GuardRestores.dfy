/** How often a payload is put back by restore requests: at most one succeeds, and exactly when another can still place it. */
module GuardRestores {
  import opened Prelude
  import opened GuardProtocol
  import opened GuardSafety
  import opened GuardEffects

  /** Restore task `u` of payload `id` has its copy beside the game file. */
  predicate CopyAhead(s: State, u: nat, id: nat) {
    && u < |s.tasks| && s.tasks[u].kind == Restore(id)
    && s.tasks[u].phase.Restoring? && CopyUnderWay(s.tasks[u].phase.m.at)
  }

  /** Quarantine still has the payload, or some restore of it has copied it. */
  ghost predicate StillPlaceable(s: State, id: nat) {
    Kept(id) in s.disk || exists u: nat :: CopyAhead(s, u, id)
  }

  predicate ByRestore(s: State, i: nat, id: nat) {
    && i < |s.placed| && s.placed[i].id == id
    && s.placed[i].task < |s.tasks| && s.tasks[s.placed[i].task].kind == Restore(id)
  }

  /** From the `from`-th placement on, a restore put `id` into the game tree. */
  ghost predicate PlacedSince(s: State, from: nat, id: nat) {
    exists i: nat :: from <= i && ByRestore(s, i, id)
  }

  predicate IsQuarantined(s: State, id: nat) {
    id < |s.tasks| && s.tasks[id].phase == Ended(Quarantined)
  }

  // ---------- When not placeable, never again ----------

  lemma UnplaceableStep(hash: Hash, s: State, u: nat, id: nat, io: Io, verdict: Verdict)
    requires Inv(hash, s) && u < |s.tasks| && s.tasks[u].kind == Restore(id) && !StillPlaceable(s, id)
    ensures var r := Next(hash, s, Step(u, io, verdict));
      r.placed == s.placed && !CopyAhead(r, u, id)
  {
    hide Inv, Next, Moving, MoveOk, Touched;
    var r, phase := Next(hash, s, Step(u, io, verdict)), s.tasks[u].phase;
    WhatAStepTouches(hash, s, u, io, verdict);
    if phase.Restoring? {
      assert !CopyAhead(s, u, id);
      RestoreSource(hash, s, u);
      NothingToMove(hash, s.disk, phase.m, u, io);
      MoveOfRestore(hash, s, u, io, verdict);
    } else {
      NotYetMoving(hash, s, u, io, verdict);
    }
  }

  lemma RestoreSource(hash: Hash, s: State, u: nat)
    requires Inv(hash, s) && u < |s.tasks| && s.tasks[u].kind.Restore? && s.tasks[u].phase.Restoring?
    ensures s.tasks[u].phase.m.src == Kept(s.tasks[u].kind.payload)
  {
    hide Inv, InvBut, MoveOk;
    Facts(hash, s, u);
  }

  lemma NothingToMove(hash: Hash, disk: Disk, m: Move, u: nat, io: Io)
    requires m.src !in disk && !CopyUnderWay(m.at)
    ensures Places(disk, m, u, io).None? && !CopyUnderWay(MoveNext(hash, disk, m, u, io).1.at)
  {
  }

  lemma RestoringIs(hash: Hash, s: State, u: nat, io: Io, verdict: Verdict)
    requires u < |s.tasks| && s.tasks[u].kind.Restore? && s.tasks[u].phase.Restoring?
    ensures var (r, next) := Moving(hash, s, u, s.tasks[u].phase.m, io);
      Next(hash, s, Step(u, io, verdict)) ==
        if next.at.AtDone? then At(r, u, RestoreWrite(s.tasks[u].phase.manifest))
        else if next.at.AtFailed? then End(r, u, NotRestored)
        else At(r, u, Restoring(s.tasks[u].phase.manifest, next))
  {
    hide Moving, At, End;
  }

  lemma MoveOfRestore(hash: Hash, s: State, u: nat, io: Io, verdict: Verdict)
    requires u < |s.tasks| && s.tasks[u].kind.Restore? && s.tasks[u].phase.Restoring?
    requires Places(s.disk, s.tasks[u].phase.m, u, io).None?
    ensures var m, r := s.tasks[u].phase.m, Next(hash, s, Step(u, io, verdict));
      && r.placed == s.placed && u < |r.tasks|
      && (r.tasks[u].phase.Restoring? ==> r.tasks[u].phase.m == MoveNext(hash, s.disk, m, u, io).1)
  {
    MovingIs(hash, s, u, s.tasks[u].phase.m, io);
    RestoringIs(hash, s, u, io, verdict);
    hide Moving, MoveNext, Places, Next, At, End;
  }

  lemma NotYetMoving(hash: Hash, s: State, u: nat, io: Io, verdict: Verdict)
    requires u < |s.tasks| && s.tasks[u].kind.Restore? && !s.tasks[u].phase.Restoring?
    ensures var r := Next(hash, s, Step(u, io, verdict));
      && r.placed == s.placed && u < |r.tasks|
      && (r.tasks[u].phase.Restoring? ==> r.tasks[u].phase.m.at.AtStart?)
  {
    hide At, End, WriteManifest, Read, SameIdentity, Absent;
  }

  lemma StepBlocks(hash: Hash, s: State, t: nat, io: Io, verdict: Verdict, id: nat)
    requires Inv(hash, s) && t < |s.tasks| && IsQuarantined(s, id) && !StillPlaceable(s, id)
    ensures var r := Next(hash, s, Step(t, io, verdict));
      IsQuarantined(r, id) && !StillPlaceable(r, id) && s.placed <= r.placed && !PlacedSince(r, |s.placed|, id)
  {
    hide Inv, Next, Touched, CopyAhead;
    var r := Next(hash, s, Step(t, io, verdict));
    WhatAStepTouches(hash, s, t, io, verdict);
    StepPlaces(hash, s, t, io, verdict);
    if s.tasks[t].phase.Ended? {
      EndedStays(hash, s, t, io, verdict);
    }
    if Kept(id) in r.disk {
      StepKept(hash, s, t, io, verdict, id);
    }
    if s.tasks[t].kind == Restore(id) {
      UnplaceableStep(hash, s, t, id, io, verdict);
    }
    forall u: nat
      ensures !CopyAhead(r, u, id)
    {
      assert !CopyAhead(s, u, id);
      if u != t || s.tasks[t].kind != Restore(id) {
        SameCopy(s, r, t, u, id);
      }
    }
  }

  lemma SameCopy(s: State, r: State, t: nat, u: nat, id: nat)
    requires t < |s.tasks| && Recorded(s, t, r) && (u != t || s.tasks[t].kind != Restore(id))
    ensures CopyAhead(r, u, id) ==> CopyAhead(s, u, id)
  {
  }

  lemma EventBlocks(hash: Hash, s: State, e: Event, id: nat)
    requires Inv(hash, s) && Enabled(s, e) && IsQuarantined(s, id) && !StillPlaceable(s, id)
    ensures var r := Next(hash, s, e);
      IsQuarantined(r, id) && !StillPlaceable(r, id) && s.placed <= r.placed && !PlacedSince(r, |s.placed|, id)
  {
    hide Inv, ProcessNext, RestoreNext, InstallNext, SameIdentity, CopyAhead;
    if e.Step? {
      StepBlocks(hash, s, e.t, e.io, e.verdict, id);
    } else {
      var r := Next(hash, s, e);
      assert r.placed == s.placed;
      forall u: nat
        ensures !CopyAhead(r, u, id)
      {
        assert !CopyAhead(s, u, id);
        NewIsNotCopying(hash, s, e, u, id);
      }
    }
  }

  lemma NewIsNotCopying(hash: Hash, s: State, e: Event, u: nat, id: nat)
    requires Enabled(s, e) && !e.Step?
    ensures CopyAhead(Next(hash, s, e), u, id) ==> CopyAhead(s, u, id)
  {
    hide SameIdentity;
  }

  lemma PlacerIsTask(hash: Hash, s: State, i: nat)
    requires Inv(hash, s) && i < |s.placed|
    ensures s.placed[i].task < |s.tasks|
  {
    assert PlacementOk(s, s.placed[i]);
  }

  lemma SamePlacement(s: State, r: State, i: nat, id: nat)
    requires Grows(s, r) && i < |s.placed| && s.placed[i].task < |s.tasks|
    ensures ByRestore(r, i, id) <==> ByRestore(s, i, id)
  {
  }

  lemma {:induction false} RunBlocks(hash: Hash, s: State, events: seq<Event>, id: nat)
    requires Inv(hash, s) && Legal(hash, s, events) && IsQuarantined(s, id) && !StillPlaceable(s, id)
    ensures var r := After(hash, s, events);
      !StillPlaceable(r, id) && s.placed <= r.placed && !PlacedSince(r, |s.placed|, id)
    decreases |events|
  {
    hide Inv, Next, Enabled, StillPlaceable, IsQuarantined;
    if events != [] {
      var next, r := Next(hash, s, events[0]), After(hash, s, events);
      EventBlocks(hash, s, events[0], id);
      StepKeeps(hash, s, events[0]);
      RunBlocks(hash, next, events[1..], id);
      RunGrows(hash, next, events[1..]);
      forall i: nat | |s.placed| <= i
        ensures !ByRestore(r, i, id)
      {
        if ByRestore(r, i, id) && i < |next.placed| {
          PlacerIsTask(hash, next, i);
          SamePlacement(next, r, i, id);
        }
      }
    }
  }

  // ---------- What lies in quarantine is listed as quarantined ----------

  ghost predicate Listed(s: State) {
    forall id: nat :: IsQuarantined(s, id) && Kept(id) in s.disk ==>
      id in s.manifests && s.manifests[id].state.QuarantinedState?
  }

  lemma WrittenIsTaken(hash: Hash, s: State, t: nat)
    requires Inv(hash, s) && t < |s.tasks| && s.tasks[t].kind.Restore? && s.tasks[t].phase.RestoreWrite?
    ensures Kept(s.tasks[t].kind.payload) !in s.disk && s.tasks[t].kind.payload < |s.tasks|
    ensures s.tasks[s.tasks[t].kind.payload].phase.Ended?
  {
    hide InvBut, FilesOf, MoveOk, WasScanned, TasksOk, FilesOk, PlacementsOk, TrustOk, ManifestsOk, ProcessingOk;
    hide Owner;
    Facts(hash, s, t);
  }

  lemma StepLists(hash: Hash, s: State, t: nat, io: Io, verdict: Verdict)
    requires Inv(hash, s) && t < |s.tasks| && Listed(s)
    ensures Listed(Next(hash, s, Step(t, io, verdict)))
  {
    hide Inv, Next, Touched;
    var r := Next(hash, s, Step(t, io, verdict));
    WhatAStepTouches(hash, s, t, io, verdict);
    if s.tasks[t].phase.Ended? {
      EndedStays(hash, s, t, io, verdict);
    } else {
      if s.tasks[t].kind.Restore? && s.tasks[t].phase.RestoreWrite? {
        WrittenIsTaken(hash, s, t);
      }
      forall id: nat | IsQuarantined(r, id) && Kept(id) in r.disk
        ensures id in r.manifests && r.manifests[id].state.QuarantinedState?
      {
        if Kept(id) !in s.disk {
          StepKept(hash, s, t, io, verdict, id);
        }
      }
    }
  }

  lemma {:induction false} RunLists(hash: Hash, s: State, events: seq<Event>)
    requires Inv(hash, s) && Legal(hash, s, events) && Listed(s)
    ensures Listed(After(hash, s, events))
    decreases |events|
  {
    hide Inv, Next, Enabled, Listed;
    if events != [] {
      var e := events[0];
      if e.Step? {
        assert e.t < |s.tasks| by { StepIsTask(s, e); }
        StepLists(hash, s, e.t, e.io, e.verdict);
      } else {
        OthersList(hash, s, e);
      }
      StepKeeps(hash, s, e);
      RunLists(hash, Next(hash, s, e), events[1..]);
    }
  }

  lemma StepIsTask(s: State, e: Event)
    requires Enabled(s, e) && e.Step?
    ensures e.t < |s.tasks|
  {
  }

  lemma OthersList(hash: Hash, s: State, e: Event)
    requires Enabled(s, e) && !e.Step? && Listed(s)
    ensures Listed(Next(hash, s, e))
  {
    hide SameIdentity;
  }

  // ---------- When placeable, some run does it ----------

  lemma ReadHashAccess(hash: Hash, s: State, u: nat, id: nat, man: Manifest)
    requires u < |s.tasks| && s.tasks[u].kind == Restore(id)
    ensures s.tasks[u].phase == RestoreRead && id in s.manifests && s.manifests[id] == man && man.state.QuarantinedState? ==>
      Next(hash, s, Step(u, Fine, Safe)) == At(s, u, RestoreHash(man))
    ensures s.tasks[u].phase == RestoreHash(man) && Kept(id) in s.disk && IdentityOf(hash, s.disk[Kept(id)]) == man.identity ==>
      Next(hash, s, Step(u, Fine, Safe)) == At(s, u, RestoreAccess(man))
    ensures s.tasks[u].phase == RestoreAccess(man) && man.original !in s.disk ==>
      Next(hash, s, Step(u, Fine, Safe)) == At(s, u, Restoring(man, StartMove(Kept(id), man.original, man.identity)))
  {
    hide At, End, WriteManifest, IdentityOf;
  }

  lemma StartsMove(hash: Hash, s: State, u: nat, man: Manifest, m: Move)
    requires u < |s.tasks| && s.tasks[u].kind.Restore? && s.tasks[u].phase == Restoring(man, m) && m.at.AtStart?
    requires m.src in s.disk && IdentityOf(hash, s.disk[m.src]) == m.identity
    ensures Next(hash, s, Step(u, Fine, Safe)) == At(s, u, Restoring(man, m.(at := AtRename)))
  {
    hide At, IdentityOf, Next;
    RestoringIs(hash, s, u, Fine, Safe);
    var moved := Moving(hash, s, u, m, Fine);
    assert moved == (s, m.(at := AtRename));
  }

  /** A restore whose checks pass gets as far as its rename. */
  lemma RestoreReachesRename(hash: Hash, s: State, u: nat, id: nat, man: Manifest) returns (r: State)
    requires u < |s.tasks| && s.tasks[u] == Task(Restore(id), RestoreRead)
    requires id in s.manifests && s.manifests[id] == man && man.state.QuarantinedState? && man.original !in s.disk
    requires Kept(id) in s.disk && IdentityOf(hash, s.disk[Kept(id)]) == man.identity
    ensures r == At(s, u, Restoring(man, Move(Kept(id), man.original, man.identity, AtRename)))
    ensures Leads(hash, s, [Step(u, Fine, Safe), Step(u, Fine, Safe), Step(u, Fine, Safe), Step(u, Fine, Safe)], r)
  {
    hide Next, Leads, IdentityOf;
    var step := Step(u, Fine, Safe);
    var s1 := At(s, u, RestoreHash(man));
    var s2 := At(s1, u, RestoreAccess(man));
    var s3 := At(s2, u, Restoring(man, StartMove(Kept(id), man.original, man.identity)));
    r := At(s3, u, Restoring(man, Move(Kept(id), man.original, man.identity, AtRename)));
    ReadHashAccess(hash, s, u, id, man);
    ReadHashAccess(hash, s1, u, id, man);
    ReadHashAccess(hash, s2, u, id, man);
    StartsMove(hash, s3, u, man, StartMove(Kept(id), man.original, man.identity));
    assert [step] + [step, step, step] == [step, step, step, step];
    assert [step] + [step, step] == [step, step, step] && [step] + [step] == [step, step];
    LeadsOne(hash, s3, step);
    LeadsOn(hash, s2, step, s3, [step], r);
    LeadsOn(hash, s1, step, s2, [step, step], r);
    LeadsOn(hash, s, step, s1, [step, step, step], r);
    AtAgain(s, u, s3.tasks[u].phase, r.tasks[u].phase);
  }

  lemma AtAgain(s: State, u: nat, one: Phase, two: Phase)
    requires u < |s.tasks|
    ensures At(At(s, u, one), u, two) == At(s, u, two)
  {
  }

  /** The rename of a move that stands at it puts the source's bytes at the destination. */
  lemma RenamePlaces(hash: Hash, s: State, u: nat, id: nat, m: Move)
    requires u < |s.tasks| && s.tasks[u].kind == Restore(id) && s.tasks[u].phase.Restoring? && s.tasks[u].phase.m == m
    requires m.dst.Game? && Places(s.disk, m, u, Fine).Some?
    ensures var r := Next(hash, s, Step(u, Fine, Safe));
      && r.placed == s.placed + [Placement(u, id, m.dst, Places(s.disk, m, u, Fine).value)]
      && |r.tasks| == |s.tasks| && r.tasks[u].kind == Restore(id) && PlacedSince(r, |s.placed|, id)
  {
    hide Moving, MoveNext, Places, Next, At, End;
    MovingIs(hash, s, u, m, Fine);
    RestoringIs(hash, s, u, Fine, Safe);
    assert ByRestore(Next(hash, s, Step(u, Fine, Safe)), |s.placed|, id);
  }

  lemma Freed(hash: Hash, s: State, path: Path, id: nat) returns (s1: State, s2: State)
    requires path.Game?
    ensures Enabled(s, Outside(s.disk - {path})) && s1 == Next(hash, s, Outside(s.disk - {path}))
    ensures Enabled(s1, RestoreRequest(id)) && s2 == Next(hash, s1, RestoreRequest(id))
    ensures s2.disk == s.disk - {path} && s2.manifests == s.manifests && s2.placed == s.placed
    ensures s2.tasks == s.tasks + [Task(Restore(id), RestoreRead)]
  {
    s1 := Next(hash, s, Outside(s.disk - {path}));
    s2 := Next(hash, s1, RestoreRequest(id));
  }

  /** From quarantine: the path is freed, and a new request puts the payload back. */
  lemma RequestPlaces(hash: Hash, s: State, id: nat) returns (rest: seq<Event>)
    requires Inv(hash, s) && Listed(s) && IsQuarantined(s, id) && Kept(id) in s.disk
    ensures Legal(hash, s, rest) && PlacedSince(After(hash, s, rest), |s.placed|, id)
  {
    hide Next, After, Legal, TasksOk, TrustOk, ConsumersOk, ProcessingOk, IdentityOf;
    var man, u := s.manifests[id], |s.tasks|;
    assert FilesOf(s, id) && Restorable(hash, s, id, man);
    hide FilesOk, ManifestsOk, PlacementsOk;
    var free := Outside(s.disk - {man.original});
    var s1, s2 := Freed(hash, s, man.original, id);
    var s3 := RestoreReachesRename(hash, s2, u, id, man);
    var steps := [Step(u, Fine, Safe), Step(u, Fine, Safe), Step(u, Fine, Safe), Step(u, Fine, Safe)];
    RenamePlaces(hash, s3, u, id, s3.tasks[u].phase.m);
    LeadsOne(hash, s3, Step(u, Fine, Safe));
    var r := Next(hash, s3, Step(u, Fine, Safe));
    LeadsThen(hash, s2, steps, s3, [Step(u, Fine, Safe)], r);
    LeadsOn(hash, s1, RestoreRequest(id), s2, steps + [Step(u, Fine, Safe)], r);
    LeadsOn(hash, s, free, s1, [RestoreRequest(id)] + (steps + [Step(u, Fine, Safe)]), r);
    rest := [free] + ([RestoreRequest(id)] + (steps + [Step(u, Fine, Safe)]));
  }

  lemma HashesCopy(hash: Hash, s: State, u: nat, m: Move)
    requires u < |s.tasks| && s.tasks[u].kind.Restore? && s.tasks[u].phase.Restoring? && s.tasks[u].phase.m == m
    requires m.at.AtHashCopy? && m.Temp(u) in s.disk && IdentityOf(hash, s.disk[m.Temp(u)]) == m.identity
    ensures Next(hash, s, Step(u, Fine, Safe)) == At(s, u, Restoring(s.tasks[u].phase.manifest, m.(at := AtRenameCopy)))
  {
    hide At, IdentityOf, Next;
    RestoringIs(hash, s, u, Fine, Safe);
    var moved := Moving(hash, s, u, m, Fine);
    assert moved == (s, m.(at := AtRenameCopy));
  }

  lemma CopyFacts(hash: Hash, s: State, u: nat, id: nat)
    requires Inv(hash, s) && CopyAhead(s, u, id)
    ensures var m := s.tasks[u].phase.m;
      && m.dst.Game? && m.src == Kept(id) && id in s.scans && m.identity == IdentityOf(hash, s.scans[id].bytes)
  {
    hide Inv, InvBut, MoveOk;
    Facts(hash, s, u);
  }

  /** The copy is put there if it is missing, checked, and renamed. */
  lemma CopyPlaces(hash: Hash, s: State, u: nat, id: nat) returns (rest: seq<Event>)
    requires Inv(hash, s) && CopyAhead(s, u, id)
    ensures Legal(hash, s, rest) && PlacedSince(After(hash, s, rest), |s.placed|, id)
  {
    hide Inv, Next, After, Legal, IdentityOf, Places;
    CopyFacts(hash, s, u, id);
    var m := s.tasks[u].phase.m;
    var written := Outside(s.disk[m.Temp(u) := s.scans[id].bytes]);
    var s1 := Written(hash, s, m.Temp(u), s.scans[id].bytes);
    var step := Step(u, Fine, Safe);
    var m2 := m.(at := AtRenameCopy);
    var s2 := if m.at.AtHashCopy? then At(s1, u, Restoring(s.tasks[u].phase.manifest, m2)) else s1;
    TempPlaces(s2.disk, m2, u);
    RenamePlaces(hash, s2, u, id, m2);
    LeadsOne(hash, s2, step);
    var r := Next(hash, s2, step);
    if m.at.AtHashCopy? {
      HashesCopy(hash, s1, u, m);
      LeadsOn(hash, s1, step, s2, [step], r);
      LeadsOn(hash, s, written, s1, [step] + [step], r);
      rest := [written] + ([step] + [step]);
    } else {
      LeadsOn(hash, s, written, s1, [step], r);
      rest := [written] + [step];
    }
  }

  lemma TempPlaces(disk: Disk, m: Move, u: nat)
    requires m.at.AtRenameCopy? && m.Temp(u) in disk
    ensures Places(disk, m, u, Fine).Some?
  {
  }

  lemma Written(hash: Hash, s: State, p: Path, b: Bytes) returns (s1: State)
    requires !p.Private()
    ensures Enabled(s, Outside(s.disk[p := b])) && s1 == Next(hash, s, Outside(s.disk[p := b]))
    ensures s1 == s.(disk := s.disk[p := b], tampered := s1.tampered)
  {
    s1 := Next(hash, s, Outside(s.disk[p := b]));
  }

  // ---------- The theorems ----------

  lemma RunHolds(hash: Hash, before: seq<Event>)
    requires Legal(hash, INITIAL, before)
    ensures Inv(hash, After(hash, INITIAL, before)) && Listed(After(hash, INITIAL, before))
  {
    hide Inv, Legal, After;
    InitialHolds(hash);
    RunKeeps(hash, INITIAL, before);
    RunLists(hash, INITIAL, before);
  }

  /**
   * At any point of any run after a payload was quarantined, a restore can still put it into the game tree, then or later,
   * exactly when it lies in quarantine or a restore of it has its copy made and not yet renamed.
   */
  lemma PlaceableIff(hash: Hash, before: seq<Event>, id: nat)
    requires Legal(hash, INITIAL, before) && IsQuarantined(After(hash, INITIAL, before), id)
    ensures var s := After(hash, INITIAL, before);
      (exists rest :: Legal(hash, s, rest) && PlacedSince(After(hash, s, rest), |s.placed|, id)) <==> StillPlaceable(s, id)
  {
    hide Inv, Listed, IsQuarantined, PlacedSince, CopyAhead;
    RunHolds(hash, before);
    var s := After(hash, INITIAL, before);
    hide Legal, After;
    if StillPlaceable(s, id) {
      if Kept(id) in s.disk {
        var rest := RequestPlaces(hash, s, id);
      } else {
        var u: nat :| CopyAhead(s, u, id);
        var rest := CopyPlaces(hash, s, u, id);
      }
    } else {
      forall rest | Legal(hash, s, rest)
        ensures !PlacedSince(After(hash, s, rest), |s.placed|, id)
      {
        RunBlocks(hash, s, rest, id);
      }
    }
  }

  // ---------- Two placements of one payload ----------

  /** A restore that has put its payload into the game tree. */
  predicate Past(phase: Phase) {
    || phase.Ended? || phase.RestoreWrite?
    || (phase.Restoring? && (phase.m.at.AtUnlink? || phase.m.at.AtCheck? || phase.m.at.AtCleanup?))
  }

  ghost predicate PlacersArePast(s: State) {
    forall i :: 0 <= i < |s.placed| ==>
      var t := s.placed[i].task;
      t < |s.tasks| && (s.tasks[t].kind.Restore? ==> Past(s.tasks[t].phase))
  }

  lemma StaysPast(hash: Hash, s: State, t: nat, io: Io, verdict: Verdict)
    requires t < |s.tasks| && s.tasks[t].kind.Restore?
    requires Past(s.tasks[t].phase) ||
      (s.tasks[t].phase.Restoring? && Places(s.disk, s.tasks[t].phase.m, t, io).Some?)
    ensures var r := Next(hash, s, Step(t, io, verdict));
      t < |r.tasks| && Past(r.tasks[t].phase)
  {
    hide WriteManifest, Read, SameIdentity, Absent;
    if s.tasks[t].phase.Restoring? {
      RestoringIs(hash, s, t, io, verdict);
      MovingIs(hash, s, t, s.tasks[t].phase.m, io);
      hide Next, At, End, Moving;
    }
  }

  lemma StepArePast(hash: Hash, s: State, t: nat, io: Io, verdict: Verdict)
    requires t < |s.tasks| && PlacersArePast(s)
    ensures PlacersArePast(Next(hash, s, Step(t, io, verdict)))
  {
    hide Next, Past, Moving, At, Places;
    var r := Next(hash, s, Step(t, io, verdict));
    WhatAStepTouches(hash, s, t, io, verdict);
    StepPlaces(hash, s, t, io, verdict);
    var current := CurrentMove(s.tasks[t].phase);
    if current.Some? && FitsKind(s.tasks[t]) {
      MovingIs(hash, s, t, current.value, io);
    }
    forall i | 0 <= i < |r.placed| && r.tasks[r.placed[i].task].kind.Restore?
      ensures Past(r.tasks[r.placed[i].task].phase)
    {
      if r.placed[i].task == t {
        StaysPast(hash, s, t, io, verdict);
      }
    }
  }

  lemma {:induction false} RunArePast(hash: Hash, s: State, events: seq<Event>)
    requires Legal(hash, s, events) && PlacersArePast(s)
    ensures PlacersArePast(After(hash, s, events))
    decreases |events|
  {
    hide Next, Enabled, PlacersArePast;
    if events != [] {
      var e := events[0];
      if e.Step? {
        assert e.t < |s.tasks| by { StepIsTask(s, e); }
        StepArePast(hash, s, e.t, e.io, e.verdict);
      } else {
        OthersArePast(hash, s, e);
      }
      RunArePast(hash, Next(hash, s, e), events[1..]);
    }
  }

  lemma OthersArePast(hash: Hash, s: State, e: Event)
    requires Enabled(s, e) && !e.Step? && PlacersArePast(s)
    ensures PlacersArePast(Next(hash, s, e))
  {
    hide SameIdentity, Past;
  }

  /** The restore has put its payload into the game tree, and its unlink is still to come, or has failed. */
  predicate UnlinkPendingOrFailed(phase: Phase) {
    (phase.Restoring? && (phase.m.at.AtUnlink? || phase.m.at.AtCleanup?)) || phase == Ended(NotRestored)
  }

  lemma KeptSoNotUnlinked(hash: Hash, s: State, t: nat, id: nat)
    requires Inv(hash, s) && t < |s.tasks| && s.tasks[t].kind == Restore(id) && Past(s.tasks[t].phase) && Kept(id) in s.disk
    ensures UnlinkPendingOrFailed(s.tasks[t].phase)
  {
    hide InvBut, FilesOf, MoveOk, WasScanned, TasksOk, FilesOk, PlacementsOk, TrustOk, ManifestsOk, ProcessingOk;
    hide Owner;
    Facts(hash, s, t);
  }

  /**
   * When restores put one payload into the game tree twice, then at every point between the two placements another restore
   * is past its copy, or quarantine still has the payload because the first restore has not unlinked it or failed to.
   */
  lemma PlacedTwice(hash: Hash, before: seq<Event>, rest: seq<Event>, id: nat, i: nat, j: nat)
    requires Legal(hash, INITIAL, before) && Legal(hash, After(hash, INITIAL, before), rest)
    requires var s := After(hash, INITIAL, before);
      ByRestore(s, i, id) && |s.placed| <= j && ByRestore(After(hash, s, rest), j, id)
    ensures var s := After(hash, INITIAL, before);
      var t := s.placed[i].task;
      || (exists u: nat :: u != t && CopyAhead(s, u, id))
      || (Kept(id) in s.disk && UnlinkPendingOrFailed(s.tasks[t].phase))
  {
    RunHolds(hash, before);
    RunArePast(hash, INITIAL, before);
    var s := After(hash, INITIAL, before);
    hide Legal, After, Inv;
    var t := s.placed[i].task;
    assert PlacementOk(s, s.placed[i]) by { PlacementHolds(hash, s, i); }
    assert PlacedSince(After(hash, s, rest), |s.placed|, id);
    if !StillPlaceable(s, id) {
      RunBlocks(hash, s, rest, id);
    } else if Kept(id) in s.disk {
      KeptSoNotUnlinked(hash, s, t, id);
    }
  }

  lemma PlacementHolds(hash: Hash, s: State, i: nat)
    requires Inv(hash, s) && i < |s.placed|
    ensures PlacementOk(s, s.placed[i])
  {
  }
}
