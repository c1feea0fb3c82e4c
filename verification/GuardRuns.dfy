/** Concrete runs of the guard in which bytes are lost, or a payload is put back twice, from the first event on. */
module GuardRuns {
  import opened Prelude
  import opened GuardProtocol
  import opened GuardSafety
  import opened GuardEffects
  import opened GuardRestores
  import opened GuardStretches

  // ---------- Runs from the start ----------

  const GAME: Path := Game(0)

  /** The rest of the system puts a file at the game path. */
  lemma Supplied(hash: Hash, s: State, b: Bytes) returns (r: State)
    ensures Leads(hash, s, [Outside(s.disk[GAME := b])], r)
    ensures r == s.(disk := s.disk[GAME := b])
  {
    r := s.(disk := s.disk[GAME := b]);
    assert Next(hash, s, Outside(r.disk)) == r;
    hide Next;
    LeadsOne(hash, s, Outside(r.disk));
  }

  /** The first file is held. */
  lemma HeldFile(hash: Hash, a: Bytes) returns (run: seq<Event>, r: State)
    ensures Leads(hash, INITIAL, run, r)
    ensures r == INITIAL.(disk := map[Held(0) := a], tasks := [Task(Process(GAME), Scanning(IdentityOf(hash, a)))],
      processing := r.processing, confirmed := r.confirmed, consumer := r.consumer)
  {
    hide Leads, IdentityOf;
    var s1 := Supplied(hash, INITIAL, a);
    run, r := HoldRun(hash, s1, GAME);
    LeadsThen(hash, INITIAL, [Outside(INITIAL.disk[GAME := a])], s1, run, r);
    run := [Outside(INITIAL.disk[GAME := a])] + run;
    assert Renamed(s1.disk, GAME, Held(0)) == map[Held(0) := a];
  }

  function Record(hash: Hash, a: Bytes): Manifest {
    Manifest(QuarantinedState, GAME, IdentityOf(hash, a))
  }

  /** The first file is in quarantine. */
  lemma QuarantinedFile(hash: Hash, a: Bytes) returns (run: seq<Event>, r: State)
    ensures Leads(hash, INITIAL, run, r)
    ensures r == INITIAL.(disk := map[Kept(0) := a], tasks := [Task(Process(GAME), Ended(Quarantined))],
      manifests := map[0 := Record(hash, a)], processing := r.processing, confirmed := r.confirmed, consumer := r.consumer,
      scans := r.scans)
    ensures GAME !in r.processing
  {
    hide Leads, IdentityOf;
    var s1: State;
    run, s1 := HeldFile(hash, a);
    var condemned, s2 := CondemnRun(hash, s1, 0, GAME, Malicious);
    var more: seq<Event>;
    more, r := QuarantineRun(hash, s2, 0, Held(0), false);
    LeadsThen(hash, s1, condemned, s2, more, r);
    LeadsThen(hash, INITIAL, run, s1, condemned + more, r);
    run := run + (condemned + more);
    assert Renamed(s1.disk, Held(0), Kept(0)) == map[Kept(0) := a];
  }

  /** A restore of the quarantined file is asked for, and comes to its rename. */
  lemma RestoreAsked(hash: Hash, s: State, a: Bytes) returns (run: seq<Event>, r: State)
    requires 0 in s.manifests && s.manifests[0] == Record(hash, a) && GAME !in s.disk && Kept(0) in s.disk && s.disk[Kept(0)] == a
    ensures Leads(hash, s, run, r)
    ensures r == s.(tasks := s.tasks + [Task(Restore(0), Restoring(Record(hash, a),
      Move(Kept(0), GAME, IdentityOf(hash, a), AtRename)))])
  {
    hide Leads, IdentityOf, At;
    var u := |s.tasks|;
    var s1 := s.(tasks := s.tasks + [Task(Restore(0), RestoreRead)]);
    assert Next(hash, s, RestoreRequest(0)) == s1;
    hide Next;
    r := RestoreReachesRename(hash, s1, u, 0, Record(hash, a));
    AtIs(s1, u);
    var steps := [Step(u, Fine, Safe), Step(u, Fine, Safe), Step(u, Fine, Safe), Step(u, Fine, Safe)];
    LeadsOn(hash, s, RestoreRequest(0), s1, steps, r);
    run := [RestoreRequest(0)] + steps;
  }

  /** A second file `b` of the same path, called safe, stands at the rename that puts it back. */
  lemma SecondFile(hash: Hash, s: State, b: Bytes) returns (run: seq<Event>, r: State)
    requires GAME !in s.disk && GAME !in s.processing && GAME !in s.trusted && Held(|s.tasks|) !in s.disk
    ensures Leads(hash, s, run, r)
    ensures var t := |s.tasks|;
      r == s.(disk := s.disk[Held(t) := b], processing := r.processing, confirmed := r.confirmed, consumer := r.consumer,
        scans := r.scans,
        tasks := s.tasks + [Task(Process(GAME), Releasing(Move(Held(t), GAME, IdentityOf(hash, b), AtRename)))])
  {
    hide Leads, IdentityOf;
    var t := |s.tasks|;
    var s1 := Supplied(hash, s, b);
    var held, s2 := HoldRun(hash, s1, GAME);
    assert Renamed(s1.disk, GAME, Held(t)) == s.disk[Held(t) := b];
    var released: seq<Event>;
    released, r := ReleaseRun(hash, s2, t, GAME, IdentityOf(hash, b));
    LeadsThen(hash, s1, held, s2, released, r);
    LeadsThen(hash, s, [Outside(s.disk[GAME := b])], s1, held + released, r);
    run := [Outside(s.disk[GAME := b])] + (held + released);
  }

  lemma BothRename(hash: Hash, s: State, a: Bytes, b: Bytes) returns (s1: State, r: State)
    requires s.disk == map[Kept(0) := a, Held(1) := b] && |s.tasks| == 3 && s.placed == []
    requires s.tasks[1] == Task(Process(GAME), Releasing(Move(Held(1), GAME, IdentityOf(hash, b), AtRename)))
    requires s.tasks[2] == Task(Restore(0), Restoring(Record(hash, a), Move(Kept(0), GAME, IdentityOf(hash, a), AtRename)))
    ensures s1 == Next(hash, s, Step(2, Fine, Safe)) && |s1.tasks| == 3 && r == Next(hash, s1, Step(1, Fine, Safe))
    ensures r.disk == map[GAME := b] && r.tampered == s.tampered
    ensures r.placed == [Placement(2, 0, GAME, a), Placement(1, 1, GAME, b)]
  {
    hide IdentityOf, Next, Renamed;
    OnePathLeft(a, b);
    s1 := RenamesOnto(hash, s, 2, s.tasks[2].phase.m);
    r := RenamesOnto(hash, s1, 1, s.tasks[1].phase.m);
  }

  lemma OnePathLeft(a: Bytes, b: Bytes)
    ensures var restored := Renamed(map[Kept(0) := a, Held(1) := b], Kept(0), GAME);
      Held(1) in restored && restored[Held(1)] == b && Renamed(restored, Held(1), GAME) == map[GAME := b]
  {
    assert Renamed(map[Kept(0) := a, Held(1) := b], Kept(0), GAME) == map[Held(1) := b, GAME := a];
  }

  lemma RenamedIs(disk: Disk, src: Path)
    requires src in disk
    ensures Renamed(disk, src, GAME) == (disk - {src})[GAME := disk[src]]
  {
  }

  /** A rename onto the game path, within one volume. */
  lemma RenamesOnto(hash: Hash, s: State, t: nat, m: Move) returns (r: State)
    requires t < |s.tasks| && CurrentMove(s.tasks[t].phase) == Some(m) && FitsKind(s.tasks[t]) && m.at.AtRename?
    requires m.src in s.disk && m.dst == GAME
    ensures r == Next(hash, s, Step(t, Fine, Safe))
    ensures r == s.(disk := Renamed(s.disk, m.src, GAME), consumer := r.consumer, confirmed := r.confirmed,
      tasks := s.tasks[t := Task(s.tasks[t].kind, WithMove(s.tasks[t].phase, m.(at := AtCheck)))],
      placed := s.placed + [Placement(t, Payload(s, t), GAME, s.disk[m.src])])
  {
    hide Next, FitsKind, Renamed;
    MoveSteps(hash, s, t, m, Fine);
    r := Next(hash, s, Step(t, Fine, Safe));
  }

  /**
   * A restore and a release race for one path: both find it free, the restore puts its payload there, and the release
   * overwrites it. Nobody touched the guard's files and no operation failed, yet the restored bytes are nowhere.
   */
  lemma RestoredIsOverwritten(hash: Hash, a: Bytes, b: Bytes) returns (run: seq<Event>)
    requires a != b
    ensures Legal(hash, INITIAL, run)
    ensures var r := After(hash, INITIAL, run);
      !r.tampered && r.disk == map[GAME := b] && r.placed == [Placement(2, 0, GAME, a), Placement(1, 1, GAME, b)]
  {
    hide IdentityOf, Next, Legal, After;
    var run1, s1 := QuarantinedFile(hash, a);
    var run2, s2 := SecondFile(hash, s1, b);
    var run3, s3 := RestoreAsked(hash, s2, a);
    var s4, r := BothRename(hash, s3, a, b);
    LeadsOne(hash, s3, Step(2, Fine, Safe));
    LeadsOne(hash, s4, Step(1, Fine, Safe));
    LeadsThen(hash, s3, [Step(2, Fine, Safe)], s4, [Step(1, Fine, Safe)], r);
    LeadsThen(hash, s2, run3, s3, [Step(2, Fine, Safe)] + [Step(1, Fine, Safe)], r);
    LeadsThen(hash, s1, run2, s2, run3 + ([Step(2, Fine, Safe)] + [Step(1, Fine, Safe)]), r);
    run := run1 + (run2 + (run3 + ([Step(2, Fine, Safe)] + [Step(1, Fine, Safe)])));
    LeadsThen(hash, INITIAL, run1, s1, run2 + (run3 + ([Step(2, Fine, Safe)] + [Step(1, Fine, Safe)])), r);
  }

  // ---------- Cross-volume runs ----------

  /**
   * A copy that is altered after it was checked and before it is renamed: the release puts the alteration in place and
   * unlinks the held file, so the bytes that were scanned are nowhere.
   */
  lemma TamperedCopyLosesPayload(hash: Hash, a: Bytes, c: Bytes) returns (run: seq<Event>)
    requires a != c
    ensures Legal(hash, INITIAL, run) && After(hash, INITIAL, run).disk == map[GAME := c]
  {
    hide IdentityOf, Next, Legal, After;
    var run1, s1 := HeldFile(hash, a);
    var run2, s2 := ReleaseRun(hash, s1, 0, GAME, IdentityOf(hash, a));
    var m := s2.tasks[0].phase.m;
    var run3, s3 := CopyRun(hash, s2, 0, m);
    var s4 := Altered(hash, s3, m.Temp(0), c);
    assert s4.disk == map[Held(0) := a, m.Temp(0) := c];
    var step, alter := [Step(0, Fine, Safe)], [Outside(s3.disk[m.Temp(0) := c])];
    var r := AlteredIsPlaced(hash, s4, a, c, m.(at := AtRenameCopy));
    LeadsThen(hash, s3, alter, s4, step + step, r);
    LeadsThen(hash, s2, run3, s3, alter + (step + step), r);
    LeadsThen(hash, s1, run2, s2, run3 + (alter + (step + step)), r);
    run := run1 + (run2 + (run3 + (alter + (step + step))));
    LeadsThen(hash, INITIAL, run1, s1, run2 + (run3 + (alter + (step + step))), r);
  }

  lemma AlteredIsPlaced(hash: Hash, s: State, a: Bytes, c: Bytes, m: Move) returns (r: State)
    requires |s.tasks| == 1 && s.tasks[0] == Task(Process(GAME), Releasing(m)) && m.at.AtRenameCopy?
    requires m.src == Held(0) && m.dst == GAME && s.disk == map[Held(0) := a, Partial(GAME, 0) := c]
    ensures Leads(hash, s, [Step(0, Fine, Safe)] + [Step(0, Fine, Safe)], r) && r.disk == map[GAME := c]
  {
    hide Next, Leads, Renamed;
    var step := [Step(0, Fine, Safe)];
    var s1 := RenameCopy(hash, s, 0, m);
    assert s1.disk == map[Held(0) := a, GAME := c] by { RenamedIs(s.disk, Partial(GAME, 0)); }
    r := UnlinkSource(hash, s1, 0, m.(at := AtUnlink));
    assert r.disk == map[GAME := c];
    LeadsThen(hash, s, step, s1, step, r);
  }

  lemma Altered(hash: Hash, s: State, p: Path, c: Bytes) returns (r: State)
    requires !p.Private()
    ensures Leads(hash, s, [Outside(s.disk[p := c])], r) && r == s.(disk := s.disk[p := c], tampered := r.tampered)
  {
    r := Written(hash, s, p, c);
    hide Next;
    LeadsOne(hash, s, Outside(s.disk[p := c]));
  }

  // ---------- A payload put back twice ----------

  /** A restore that has just renamed its copy unlinks the payload and succeeds. */
  lemma RestoreSucceeds(hash: Hash, s: State, t: nat, a: Bytes) returns (run: seq<Event>, r: State)
    requires t < |s.tasks| && s.tasks[t] == Task(Restore(0), Restoring(Record(hash, a),
      Move(Kept(0), GAME, IdentityOf(hash, a), AtUnlink)))
    requires Kept(0) in s.disk && GAME in s.disk && s.disk[GAME] == a
    ensures Leads(hash, s, run, r)
    ensures r == s.(disk := s.disk - {Kept(0)}, consumer := r.consumer, confirmed := r.confirmed,
      manifests := s.manifests[0 := Record(hash, a).(state := RestoredState)],
      tasks := s.tasks[t := Task(Restore(0), Ended(Restored))])
  {
    hide Next, Leads, IdentityOf, At;
    var m := s.tasks[t].phase.m;
    var s1 := UnlinkSource(hash, s, t, m);
    CheckSteps(hash, s1, t, m.(at := AtCheck));
    var s2 := Done(hash, s1, t, Fine, Safe);
    r := RestoreWritten(hash, s2, t, Record(hash, a));
    run := Steps(hash, t, [s, s1, s2, r]);
  }

  lemma RestoreWritten(hash: Hash, s: State, t: nat, man: Manifest) returns (r: State)
    requires t < |s.tasks| && s.tasks[t] == Task(Restore(0), RestoreWrite(man))
    ensures r == Done(hash, s, t, Fine, Safe)
    ensures r == s.(manifests := s.manifests[0 := man.(state := RestoredState)],
      tasks := s.tasks[t := Task(Restore(0), Ended(Restored))])
  {
    r := Done(hash, s, t, Fine, Safe);
  }

  /** A requested restore across volumes comes to the rename of its copy. */
  lemma CopyAsked(hash: Hash, s: State, a: Bytes) returns (run: seq<Event>, r: State)
    requires 0 in s.manifests && s.manifests[0] == Record(hash, a) && GAME !in s.disk && Kept(0) in s.disk && s.disk[Kept(0)] == a
    requires Partial(GAME, |s.tasks|) !in s.disk
    ensures Leads(hash, s, run, r)
    ensures r == s.(disk := s.disk[Partial(GAME, |s.tasks|) := a], consumer := r.consumer, confirmed := r.confirmed,
      tasks := s.tasks + [Task(Restore(0), Restoring(Record(hash, a), Move(Kept(0), GAME, IdentityOf(hash, a), AtRenameCopy)))])
  {
    hide Leads, IdentityOf;
    var u := |s.tasks|;
    var run1, s1 := RestoreAsked(hash, s, a);
    var run2: seq<Event>;
    run2, r := CopyRun(hash, s1, u, s1.tasks[u].phase.m);
    LeadsThen(hash, s, run1, s1, run2, r);
    run := run1 + run2;
  }

  /**
   * Two restores of one payload race across volumes: both have their copy when the first puts its own into place and
   * succeeds; the second then does the same again.
   */
  lemma RacingRestoresPlaceTwice(hash: Hash, a: Bytes) returns (run: seq<Event>)
    ensures Legal(hash, INITIAL, run)
    ensures var r := After(hash, INITIAL, run);
      && !r.tampered && r.placed == [Placement(1, 0, GAME, a), Placement(2, 0, GAME, a)]
      && |r.tasks| == 3 && r.tasks[1] == Task(Restore(0), Ended(Restored)) && r.tasks[2].kind == Restore(0)
  {
    hide IdentityOf, Next, Legal, After, Renamed;
    var run1, s1 := QuarantinedFile(hash, a);
    var run2, s2 := CopyAsked(hash, s1, a);
    var run3, s3 := CopyAsked(hash, s2, a);
    var m := s3.tasks[1].phase.m;
    var one, two := [Step(1, Fine, Safe)], [Step(2, Fine, Safe)];
    var s4 := RenameCopy(hash, s3, 1, m);
    RenamedIs(s3.disk, Partial(GAME, 1));
    var run5, s5 := RestoreSucceeds(hash, s4, 1, a);
    var r := RenameCopy(hash, s5, 2, m);
    LeadsThen(hash, s4, run5, s5, two, r);
    LeadsThen(hash, s3, one, s4, run5 + two, r);
    LeadsThen(hash, s2, run3, s3, one + (run5 + two), r);
    LeadsThen(hash, s1, run2, s2, run3 + (one + (run5 + two)), r);
    run := run1 + (run2 + (run3 + (one + (run5 + two))));
    LeadsThen(hash, INITIAL, run1, s1, run2 + (run3 + (one + (run5 + two))), r);
  }

  /** The unlink that ends a cross-volume restore fails, and so the restore does, with its payload in both places. */
  lemma UnlinkFails(hash: Hash, s: State, t: nat, man: Manifest, m: Move) returns (run: seq<Event>, r: State)
    requires t < |s.tasks| && s.tasks[t] == Task(Restore(0), Restoring(man, m)) && m.at.AtUnlink?
    requires m.src in s.disk && m.Temp(t) !in s.disk
    ensures Leads(hash, s, run, r)
    ensures r == s.(consumer := r.consumer, confirmed := r.confirmed, tasks := s.tasks[t := Task(Restore(0), Ended(NotRestored))])
  {
    hide Next, Leads, At;
    var failing := Step(t, Fault(None), Safe);
    MoveSteps(hash, s, t, m, Fault(None));
    var s1 := Next(hash, s, failing);
    LeadsOne(hash, s, failing);
    var m1 := m.(at := AtCleanup(false));
    assert s1.tasks[t] == Task(Restore(0), Restoring(man, m1)) && s1.disk == s.disk;
    r := CleansUp(hash, s1, t, man, m1);
    LeadsThen(hash, s, [failing], s1, [Step(t, Fine, Safe)], r);
    run := [failing] + [Step(t, Fine, Safe)];
  }

  lemma CleansUp(hash: Hash, s: State, t: nat, man: Manifest, m: Move) returns (r: State)
    requires t < |s.tasks| && s.tasks[t] == Task(Restore(0), Restoring(man, m)) && m.at == AtCleanup(false)
    requires m.Temp(t) !in s.disk
    ensures Leads(hash, s, [Step(t, Fine, Safe)], r)
    ensures r == s.(consumer := r.consumer, confirmed := r.confirmed, tasks := s.tasks[t := Task(Restore(0), Ended(NotRestored))])
  {
    hide Next, Leads;
    RestoringIs(hash, s, t, Fine, Safe);
    var moved := Moving(hash, s, t, m, Fine);
    assert s.disk - {m.Temp(t)} == s.disk;
    assert moved.1.at.AtFailed? && moved.0 == s.(consumer := moved.0.consumer, confirmed := moved.0.confirmed);
    r := Next(hash, s, Step(t, Fine, Safe));
    LeadsOne(hash, s, Step(t, Fine, Safe));
  }

  /** The restored file is taken away again by the rest of the system. */
  lemma Removed(hash: Hash, s: State) returns (r: State)
    requires GAME in s.disk
    ensures Leads(hash, s, [Outside(s.disk - {GAME})], r) && r == s.(disk := s.disk - {GAME})
  {
    r := s.(disk := s.disk - {GAME});
    assert Next(hash, s, Outside(r.disk)) == r;
    hide Next;
    LeadsOne(hash, s, Outside(r.disk));
  }

  lemma FailedRestore(hash: Hash, a: Bytes) returns (run: seq<Event>, r: State)
    ensures Leads(hash, INITIAL, run, r)
    ensures !r.tampered && r.disk == map[Kept(0) := a, GAME := a] && r.manifests == map[0 := Record(hash, a)]
    ensures r.placed == [Placement(1, 0, GAME, a)]
    ensures |r.tasks| == 2 && r.tasks[1] == Task(Restore(0), Ended(NotRestored))
  {
    hide IdentityOf, Next, Leads, Renamed;
    var run1, s1 := QuarantinedFile(hash, a);
    var run2, s2 := CopyAsked(hash, s1, a);
    var m := s2.tasks[1].phase.m;
    var one := [Step(1, Fine, Safe)];
    var s3 := RenameCopy(hash, s2, 1, m);
    assert s3.disk == map[Kept(0) := a, GAME := a] by { RenamedIs(s2.disk, Partial(GAME, 1)); }
    var run4: seq<Event>;
    run4, r := UnlinkFails(hash, s3, 1, Record(hash, a), m.(at := AtUnlink));
    LeadsThen(hash, s2, one, s3, run4, r);
    LeadsThen(hash, s1, run2, s2, one + run4, r);
    run := run1 + (run2 + (one + run4));
    LeadsThen(hash, INITIAL, run1, s1, run2 + (one + run4), r);
  }

  /** A restore whose last unlink fails has put its payload back all the same, and a later request does it again. */
  lemma FailedUnlinkPlacesTwice(hash: Hash, a: Bytes) returns (run: seq<Event>)
    ensures Legal(hash, INITIAL, run)
    ensures var r := After(hash, INITIAL, run);
      && !r.tampered && r.placed == [Placement(1, 0, GAME, a), Placement(2, 0, GAME, a)]
      && |r.tasks| == 3 && r.tasks[1] == Task(Restore(0), Ended(NotRestored)) && r.tasks[2].kind == Restore(0)
  {
    hide IdentityOf, Next, Legal, After, Renamed;
    var run1, s1 := FailedRestore(hash, a);
    var s2 := Removed(hash, s1);
    var run3, s3 := RestoreAsked(hash, s2, a);
    var r := RenamesOnto(hash, s3, 2, s3.tasks[2].phase.m);
    var two, gone := [Step(2, Fine, Safe)], [Outside(s1.disk - {GAME})];
    LeadsOne(hash, s3, two[0]);
    LeadsThen(hash, s2, run3, s3, two, r);
    LeadsThen(hash, s1, gone, s2, run3 + two, r);
    run := run1 + (gone + (run3 + two));
    LeadsThen(hash, INITIAL, run1, s1, gone + (run3 + two), r);
  }

  // ---------- A lost update ----------

  /**
   * A cross-volume hold whose source is rewritten between the copy and the unlink: the rewritten contents `b` are taken from
   * the game tree and then exist nowhere.
   */
  lemma LostUpdate(hash: Hash, a: Bytes, b: Bytes) returns (run: seq<Event>)
    requires a != b
    ensures Legal(hash, INITIAL, run)
    ensures !After(hash, INITIAL, run).tampered && After(hash, INITIAL, run).disk == map[Held(0) := a]
  {
    hide IdentityOf, Next, Legal, After, Renamed;
    var s1 := Supplied(hash, INITIAL, a);
    var run2, s2 := StageRun(hash, s1, GAME);
    var m := s2.tasks[0].phase.m;
    var run3, s3 := CopyRun(hash, s2, 0, m);
    var s4 := RenameCopy(hash, s3, 0, m.(at := AtRenameCopy));
    assert s4.disk == map[GAME := a, Held(0) := a] by { HeldCopy(s3.disk, a); }
    var s5 := Supplied(hash, s4, b);
    var r := UnlinkSource(hash, s5, 0, m.(at := AtUnlink));
    assert r.disk == map[Held(0) := a];
    var step, rewrite := [Step(0, Fine, Safe)], [Outside(s4.disk[GAME := b])];
    LeadsThen(hash, s4, rewrite, s5, step, r);
    LeadsThen(hash, s3, step, s4, rewrite + step, r);
    LeadsThen(hash, s2, run3, s3, step + (rewrite + step), r);
    LeadsThen(hash, s1, run2, s2, run3 + (step + (rewrite + step)), r);
    run := [Outside(INITIAL.disk[GAME := a])] + (run2 + (run3 + (step + (rewrite + step))));
    LeadsThen(hash, INITIAL, [Outside(INITIAL.disk[GAME := a])], s1, run2 + (run3 + (step + (rewrite + step))), r);
  }

  lemma HeldCopy(disk: Disk, a: Bytes)
    requires disk == map[GAME := a, Partial(Held(0), 0) := a]
    ensures Renamed(disk, Partial(Held(0), 0), Held(0)) == map[GAME := a, Held(0) := a]
  {
  }
}
