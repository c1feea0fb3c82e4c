/** Bytes on the disk: when what the guard takes out of the game tree, or puts back into it, still exists afterwards. */
module GuardConservation {
  import opened Prelude
  import opened GuardProtocol
  import opened GuardSafety
  import opened GuardEffects

  /** `b` lies in one of the private files of payload `id`. */
  ghost predicate InOwnFiles(s: State, id: nat, b: Bytes) {
    exists q: Path :: PlaceOf(q, id) && q in s.disk && s.disk[q] == b
  }

  predicate Holds(s: State, p: Path, b: Bytes) {
    p in s.disk && s.disk[p] == b
  }

  /** `b` lies at the game path itself, or in a hold, staging or quarantine file of some payload of this path. */
  ghost predicate OnDisk(s: State, path: Path, b: Bytes) {
    Holds(s, path, b) || exists id: nat :: Owner(s, id, path) && InOwnFiles(s, id, b)
  }

  // ---------- One step ----------

  /**
   * What a caller can check before a step: it does not rename onto an occupied game path, and does not unlink a source
   * that differs from the copy at the destination.
   */
  predicate Careful(s: State, t: nat, io: Io)
    requires t < |s.tasks|
  {
    match CurrentMove(s.tasks[t].phase)
    case None => true
    case Some(m) =>
      && (m.dst.Game? && m.dst in s.disk ==> Places(s.disk, m, t, io).None?)
      && (m.at.AtUnlink? && m.src in s.disk ==> Holds(s, m.dst, s.disk[m.src]))
  }

  /** The move of a task that changes the file `p`; nothing else but the start of an install touches the disk. */
  lemma ChangedByMove(hash: Hash, s: State, t: nat, io: Io, verdict: Verdict, p: Path) returns (m: Move)
    requires Inv(hash, s) && t < |s.tasks| && p in s.disk && !p.Partial?
    requires !Holds(Next(hash, s, Step(t, io, verdict)), p, s.disk[p])
    ensures CurrentMove(s.tasks[t].phase) == Some(m) && MoveShape(s, t, m)
    ensures Next(hash, s, Step(t, io, verdict)).disk == MoveNext(hash, s.disk, m, t, io).0
    ensures p == m.src || p == m.dst
    ensures p == m.src ==> m.at.AtUnlink? || (m.at.AtRename? && Places(s.disk, m, t, io) == Some(s.disk[p]))
    ensures p == m.dst ==> m.dst.Game? && Places(s.disk, m, t, io).Some?
  {
    hide Inv, InvBut, Next, Moving, MoveNext, Places, FilesOf;
    WhatAStepTouches(hash, s, t, io, verdict);
    m := CurrentMove(s.tasks[t].phase).value;
    MovesAreShaped(hash, s, t);
    MovingIs(hash, s, t, m, io);
    MoveEffect(hash, s.disk, m, t, io);
    Facts(hash, s, t);
  }

  lemma StepOwners(hash: Hash, s: State, t: nat, io: Io, verdict: Verdict, id: nat, path: Path)
    requires t < |s.tasks|
    ensures Owner(Next(hash, s, Step(t, io, verdict)), id, path) == Owner(s, id, path)
  {
    hide Next, Touched;
    WhatAStepTouches(hash, s, t, io, verdict);
  }

  /** Where a move takes the bytes of its source: the other end, which belongs to the same path. */
  lemma OtherEnd(hash: Hash, s: State, t: nat, io: Io, m: Move, path: Path, w: Path, id: nat)
    requires t < |s.tasks| && MoveShape(s, t, m) && w == m.src
    requires w == path || (Owner(s, id, path) && PlaceOf(w, id))
    ensures m.dst == path || (PlaceOf(m.dst, t) && Owner(s, t, path)) || !path.Game?
  {
    hide MoveOk;
  }

  /** A careful step keeps all bytes of every path. */
  lemma StepConserves(hash: Hash, s: State, t: nat, io: Io, verdict: Verdict, path: Path, b: Bytes)
    requires Inv(hash, s) && t < |s.tasks| && Careful(s, t, io) && path.Game? && OnDisk(s, path, b)
    ensures OnDisk(Next(hash, s, Step(t, io, verdict)), path, b)
  {
    hide Inv, Next, MoveNext, Places, MoveShape, Owner;
    var r := Next(hash, s, Step(t, io, verdict));
    var id: nat, w: Path;
    if Holds(s, path, b) {
      id, w := 0, path;
    } else {
      id :| Owner(s, id, path) && InOwnFiles(s, id, b);
      w :| PlaceOf(w, id) && w in s.disk && s.disk[w] == b;
    }
    StepOwners(hash, s, t, io, verdict, id, path);
    StepOwners(hash, s, t, io, verdict, t, path);
    if !Holds(r, w, b) {
      var m := ChangedByMove(hash, s, t, io, verdict, w);
      assert w == m.src;
      OtherEnd(hash, s, t, io, m, path, w, id);
      Arrives(hash, s, t, io, m, b);
      assert Holds(r, m.dst, b);
    }
  }

  lemma Arrives(hash: Hash, s: State, t: nat, io: Io, m: Move, b: Bytes)
    requires t < |s.tasks| && MoveShape(s, t, m)
    requires Places(s.disk, m, t, io) == Some(b) || (Places(s.disk, m, t, io).None? && Holds(s, m.dst, b)) ||
      (m.at.AtUnlink? && Holds(s, m.dst, b))
    ensures var r := MoveNext(hash, s.disk, m, t, io).0;
      m.dst in r && r[m.dst] == b
  {
    hide MoveNext, MoveOk;
    MoveEffect(hash, s.disk, m, t, io);
  }

  // ---------- Whole runs ----------

  /** The rest of the system leaves the file at `path` alone, and the guard's step is careful. */
  predicate Considerate(s: State, e: Event, path: Path)
    requires Enabled(s, e)
  {
    match e
    case Outside(disk) => path in s.disk ==> path in disk && disk[path] == s.disk[path]
    case Step(t, io, _) => Careful(s, t, io)
    case _ => true
  }

  predicate ConsiderateRun(hash: Hash, s: State, events: seq<Event>, path: Path)
    requires Legal(hash, s, events)
    decreases |events|
  {
    events == [] || (Considerate(s, events[0], path) && ConsiderateRun(hash, Next(hash, s, events[0]), events[1..], path))
  }

  lemma OutsideConserves(hash: Hash, s: State, e: Event, path: Path, b: Bytes)
    requires !e.Step? && Enabled(s, e) && Considerate(s, e, path) && OnDisk(s, path, b)
    ensures OnDisk(Next(hash, s, e), path, b)
  {
    hide SameIdentity;
    var r := Next(hash, s, e);
    if !Holds(s, path, b) {
      var id: nat :| Owner(s, id, path) && InOwnFiles(s, id, b);
      var w: Path :| PlaceOf(w, id) && w in s.disk && s.disk[w] == b;
      assert Owner(r, id, path) && w in r.disk && r.disk[w] == b;
    }
  }

  lemma {:induction false} RunConserves(hash: Hash, s: State, events: seq<Event>, path: Path, b: Bytes)
    requires Inv(hash, s) && Legal(hash, s, events) && ConsiderateRun(hash, s, events, path)
    requires path.Game? && OnDisk(s, path, b)
    ensures OnDisk(After(hash, s, events), path, b)
    decreases |events|
  {
    hide Inv, Next, Enabled, OnDisk, Careful;
    if events != [] {
      var e := events[0];
      if e.Step? {
        assert e.t < |s.tasks| by { StepIsEnabled(s, e); }
        StepConserves(hash, s, e.t, e.io, e.verdict, path, b);
      } else {
        OutsideConserves(hash, s, e, path, b);
      }
      StepKeeps(hash, s, e);
      RunConserves(hash, Next(hash, s, e), events[1..], path, b);
    }
  }

  lemma StepIsEnabled(s: State, e: Event)
    requires Enabled(s, e) && e.Step?
    ensures e.t < |s.tasks|
  {
  }

  /**
   * Bytes that lie at a game path, or in a private file of one of its payloads, at some point of a run are on the disk at
   * one of these places at every later point, whatever operations failed meanwhile, as long as nobody else alters the game
   * file and the guard's steps are careful. `TakenSurvivesIff` and `CopySurvivesIff` say what happens when they are not.
   */
  lemma BytesStayOnDisk(hash: Hash, before: seq<Event>, rest: seq<Event>, path: Path, b: Bytes)
    requires Legal(hash, INITIAL, before) && path.Game? && OnDisk(After(hash, INITIAL, before), path, b)
    requires Legal(hash, After(hash, INITIAL, before), rest)
    requires ConsiderateRun(hash, After(hash, INITIAL, before), rest, path)
    ensures OnDisk(After(hash, After(hash, INITIAL, before), rest), path, b)
  {
    hide Inv, Legal, After, ConsiderateRun, OnDisk;
    InitialHolds(hash);
    RunKeeps(hash, INITIAL, before);
    RunConserves(hash, After(hash, INITIAL, before), rest, path, b);
  }

  // ---------- Exactly when a game file survives a step ----------

  lemma TakenSurvives(hash: Hash, s: State, t: nat, io: Io, m: Move, b: Bytes, r: State)
    requires Inv(hash, s) && t < |s.tasks| && MoveShape(s, t, m) && r.disk == MoveNext(hash, s.disk, m, t, io).0
    requires Holds(s, m.src, b) && !Holds(r, m.src, b) && m.src.Game?
    ensures InOwnFiles(r, Payload(s, t), b) <==> m.at.AtRename? || Holds(s, m.dst, b)
    ensures m.at.AtRename? || m.at.AtUnlink?
  {
    hide Inv, InvBut, TaskOk, MoveNext, Places, MoveOk;
    Facts(hash, s, t);
    MoveEffect(hash, s.disk, m, t, io);
    if Holds(r, m.dst, b) {
      assert PlaceOf(m.dst, t);
    }
  }

  lemma OverwrittenSurvives(hash: Hash, s: State, t: nat, io: Io, m: Move, b: Bytes, r: State)
    requires Inv(hash, s) && t < |s.tasks| && MoveShape(s, t, m) && r.disk == MoveNext(hash, s.disk, m, t, io).0
    requires Holds(s, m.dst, b) && !Holds(r, m.dst, b) && m.dst.Game?
    ensures InOwnFiles(r, Payload(s, t), b) <==> m.at.AtRenameCopy? && InOwnFiles(s, Payload(s, t), b)
    ensures !s.tampered ==> !InOwnFiles(r, Payload(s, t), b)
  {
    hide Inv, InvBut, TaskOk, MoveNext, Places;
    var id := Payload(s, t);
    Facts(hash, s, t);
    Facts(hash, s, id);
    MoveEffect(hash, s.disk, m, t, io);
    PlacedBy(s.disk, m, t, io);
    OwnFilesAreScanned(s, id);
    assert forall q: Path :: PlaceOf(q, id) && q in r.disk ==> Holds(s, q, r.disk[q]);
    hide FilesOf;
    if m.at.AtRenameCopy? && InOwnFiles(s, id, b) {
      var q: Path :| PlaceOf(q, id) && q in s.disk && s.disk[q] == b;
      assert q in r.disk && r.disk[q] == b;
    }
  }

  lemma PlacedBy(disk: Disk, m: Move, t: nat, io: Io)
    ensures Places(disk, m, t, io).Some? ==> m.at.AtRename? || m.at.AtRenameCopy?
  {
  }

  lemma OwnFilesAreScanned(s: State, id: nat)
    requires FilesOf(s, id) && id in s.scans
    ensures forall q: Path :: PlaceOf(q, id) && q in s.disk ==> s.disk[q] == s.scans[id].bytes
  {
  }

  /**
   * A step that makes a game file vanish or change leaves its bytes in the task's own files exactly when it renames the file
   * away, or unlinks it while the copy is the same; a rename onto the file loses its bytes, unless they were the payload's.
   */
  lemma TakenSurvivesIff(hash: Hash, s: State, t: nat, io: Io, verdict: Verdict, p: Path)
    requires Inv(hash, s) && t < |s.tasks| && p.Game? && p in s.disk
    requires !Holds(Next(hash, s, Step(t, io, verdict)), p, s.disk[p])
    ensures CurrentMove(s.tasks[t].phase).Some?
    ensures var m, id := CurrentMove(s.tasks[t].phase).value, Payload(s, t);
      InOwnFiles(Next(hash, s, Step(t, io, verdict)), id, s.disk[p]) <==>
        if p == m.dst then m.at.AtRenameCopy? && InOwnFiles(s, id, s.disk[p]) else m.at.AtRename? || Holds(s, m.dst, s.disk[p])
    ensures var m, id := CurrentMove(s.tasks[t].phase).value, Payload(s, t);
      !s.tampered ==>
        (InOwnFiles(Next(hash, s, Step(t, io, verdict)), id, s.disk[p]) <==>
           p != m.dst && (m.at.AtUnlink? ==> Holds(s, m.dst, s.disk[p])))
  {
    hide Inv, Next, MoveNext, Places, MoveShape;
    var r, b, id := Next(hash, s, Step(t, io, verdict)), s.disk[p], Payload(s, t);
    var m := ChangedByMove(hash, s, t, io, verdict, p);
    if p == m.dst {
      OverwrittenSurvives(hash, s, t, io, m, b, r);
    } else {
      TakenSurvives(hash, s, t, io, m, b, r);
    }
  }

  // ---------- Exactly when a payload survives a cross-volume move into the game tree ----------

  /** When a payload is on its way into the game tree, no private file but the source of the move has its bytes. */
  lemma OnlySource(hash: Hash, s: State, t: nat, m: Move, q: Path)
    requires Inv(hash, s) && t < |s.tasks| && CurrentMove(s.tasks[t].phase) == Some(m) && m.dst.Game?
    requires PlaceOf(q, Payload(s, t)) && q in s.disk
    ensures q == m.src
  {
    hide Inv, InvBut, MoveOk, WasScanned;
    Facts(hash, s, t);
    Facts(hash, s, Payload(s, t));
  }

  /** The payload's bytes `b` are at the end of its move to `dst`, or in one of its private files. */
  ghost predicate Survives(s: State, id: nat, dst: Path, b: Bytes) {
    Holds(s, dst, b) || InOwnFiles(s, id, b)
  }

  lemma RenamesCopy(disk: Disk, hash: Hash, m: Move, t: nat)
    requires m.at.AtRenameCopy? && m.Temp(t) in disk && m.src != m.dst && !m.src.Partial? && !m.dst.Partial?
    ensures MoveNext(hash, disk, m, t, Fine).1 == m.(at := AtUnlink)
    ensures var r := MoveNext(hash, disk, m, t, Fine).0;
      && m.dst in r && r[m.dst] == disk[m.Temp(t)]
      && forall q: Path :: !q.Partial? && q != m.dst ==> (q in r <==> q in disk) && (q in r ==> r[q] == disk[q])
  {
  }

  lemma Unlinks(disk: Disk, hash: Hash, m: Move, t: nat)
    requires m.at.AtUnlink? && m.src in disk
    ensures MoveNext(hash, disk, m, t, Fine) == (disk - {m.src}, m.(at := AtCheck))
  {
  }

  lemma AfterRenameCopy(hash: Hash, s: State, t: nat, verdict: Verdict, m: Move)
    requires Inv(hash, s) && t < |s.tasks| && CurrentMove(s.tasks[t].phase) == Some(m) && m.dst.Game?
    requires m.at.AtRenameCopy? && m.Temp(t) in s.disk
    ensures var r := Next(hash, s, Step(t, Fine, verdict));
      && t < |r.tasks| && CurrentMove(r.tasks[t].phase) == Some(m.(at := AtUnlink)) && Inv(hash, r)
      && Holds(r, m.dst, s.disk[m.Temp(t)])
      && forall q: Path :: !q.Partial? && q != m.dst ==> (q in r.disk <==> q in s.disk) && (q in r.disk ==> r.disk[q] == s.disk[q])
  {
    hide Inv, MoveNext, Moving, Next, At, FitsKind, MoveOk;
    MovesAreShaped(hash, s, t);
    MovesFit(hash, s, t);
    MoveGoesOn(hash, s, t, Fine, verdict, m);
    MovingIs(hash, s, t, m, Fine);
    RenamesCopy(s.disk, hash, m, t);
    StepKeeps(hash, s, Step(t, Fine, verdict));
  }

  lemma AfterUnlink(hash: Hash, s: State, t: nat, verdict: Verdict, m: Move)
    requires Inv(hash, s) && t < |s.tasks| && CurrentMove(s.tasks[t].phase) == Some(m) && m.at.AtUnlink? && m.src in s.disk
    ensures Next(hash, s, Step(t, Fine, verdict)).disk == s.disk - {m.src}
  {
    hide Inv, MoveNext, Moving, Next, At, FitsKind;
    MovesFit(hash, s, t);
    MoveGoesOn(hash, s, t, Fine, verdict, m);
    MovingIs(hash, s, t, m, Fine);
    Unlinks(s.disk, hash, m, t);
  }

  /**
   * The copy that a cross-volume release, restore or install has checked lies beside the game file until it is renamed. The
   * payload survives this rename and the unlink that follows it exactly when the copy is still the payload at the rename.
   */
  lemma CopySurvivesIff(hash: Hash, s: State, t: nat, verdict: Verdict, verdict2: Verdict, m: Move)
    requires Inv(hash, s) && t < |s.tasks| && CurrentMove(s.tasks[t].phase) == Some(m) && m.dst.Game?
    requires m.at.AtRenameCopy? && m.src in s.disk && m.Temp(t) in s.disk
    ensures var r := Next(hash, s, Step(t, Fine, verdict));
      && t < |r.tasks| && CurrentMove(r.tasks[t].phase) == Some(m.(at := AtUnlink))
      && var r2 := Next(hash, r, Step(t, Fine, verdict2));
         Survives(r2, Payload(s, t), m.dst, s.disk[m.src]) <==> s.disk[m.Temp(t)] == s.disk[m.src]
  {
    hide Inv, Next, MoveOk;
    var r := Next(hash, s, Step(t, Fine, verdict));
    MovesAreShaped(hash, s, t);
    AfterRenameCopy(hash, s, t, verdict, m);
    AfterUnlink(hash, r, t, verdict2, m.(at := AtUnlink));
    var r2 := Next(hash, r, Step(t, Fine, verdict2));
    forall q: Path | PlaceOf(q, Payload(s, t))
      ensures q !in r2.disk
    {
      if q in r2.disk {
        OnlySource(hash, s, t, m, q);
      }
    }
  }

  // ---------- What each step promises ----------

  /** `b` is where it was, or somewhere else that belongs to the same path. */
  ghost predicate KeepsBytes(s: State, r: State) {
    forall path: Path, b: Bytes :: path.Game? && OnDisk(s, path, b) ==> OnDisk(r, path, b)
  }

  /** The step keeps the invariant, puts only safe or requested files in place, and if careful keeps all bytes of all paths. */
  ghost predicate Promises(hash: Hash, s: State, t: nat, io: Io, r: State)
    requires t < |s.tasks|
  {
    && Inv(hash, r)
    && (forall q :: q in r.placed && q !in s.placed ==> q.task == t && PlacementOk(r, q))
    && (Careful(s, t, io) ==> KeepsBytes(s, r))
  }

  lemma StepPromises(hash: Hash, s: State, t: nat, io: Io, verdict: Verdict)
    requires Inv(hash, s) && t < |s.tasks|
    ensures Promises(hash, s, t, io, Next(hash, s, Step(t, io, verdict)))
  {
    hide Inv, Next, OnDisk, Careful;
    var r := Next(hash, s, Step(t, io, verdict));
    StepKeeps(hash, s, Step(t, io, verdict));
    StepPlaces(hash, s, t, io, verdict);
    forall q | q in r.placed && q !in s.placed
      ensures q.task == t && PlacementOk(r, q)
    {
      AllPlacementsOk(hash, r, q);
    }
    if Careful(s, t, io) {
      forall path: Path, b: Bytes | path.Game? && OnDisk(s, path, b)
        ensures OnDisk(r, path, b)
      {
        StepConserves(hash, s, t, io, verdict, path, b);
      }
    }
  }

  lemma AllPlacementsOk(hash: Hash, s: State, q: Placement)
    requires Inv(hash, s) && q in s.placed
    ensures PlacementOk(s, q)
  {
  }

  /** On its way into quarantine a file never leaves the guard's directories, careful or not. */
  lemma QuarantineLosesNothing(hash: Hash, s: State, t: nat, io: Io, verdict: Verdict, b: Bytes)
    requires Inv(hash, s) && t < |s.tasks| && !s.tasks[t].kind.Restore? && InOwnFiles(s, t, b)
    requires CurrentMove(s.tasks[t].phase).None? || s.tasks[t].phase.Quarantining?
    ensures InOwnFiles(Next(hash, s, Step(t, io, verdict)), t, b)
  {
    hide Inv, Next, MoveNext, Places, MoveShape;
    var r := Next(hash, s, Step(t, io, verdict));
    var w: Path :| PlaceOf(w, t) && w in s.disk && s.disk[w] == b;
    if Holds(r, w, b) {
      assert w in r.disk && r.disk[w] == b;
    } else {
      var m := ChangedByMove(hash, s, t, io, verdict, w);
      IntoQuarantine(hash, s, t, m);
      Arrives(hash, s, t, io, m, b);
      assert Holds(r, m.dst, b) && PlaceOf(m.dst, t);
    }
  }

  lemma IntoQuarantine(hash: Hash, s: State, t: nat, m: Move)
    requires Inv(hash, s) && t < |s.tasks| && s.tasks[t].phase == Quarantining(m) && !s.tasks[t].kind.Restore?
    ensures m.dst == Kept(t)
    ensures m.at.AtUnlink? && m.src in s.disk ==> Holds(s, m.dst, s.disk[m.src])
  {
    hide Inv, InvBut, WasScanned;
    Facts(hash, s, t);
  }
}
