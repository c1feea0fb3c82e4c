/** Runs of the guard, and what one step of a task changes: its move, its own place in the list, and its own records. */
module GuardEffects {
  import opened Prelude
  import opened GuardProtocol
  import opened GuardSafety

  // ---------- Runs ----------

  predicate Legal(hash: Hash, s: State, events: seq<Event>)
    decreases |events|
  {
    events == [] || (Enabled(s, events[0]) && Legal(hash, Next(hash, s, events[0]), events[1..]))
  }

  function After(hash: Hash, s: State, events: seq<Event>): State
    requires Legal(hash, s, events)
    decreases |events|
  {
    if events == [] then s else After(hash, Next(hash, s, events[0]), events[1..])
  }

  lemma {:induction false} RunKeeps(hash: Hash, s: State, events: seq<Event>)
    requires Inv(hash, s) && Legal(hash, s, events)
    ensures Inv(hash, After(hash, s, events))
    decreases |events|
  {
    hide Inv, Next, Enabled;
    if events != [] {
      StepKeeps(hash, s, events[0]);
      RunKeeps(hash, Next(hash, s, events[0]), events[1..]);
    }
  }

  /** The run `events` takes `s` to `r`. */
  ghost predicate Leads(hash: Hash, s: State, events: seq<Event>, r: State) {
    Legal(hash, s, events) && After(hash, s, events) == r
  }

  lemma LeadsOn(hash: Hash, s: State, e: Event, next: State, rest: seq<Event>, r: State)
    requires Enabled(s, e) && Next(hash, s, e) == next && Leads(hash, next, rest, r)
    ensures Leads(hash, s, [e] + rest, r)
  {
    hide Next, Enabled;
    assert ([e] + rest)[1..] == rest;
  }

  lemma {:induction false} LeadsThen(hash: Hash, s: State, events: seq<Event>, m: State, more: seq<Event>, r: State)
    requires Leads(hash, s, events, m) && Leads(hash, m, more, r)
    ensures Leads(hash, s, events + more, r)
    decreases |events|
  {
    hide Next, Enabled;
    if events == [] {
      assert events + more == more;
    } else {
      LeadsThen(hash, Next(hash, s, events[0]), events[1..], m, more, r);
      assert (events + more)[1..] == events[1..] + more;
    }
  }

  lemma LeadsOne(hash: Hash, s: State, e: Event)
    requires Enabled(s, e)
    ensures Leads(hash, s, [e], Next(hash, s, e))
  {
    hide Next, Enabled;
    var r := Next(hash, s, e);
    assert [e][1..] == [] && Legal(hash, r, []) && After(hash, r, []) == r;
  }

  // ---------- Steps ----------

  /** The move that a task is in the middle of. */
  function CurrentMove(phase: Phase): Option<Move> {
    match phase
    case Staging(m) => Some(m)
    case Releasing(m) => Some(m)
    case Quarantining(m) => Some(m)
    case Restoring(_, m) => Some(m)
    case Installing(m) => Some(m)
    case _ => None
  }

  lemma MovesAreShaped(hash: Hash, s: State, t: nat)
    requires Inv(hash, s) && t < |s.tasks| && CurrentMove(s.tasks[t].phase).Some?
    ensures MoveShape(s, t, CurrentMove(s.tasks[t].phase).value)
  {
    hide Inv, InvBut, FilesOf, MoveOk;
    Facts(hash, s, t);
  }

  /** The phases of the right kind of task; others never occur. */
  predicate FitsKind(task: Task) {
    match task.phase
    case Staging(_) => task.kind.Process?
    case Releasing(_) => task.kind.Process?
    case Quarantining(_) => !task.kind.Restore?
    case Restoring(_, _) => task.kind.Restore?
    case Installing(_) => task.kind.Install?
    case _ => true
  }

  /** From `s` to `r` the disk and the placements changed as by the move of task `t`, or not at all. */
  predicate Touched(hash: Hash, s: State, t: nat, io: Io, r: State)
    requires t < |s.tasks|
  {
    var current := CurrentMove(s.tasks[t].phase);
    r.tampered == s.tampered && if current.Some? && FitsKind(s.tasks[t]) then
      var moved := Moving(hash, s, t, current.value, io).0;
      r.disk == moved.disk && r.placed == moved.placed
    else
      r.placed == s.placed && (r.disk == s.disk || (s.tasks[t].phase.InstallCopy? && Copied(s, t, r.disk)))
  }

  /** From `s` to `r` only task `t` moved on, and only its own manifest changed, or that of the payload it restored. */
  predicate Recorded(s: State, t: nat, r: State)
    requires t < |s.tasks|
  {
    && |r.tasks| == |s.tasks| && r.tasks == s.tasks[t := Task(s.tasks[t].kind, r.tasks[t].phase)]
    && (r.manifests == s.manifests
        || (t in r.manifests && r.manifests == s.manifests[t := r.manifests[t]])
        || (s.tasks[t].phase.RestoreWrite? && s.tasks[t].kind.Restore? && s.tasks[t].kind.payload in r.manifests
            && r.manifests == s.manifests[s.tasks[t].kind.payload := r.manifests[s.tasks[t].kind.payload]]))
    && (r.tasks[t].phase == Ended(Quarantined) && !s.tasks[t].phase.Ended? ==>
          t in r.manifests && r.manifests[t].state.QuarantinedState?)
  }

  predicate Copied(s: State, t: nat, disk: Disk) {
    Staged(t) !in s.disk && Staged(t) in disk && disk == s.disk[Staged(t) := disk[Staged(t)]]
  }

  lemma TouchesNothing(hash: Hash, s: State, t: nat, io: Io, r: State)
    requires t < |s.tasks| && (CurrentMove(s.tasks[t].phase).None? || !FitsKind(s.tasks[t]))
    requires r.disk == s.disk && r.placed == s.placed && r.tampered == s.tampered
    ensures Touched(hash, s, t, io, r)
  {
  }

  lemma TouchesByMove(hash: Hash, s: State, t: nat, io: Io, m: Move, r: State)
    requires t < |s.tasks| && CurrentMove(s.tasks[t].phase) == Some(m) && FitsKind(s.tasks[t])
    requires r.disk == Moving(hash, s, t, m, io).0.disk && r.placed == Moving(hash, s, t, m, io).0.placed
    requires r.tampered == s.tampered
    ensures Touched(hash, s, t, io, r)
  {
    hide Moving;
  }

  lemma MovesOn(s: State, t: nat, phase: Phase, r: State)
    requires t < |s.tasks| && phase != Ended(Quarantined)
    requires r.tasks == s.tasks[t := Task(s.tasks[t].kind, phase)] && r.manifests == s.manifests
    ensures Recorded(s, t, r)
  {
  }

  lemma QuarantineTouches(hash: Hash, s: State, t: nat, source: Path, path: Path, io: Io)
    requires t < |s.tasks| && !s.tasks[t].kind.Restore?
    requires CurrentMove(s.tasks[t].phase).None? || s.tasks[t].phase.Quarantining? || !FitsKind(s.tasks[t])
    ensures Touched(hash, s, t, io, QuarantineNext(hash, s, t, source, path, io))
    ensures Recorded(s, t, QuarantineNext(hash, s, t, source, path, io))
  {
    hide Moving, Read, At, End, WriteManifest, Distrusted, IdentityOf, Touched;
    var r := QuarantineNext(hash, s, t, source, path, io);
    if s.tasks[t].phase.Quarantining? {
      TouchesByMove(hash, s, t, io, s.tasks[t].phase.m, r);
    } else {
      assert r.disk == s.disk && r.placed == s.placed && r.tampered == s.tampered;
      TouchesNothing(hash, s, t, io, r);
    }
  }

  lemma ReleaseTouches(hash: Hash, s: State, t: nat, path: Path, io: Io)
    requires t < |s.tasks| && s.tasks[t].kind.Process? && !s.tasks[t].phase.Staging?
    ensures Touched(hash, s, t, io, ReleaseNext(hash, s, t, path, io))
    ensures Recorded(s, t, ReleaseNext(hash, s, t, path, io))
  {
    hide Moving, Read, SameIdentity, Absent, QuarantineNext, At, End, Trusted, Touched;
    var r := ReleaseNext(hash, s, t, path, io);
    var phase := s.tasks[t].phase;
    if phase.ReleaseVerify? || phase.ReleaseAccess? {
      TouchesNothing(hash, s, t, io, r);
    } else if phase.Releasing? {
      TouchesByMove(hash, s, t, io, phase.m, r);
    } else {
      QuarantineTouches(hash, s, t, Held(t), path, io);
    }
  }

  lemma CheckTouches(hash: Hash, s: State, t: nat, io: Io, verdict: Verdict)
    requires t < |s.tasks| && s.tasks[t].kind.Process? && s.tasks[t].phase.CheckTrusted?
    ensures Touched(hash, s, t, io, ProcessNext(hash, s, t, io, verdict))
    ensures Recorded(s, t, ProcessNext(hash, s, t, io, verdict))
  {
    hide Read, SameIdentity, ReleaseNext, At, End, Touched, Recorded;
    var r, path := ProcessNext(hash, s, t, io, verdict), s.tasks[t].kind.path;
    var distrusted := s.(trusted := s.trusted - {path});
    assert r in {At(s, t, StageHash), At(distrusted, t, StageHash), End(s, t, Threw), End(s, t, TrustedHit)};
    hide ProcessNext;
    TouchesNothing(hash, s, t, io, r);
    MovesOn(s, t, r.tasks[t].phase, r);
  }

  lemma HashingTouches(hash: Hash, s: State, t: nat, io: Io, verdict: Verdict)
    requires t < |s.tasks| && s.tasks[t].kind.Process? && s.tasks[t].phase.StageHash?
    ensures Touched(hash, s, t, io, ProcessNext(hash, s, t, io, verdict))
    ensures Recorded(s, t, ProcessNext(hash, s, t, io, verdict))
  {
    hide Moving, Read, SameIdentity, ReleaseNext, At, End, GuardProtocol.Scanned, IdentityOf, DecideContainment, Touched;
    hide Recorded;
    var r := ProcessNext(hash, s, t, io, verdict);
    TouchesNothing(hash, s, t, io, r);
    MovesOn(s, t, r.tasks[t].phase, r);
  }

  lemma ScanningTouches(hash: Hash, s: State, t: nat, io: Io, verdict: Verdict)
    requires t < |s.tasks| && s.tasks[t].kind.Process? && (s.tasks[t].phase.Scanning? || s.tasks[t].phase.Verifying?)
    ensures Touched(hash, s, t, io, ProcessNext(hash, s, t, io, verdict))
    ensures Recorded(s, t, ProcessNext(hash, s, t, io, verdict))
  {
    hide Moving, Read, SameIdentity, ReleaseNext, At, End, GuardProtocol.Scanned, IdentityOf, DecideContainment, Touched;
    hide Recorded;
    var r := ProcessNext(hash, s, t, io, verdict);
    TouchesNothing(hash, s, t, io, r);
    MovesOn(s, t, r.tasks[t].phase, r);
  }

  lemma StagingTouches(hash: Hash, s: State, t: nat, io: Io, verdict: Verdict)
    requires t < |s.tasks| && s.tasks[t].kind.Process? && (s.tasks[t].phase.Staging?)
    ensures Touched(hash, s, t, io, ProcessNext(hash, s, t, io, verdict))
    ensures Recorded(s, t, ProcessNext(hash, s, t, io, verdict))
  {
    hide Moving, Read, SameIdentity, ReleaseNext, At, End, GuardProtocol.Scanned, IdentityOf, DecideContainment, Touched;
    hide Recorded;
    var r := ProcessNext(hash, s, t, io, verdict);
    TouchesByMove(hash, s, t, io, s.tasks[t].phase.m, r);
    MovesOn(s, t, r.tasks[t].phase, r);
  }

  lemma ProcessTouches(hash: Hash, s: State, t: nat, io: Io, verdict: Verdict)
    requires t < |s.tasks| && s.tasks[t].kind.Process?
    ensures Touched(hash, s, t, io, ProcessNext(hash, s, t, io, verdict))
    ensures Recorded(s, t, ProcessNext(hash, s, t, io, verdict))
  {
    hide Touched, Recorded, ReleaseNext;
    var phase := s.tasks[t].phase;
    if phase.CheckTrusted? {
      CheckTouches(hash, s, t, io, verdict);
    } else if phase.StageHash? {
      HashingTouches(hash, s, t, io, verdict);
    } else if phase.Scanning? || phase.Verifying? {
      ScanningTouches(hash, s, t, io, verdict);
    } else if phase.Staging? {
      StagingTouches(hash, s, t, io, verdict);
    } else {
      ReleaseTouches(hash, s, t, s.tasks[t].kind.path, io);
    }
  }

  lemma RestoreTouches(hash: Hash, s: State, t: nat, io: Io)
    requires t < |s.tasks| && s.tasks[t].kind.Restore?
    ensures Touched(hash, s, t, io, RestoreNext(hash, s, t, io))
    ensures Recorded(s, t, RestoreNext(hash, s, t, io))
  {
    hide Moving, Read, SameIdentity, Absent, At, End, WriteManifest, Touched, Recorded;
    var r := RestoreNext(hash, s, t, io);
    if s.tasks[t].phase.RestoreWrite? {
      RestoreWriteTouches(hash, s, t, io);
    } else if s.tasks[t].phase.Ended? {
      TouchesNothing(hash, s, t, io, r);
      EndedRecords(s, t);
    } else {
      if s.tasks[t].phase.Restoring? {
        TouchesByMove(hash, s, t, io, s.tasks[t].phase.m, r);
      } else {
        TouchesNothing(hash, s, t, io, r);
      }
      RestoringRecords(hash, s, t, io);
    }
  }

  lemma EndedRecords(s: State, t: nat)
    requires t < |s.tasks|
    ensures Recorded(s, t, s) || !s.tasks[t].phase.Ended?
  {
  }

  lemma RestoringRecords(hash: Hash, s: State, t: nat, io: Io)
    requires t < |s.tasks| && s.tasks[t].kind.Restore? && !s.tasks[t].phase.RestoreWrite? && !s.tasks[t].phase.Ended?
    ensures Recorded(s, t, RestoreNext(hash, s, t, io))
  {
    hide Moving, Read, SameIdentity, Absent, At, End, WriteManifest, Recorded;
    var r := RestoreNext(hash, s, t, io);
    assert r.tasks == s.tasks[t := Task(s.tasks[t].kind, r.tasks[t].phase)];
    MovesOn(s, t, r.tasks[t].phase, r);
  }

  lemma RestoreWriteTouches(hash: Hash, s: State, t: nat, io: Io)
    requires t < |s.tasks| && s.tasks[t].kind.Restore? && s.tasks[t].phase.RestoreWrite?
    ensures Touched(hash, s, t, io, RestoreNext(hash, s, t, io))
    ensures Recorded(s, t, RestoreNext(hash, s, t, io))
  {
    hide Moving, Read, At, End, WriteManifest;
  }

  lemma PlaceTouches(hash: Hash, s: State, t: nat, path: Path, io: Io)
    requires t < |s.tasks| && s.tasks[t].kind.Install? && !s.tasks[t].phase.InstallCopy?
    ensures Touched(hash, s, t, io, PlaceNext(hash, s, t, path, io))
    ensures Recorded(s, t, PlaceNext(hash, s, t, path, io))
  {
    hide Moving, Read, SameIdentity, Absent, QuarantineNext, At, End, Touched;
    var r := PlaceNext(hash, s, t, path, io);
    var phase := s.tasks[t].phase;
    if phase.InstallAccess? || phase.InstallRehash? || phase.InstallCheck? {
      TouchesNothing(hash, s, t, io, r);
    } else if phase.Installing? {
      TouchesByMove(hash, s, t, io, phase.m, r);
    } else {
      QuarantineTouches(hash, s, t, Staged(t), path, io);
    }
  }

  lemma InstallTouches(hash: Hash, s: State, t: nat, io: Io, verdict: Verdict)
    requires t < |s.tasks| && s.tasks[t].kind.Install?
    ensures Touched(hash, s, t, io, InstallNext(hash, s, t, io, verdict))
    ensures Recorded(s, t, InstallNext(hash, s, t, io, verdict))
  {
    hide Moving, Read, PlaceNext, At, End, GuardProtocol.Scanned, IdentityOf, DecideContainment, Touched;
    var r := InstallNext(hash, s, t, io, verdict);
    var phase := s.tasks[t].phase;
    if phase.InstallHash? || phase.InstallScan? || phase.InstallVerify? {
      TouchesNothing(hash, s, t, io, r);
    } else if phase.InstallCopy? {
      CopyTouches(hash, s, t, io, verdict);
    } else {
      PlaceTouches(hash, s, t, s.tasks[t].kind.path, io);
    }
  }

  lemma CopyTouches(hash: Hash, s: State, t: nat, io: Io, verdict: Verdict)
    requires t < |s.tasks| && s.tasks[t].kind.Install? && s.tasks[t].phase.InstallCopy?
    ensures Touched(hash, s, t, io, InstallNext(hash, s, t, io, verdict))
    ensures Recorded(s, t, InstallNext(hash, s, t, io, verdict))
  {
    hide Moving, PlaceNext, At, End, Read;
  }

  /** Only moves, and the copy that starts an install, touch the disk. */
  lemma WhatAStepTouches(hash: Hash, s: State, t: nat, io: Io, verdict: Verdict)
    requires t < |s.tasks|
    ensures Touched(hash, s, t, io, Next(hash, s, Step(t, io, verdict)))
    ensures Recorded(s, t, Next(hash, s, Step(t, io, verdict)))
  {
    hide Touched, Recorded, ProcessNext, RestoreNext, InstallNext;
    if s.tasks[t].kind.Process? {
      ProcessTouches(hash, s, t, io, verdict);
    } else if s.tasks[t].kind.Restore? {
      RestoreTouches(hash, s, t, io);
    } else {
      InstallTouches(hash, s, t, io, verdict);
    }
  }

  // ---------- A move going on ----------

  function WithMove(phase: Phase, m: Move): Phase {
    match phase
    case Staging(_) => Staging(m)
    case Releasing(_) => Releasing(m)
    case Quarantining(_) => Quarantining(m)
    case Restoring(manifest, _) => Restoring(manifest, m)
    case Installing(_) => Installing(m)
    case _ => phase
  }

  lemma KeepingGoesOn(hash: Hash, s: State, t: nat, source: Path, path: Path, io: Io, m: Move)
    requires t < |s.tasks| && s.tasks[t].phase == Quarantining(m)
    ensures var (r, next) := Moving(hash, s, t, m, io);
      !next.Over() ==> QuarantineNext(hash, s, t, source, path, io) == At(r, t, Quarantining(next))
  {
    hide Moving, At;
  }

  lemma ReleasingGoesOn(hash: Hash, s: State, t: nat, path: Path, io: Io, m: Move)
    requires t < |s.tasks| && s.tasks[t].kind.Process? && s.tasks[t].phase == Releasing(m)
    ensures var (r, next) := Moving(hash, s, t, m, io);
      !next.Over() ==> ReleaseNext(hash, s, t, path, io) == At(r, t, Releasing(next))
  {
    hide Moving, At, End, QuarantineNext;
  }

  lemma PlacingGoesOn(hash: Hash, s: State, t: nat, path: Path, io: Io, m: Move)
    requires t < |s.tasks| && s.tasks[t].kind.Install? && s.tasks[t].phase == Installing(m)
    ensures var (r, next) := Moving(hash, s, t, m, io);
      !next.Over() ==> PlaceNext(hash, s, t, path, io) == At(r, t, Installing(next))
  {
    hide Moving, At, End, QuarantineNext;
  }

  /** A step of a move that is not its last does what the move does, and nothing else. */
  lemma MoveGoesOn(hash: Hash, s: State, t: nat, io: Io, verdict: Verdict, m: Move)
    requires t < |s.tasks| && CurrentMove(s.tasks[t].phase) == Some(m) && FitsKind(s.tasks[t])
    ensures var (r, next) := Moving(hash, s, t, m, io);
      !next.Over() ==> Next(hash, s, Step(t, io, verdict)) == At(r, t, WithMove(s.tasks[t].phase, next))
  {
    hide Moving, At, End, QuarantineNext, ReleaseNext, PlaceNext;
    var phase, kind := s.tasks[t].phase, s.tasks[t].kind;
    if phase.Releasing? {
      ReleasingGoesOn(hash, s, t, kind.path, io, m);
    } else if phase.Installing? {
      PlacingGoesOn(hash, s, t, kind.path, io, m);
    } else if phase.Quarantining? {
      KeepingGoesOn(hash, s, t, if kind.Process? then Held(t) else Staged(t), kind.path, io, m);
      QuarantineReached(hash, s, t, io, verdict, m);
    }
  }

  lemma QuarantineReached(hash: Hash, s: State, t: nat, io: Io, verdict: Verdict, m: Move)
    requires t < |s.tasks| && s.tasks[t].phase == Quarantining(m) && !s.tasks[t].kind.Restore?
    ensures Next(hash, s, Step(t, io, verdict)) == QuarantineNext(hash, s, t, SourceOf(s, t), s.tasks[t].kind.path, io)
  {
    hide QuarantineNext;
  }

  /** In a state of a run every move belongs to the right kind of task. */
  lemma MovesFit(hash: Hash, s: State, t: nat)
    requires Inv(hash, s) && t < |s.tasks|
    ensures FitsKind(s.tasks[t])
  {
    hide Inv, InvBut, FilesOf, MoveOk, WasScanned;
    Facts(hash, s, t);
  }

  lemma EndedStays(hash: Hash, s: State, t: nat, io: Io, verdict: Verdict)
    requires t < |s.tasks| && s.tasks[t].phase.Ended?
    ensures Next(hash, s, Step(t, io, verdict)) == s
  {
  }

  /** No step puts a file into quarantine but one of the task whose file it is, before that task is over. */
  lemma StepKept(hash: Hash, s: State, t: nat, io: Io, verdict: Verdict, id: nat)
    requires Inv(hash, s) && t < |s.tasks|
    requires Kept(id) !in s.disk && Kept(id) in Next(hash, s, Step(t, io, verdict)).disk
    ensures t == id && !s.tasks[t].phase.Ended?
  {
    hide Inv, Next, Moving, MoveOk;
    WhatAStepTouches(hash, s, t, io, verdict);
    var current := CurrentMove(s.tasks[t].phase);
    MovesAreShaped(hash, s, t);
    MovingKept(hash, s, t, current.value, io);
  }

  /** A step adds at most one placement, and that is the task's own. */
  lemma StepPlaces(hash: Hash, s: State, t: nat, io: Io, verdict: Verdict)
    requires t < |s.tasks|
    ensures var r := Next(hash, s, Step(t, io, verdict));
      && s.placed <= r.placed && |r.placed| <= |s.placed| + 1
      && (forall i :: |s.placed| <= i < |r.placed| ==> r.placed[i].task == t)
  {
    hide Next, Moving, At;
    WhatAStepTouches(hash, s, t, io, verdict);
    var current := CurrentMove(s.tasks[t].phase);
    if current.Some? {
      MovingIs(hash, s, t, current.value, io);
    }
  }

  /** Tasks keep their kind, and the history of placements only grows. */
  predicate Grows(s: State, r: State) {
    && |s.tasks| <= |r.tasks| && s.placed <= r.placed
    && forall k :: 0 <= k < |s.tasks| ==> r.tasks[k].kind == s.tasks[k].kind
  }

  lemma EventGrows(hash: Hash, s: State, e: Event)
    requires Enabled(s, e)
    ensures Grows(s, Next(hash, s, e))
  {
    hide ProcessNext, RestoreNext, InstallNext, SameIdentity, Touched;
    if e.Step? {
      WhatAStepTouches(hash, s, e.t, e.io, e.verdict);
      StepPlaces(hash, s, e.t, e.io, e.verdict);
    }
  }

  lemma {:induction false} RunGrows(hash: Hash, s: State, events: seq<Event>)
    requires Legal(hash, s, events)
    ensures Grows(s, After(hash, s, events))
    decreases |events|
  {
    hide Next, Enabled;
    if events != [] {
      EventGrows(hash, s, events[0]);
      RunGrows(hash, Next(hash, s, events[0]), events[1..]);
    }
  }
}
