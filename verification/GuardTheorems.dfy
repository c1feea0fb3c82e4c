/** What the guard promises about every run: a payload is held until put back, and only safe or asked-for files come back. */
module GuardTheorems {
  import opened Prelude
  import opened GuardProtocol
  import opened GuardSafety
  import opened GuardEffects

  // ---------- A payload is held until it is put back ----------

  /** The guard put `b` back at the original path of payload `id`. */
  predicate PutBack(s: State, q: Placement, id: nat, b: Bytes) {
    q in s.placed && q.id == id && q.bytes == b && Owner(s, id, q.path)
  }

  /** The bytes `b` of payload `id` lie in one of its private files, or were put back at its original path. */
  ghost predicate Secured(s: State, id: nat, b: Bytes) {
    || (exists p: Path :: PlaceOf(p, id) && p in s.disk && s.disk[p] == b)
    || (exists q :: PutBack(s, q, id, b))
  }

  /** A payload stays secured when its files stay and the placements only grow. */
  lemma SecuredMoves(hash: Hash, s: State, r: State, id: nat, b: Bytes)
    requires Secured(s, id, b) && Inv(hash, r) && s.placed <= r.placed
    requires forall p: Path :: PlaceOf(p, id) && p in s.disk ==> p in r.disk && r.disk[p] == s.disk[p]
    ensures Secured(r, id, b)
  {
    if q :| PutBack(s, q, id, b) {
      assert q in r.placed && PlacementOk(r, q);
      assert PutBack(r, q, id, b);
    }
  }

  /** A file that leaves its private place by a move: its bytes arrived, or were already at, the destination. */
  lemma MoveSecures(hash: Hash, s: State, t: nat, m: Move, io: Io, id: nat, b: Bytes, p: Path)
    requires t < |s.tasks| && MoveShape(s, t, m) && FilesOk(s) && !s.tampered
    requires PlaceOf(p, id) && p in s.disk && s.disk[p] == b
    ensures Secured(Moving(hash, s, t, m, io).0, id, b)
  {
    MovingIs(hash, s, t, m, io);
    var r := Moving(hash, s, t, m, io).0;
    assert FilesOf(s, id) && FilesOf(s, t);
    hide Moving, FilesOk, MoveNext, Places;
    MoveEffect(hash, s.disk, m, t, io);
    var put := Places(s.disk, m, t, io);
    if p in r.disk {
      assert r.disk[p] == b;
    } else {
      assert p == m.src && id == Payload(s, t);
      if put.Some? && !m.dst.Private() {
        assert PutBack(r, Placement(t, id, m.dst, b), id, b);
      } else if put.Some? {
        assert PlaceOf(m.dst, id) && r.disk[m.dst] == b;
      } else if m.dst.Private() {
        assert PlaceOf(m.dst, id) && m.dst in r.disk && r.disk[m.dst] == b;
      } else {
        assert PutBack(r, Placement(t, id, m.dst, b), id, b);
      }
    }
  }

  lemma StepSecures(hash: Hash, s: State, t: nat, io: Io, verdict: Verdict, id: nat, b: Bytes)
    requires Inv(hash, s) && t < |s.tasks| && !s.tampered && Secured(s, id, b)
    ensures Secured(Next(hash, s, Step(t, io, verdict)), id, b)
  {
    hide Inv, Next, Moving, MoveNext, Places, MoveShape;
    var r := Next(hash, s, Step(t, io, verdict));
    WhatAStepTouches(hash, s, t, io, verdict);
    StepKeeps(hash, s, Step(t, io, verdict));
    var current := CurrentMove(s.tasks[t].phase);
    if current.Some? && FitsKind(s.tasks[t]) {
      MovesAreShaped(hash, s, t);
      MovingIs(hash, s, t, current.value, io);
      Facts(hash, s, t);
      if p: Path :| PlaceOf(p, id) && p in s.disk && s.disk[p] == b {
        MoveSecures(hash, s, t, current.value, io, id, b, p);
        var moved := Moving(hash, s, t, current.value, io).0;
        SameSecured(hash, moved, r, id, b);
      } else {
        var q :| PutBack(s, q, id, b);
        StillPutBack(hash, r, q, id, b);
      }
    } else {
      SecuredMoves(hash, s, r, id, b);
    }
  }

  lemma SameSecured(hash: Hash, s: State, r: State, id: nat, b: Bytes)
    requires Secured(s, id, b) && Inv(hash, r) && r.disk == s.disk && r.placed == s.placed
    ensures Secured(r, id, b)
  {
    SecuredMoves(hash, s, r, id, b);
  }

  lemma StillPutBack(hash: Hash, r: State, q: Placement, id: nat, b: Bytes)
    requires Inv(hash, r) && q in r.placed && q.id == id && q.bytes == b
    ensures PutBack(r, q, id, b) && Secured(r, id, b)
  {
    assert PlacementOk(r, q) && PutBack(r, q, id, b);
  }

  lemma EventSecures(hash: Hash, s: State, e: Event, id: nat, b: Bytes)
    requires Inv(hash, s) && Enabled(s, e) && !Next(hash, s, e).tampered && Secured(s, id, b)
    ensures Secured(Next(hash, s, e), id, b)
  {
    hide Inv, Touched, ProcessNext, RestoreNext, InstallNext;
    var r := Next(hash, s, e);
    StepKeeps(hash, s, e);
    EventTampers(hash, s, e);
    if e.Step? {
      StepSecures(hash, s, e.t, e.io, e.verdict, id, b);
    } else {
      SecuredMoves(hash, s, r, id, b);
    }
  }

  /** Tampering is remembered. */
  lemma EventTampers(hash: Hash, s: State, e: Event)
    requires Enabled(s, e) && !Next(hash, s, e).tampered
    ensures !s.tampered
  {
    hide ProcessNext, RestoreNext, InstallNext, SameIdentity;
    if e.Step? {
      WhatAStepTouches(hash, s, e.t, e.io, e.verdict);
    }
  }

  lemma {:induction false} UntamperedSoFar(hash: Hash, s: State, events: seq<Event>)
    requires Legal(hash, s, events) && !After(hash, s, events).tampered
    ensures !s.tampered
    decreases |events|
  {
    hide Next, Enabled;
    if events != [] {
      UntamperedSoFar(hash, Next(hash, s, events[0]), events[1..]);
      EventTampers(hash, s, events[0]);
    }
  }

  lemma {:induction false} RunSecures(hash: Hash, s: State, events: seq<Event>, id: nat, b: Bytes)
    requires Inv(hash, s) && Legal(hash, s, events) && !After(hash, s, events).tampered && Secured(s, id, b)
    ensures Secured(After(hash, s, events), id, b)
    decreases |events|
  {
    hide Inv, Next, Enabled, Secured;
    if events != [] {
      var r := Next(hash, s, events[0]);
      UntamperedSoFar(hash, r, events[1..]);
      EventSecures(hash, s, events[0], id, b);
      StepKeeps(hash, s, events[0]);
      RunSecures(hash, r, events[1..], id, b);
    }
  }

  /**
   * Whatever bytes a payload's hold, staging or quarantine file has at some point of a run, at every later point they are in
   * one of those files or have been put back at the payload's original path at some time, whatever operations failed
   * meanwhile. Whether they are still there is the matter of GuardConservation.
   */
  lemma HeldUntilPutBack(hash: Hash, before: seq<Event>, rest: seq<Event>, id: nat, p: Path)
    requires Legal(hash, INITIAL, before) && PlaceOf(p, id) && p in After(hash, INITIAL, before).disk
    requires Legal(hash, After(hash, INITIAL, before), rest) && !After(hash, After(hash, INITIAL, before), rest).tampered
    ensures var s := After(hash, INITIAL, before);
      Secured(After(hash, s, rest), id, s.disk[p])
  {
    hide Inv, Legal, After;
    InitialHolds(hash);
    RunKeeps(hash, INITIAL, before);
    var s := After(hash, INITIAL, before);
    assert Secured(s, id, s.disk[p]);
    RunSecures(hash, s, rest, id, s.disk[p]);
  }

  // ---------- Coming back ----------

  /** What the guard puts into the game tree was called safe by a scan, or is put back by a restore request. */
  lemma OnlySafeOrRestored(hash: Hash, events: seq<Event>, q: Placement)
    requires Legal(hash, INITIAL, events) && q in After(hash, INITIAL, events).placed
    ensures var s := After(hash, INITIAL, events);
      && q.task < |s.tasks| && Owner(s, q.id, q.path) && q.id in s.scans
      && (if s.tasks[q.task].kind.Restore? then s.tasks[q.task].kind.payload == q.id
          else q.id == q.task && s.scans[q.id].verdict.Safe?)
      && (!s.tampered ==> q.bytes == s.scans[q.id].bytes)
  {
    InitialHolds(hash);
    RunKeeps(hash, INITIAL, events);
    hide After, Legal;
    assert PlacementOk(After(hash, INITIAL, events), q);
  }

  /** A trusted identity is that of bytes that a scan of a file from this very path called safe, tampering or not. */
  lemma TrustedIsSafe(hash: Hash, events: seq<Event>, path: Path)
    requires Legal(hash, INITIAL, events) && path in After(hash, INITIAL, events).trusted
    ensures var s := After(hash, INITIAL, events);
      exists id :: id in s.scans && Owner(s, id, path) && s.scans[id].verdict.Safe?
        && IdentityOf(hash, s.scans[id].bytes) == s.trusted[path]
  {
    InitialHolds(hash);
    RunKeeps(hash, INITIAL, events);
    var s := After(hash, INITIAL, events);
    hide After, Legal;
    assert Vouched(hash, s, path, s.trusted[path]);
    var id :| id in s.scans && Owner(s, id, path) && WasSafe(hash, s, id, s.trusted[path]);
  }

  /** A payload is restored successfully at most once, however many restore requests race for it. */
  lemma RestoredOnce(hash: Hash, events: seq<Event>, t: nat, u: nat)
    requires Legal(hash, INITIAL, events)
    requires var tasks := After(hash, INITIAL, events).tasks;
      && t < |tasks| && tasks[t].kind.Restore? && tasks[t].phase == Ended(Restored)
      && u < |tasks| && tasks[u].kind == tasks[t].kind && tasks[u].phase == Ended(Restored)
    ensures t == u
  {
    InitialHolds(hash);
    RunKeeps(hash, INITIAL, events);
    var s := After(hash, INITIAL, events);
    hide After, Legal;
    RestoreFacts(hash, s, t);
    RestoreFacts(hash, s, u);
  }

  lemma RestoreFacts(hash: Hash, s: State, t: nat)
    requires Inv(hash, s) && t < |s.tasks| && s.tasks[t].kind.Restore? && s.tasks[t].phase == Ended(Restored)
    ensures GaveBack(hash, s, t, s.tasks[t].kind.payload)
  {
    hide Inv, InvBut, FilesOf, GaveBack;
    Facts(hash, s, t);
  }

  /**
   * A successful restore saw, at the payload's original path, bytes with the identity of those that were scanned and
   * quarantined; with a hash that tells the two apart they are the same bytes. The payload has left quarantine.
   */
  lemma RestoreGivesBack(hash: Hash, events: seq<Event>, t: nat)
    requires Legal(hash, INITIAL, events)
    requires var tasks := After(hash, INITIAL, events).tasks;
      t < |tasks| && tasks[t].kind.Restore? && tasks[t].phase == Ended(Restored)
    ensures var s := After(hash, INITIAL, events);
      var id := s.tasks[t].kind.payload;
      && t in s.confirmed && id in s.scans && Owner(s, id, s.confirmed[t].path) && Kept(id) !in s.disk
      && IdentityOf(hash, s.confirmed[t].bytes) == IdentityOf(hash, s.scans[id].bytes)
      && ((forall b: Bytes :: hash(b) == hash(s.scans[id].bytes) ==> b == s.scans[id].bytes) ==>
            s.confirmed[t].bytes == s.scans[id].bytes)
  {
    InitialHolds(hash);
    RunKeeps(hash, INITIAL, events);
    var s := After(hash, INITIAL, events);
    hide After, Legal;
    RestoreFacts(hash, s, t);
    assert ConsumersOk(s);
  }

  /** At most one unfinished task processes a path. */
  lemma OneTaskPerPath(hash: Hash, events: seq<Event>, t: nat, u: nat)
    requires Legal(hash, INITIAL, events)
    requires var tasks := After(hash, INITIAL, events).tasks;
      && t < |tasks| && tasks[t].kind.Process? && !tasks[t].phase.Ended?
      && u < |tasks| && tasks[u].kind == tasks[t].kind && !tasks[u].phase.Ended?
    ensures t == u
  {
    InitialHolds(hash);
    RunKeeps(hash, INITIAL, events);
    var s := After(hash, INITIAL, events);
    hide After, Legal;
    assert ProcessingOk(s);
    assert LiveAt(s, t, s.tasks[t].kind.path) && LiveAt(s, u, s.tasks[t].kind.path);
  }
}
