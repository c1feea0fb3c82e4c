/** Staging of signed updates against a stored high-water mark, and why nothing is ever replayed. */
module UpdateManager {
  import opened Prelude
  import opened SemVer

  type Bytes = seq<byte>

  datatype Package = Package(name: JsString, sha256: JsString, size: int, urlTrusted: bool)

  /** A manifest as its fields are read; `None` where a field does not have the type that is asked for. */
  datatype Manifest = Manifest(
    supportedSchema: bool, product: JsString, channel: JsString, version: JsString, releaseSequence: Option<int>,
    sourceCommit: JsString, issuedAt: Option<int>, expiresAt: Option<int>, package: Option<Package>)

  datatype SecurityState = SecurityState(
    highestReleaseSequence: int, highestSeenVersion: JsString, lastSourceCommit: Option<JsString>)

  datatype StateFile = Missing | Unreadable | Stored(state: SecurityState)

  datatype Policy = Policy(product: JsString, channel: JsString, hash: Bytes -> JsString)

  datatype UpdateError =
    | StateInvalid | UnsupportedSchema | BadSignature | UnexpectedProduct | UnexpectedChannel | Incomplete | InvalidVersion
    | NotNewer | Replay | StaleSequence | InvalidCommit | InvalidWindow | InvalidPackage | PackageMismatch | StagingFailed
    | Collision | PersistFailed

  const MAX_PACKAGE_BYTES: int := 1024 * 1024 * 1024
  const MAX_VALIDITY: int := 31 * 24 * 60 * 60 * 1000
  const MAX_SKEW: int := 5 * 60 * 1000

  predicate Hex(s: JsString, length: nat) {
    |s| == length && forall i :: 0 <= i < |s| ==> 0x30 <= s[i] <= 0x39 || 0x61 <= s[i] <= 0x66
  }

  predicate IsCommit(s: JsString) {
    Hex(s, 40) || Hex(s, 64)
  }

  predicate IsAlphanumeric(c: CodeUnit) {
    0x30 <= c <= 0x39 || 0x41 <= c <= 0x5a || 0x61 <= c <= 0x7a
  }

  predicate PackageName(s: JsString) {
    && 1 <= |s| <= 200 && IsAlphanumeric(s[0])
    && forall i :: 1 <= i < |s| ==> IsAlphanumeric(s[i]) || s[i] == DOT || s[i] == DASH || s[i] == 0x5f
  }

  predicate WindowHolds(m: Manifest, now: int) {
    && m.issuedAt.Some? && m.expiresAt.Some? && m.issuedAt.value <= now + MAX_SKEW && now < m.expiresAt.value
    && m.issuedAt.value < m.expiresAt.value <= m.issuedAt.value + MAX_VALIDITY
  }

  predicate PackageHolds(p: Package) {
    PackageName(p.name) && Hex(p.sha256, 64) && 0 < p.size <= MAX_PACKAGE_BYTES && p.urlTrusted
  }

  /** `verifyOnlineUpdateManifest`: the first failing check; `signed` is the outcome of the key and signature checks. */
  function VerifyOnline(policy: Policy, m: Manifest, signed: bool, current: JsString, state: SecurityState, now: int)
    : Option<UpdateError>
  {
    if !m.supportedSchema then Some(UnsupportedSchema)
    else if !signed then Some(BadSignature)
    else if m.product != policy.product then Some(UnexpectedProduct)
    else if m.channel != policy.channel then Some(UnexpectedChannel)
    else if m.version == [] then Some(Incomplete)
    else if Compare(m.version, current).None? then Some(InvalidVersion)
    else if !Newer(m.version, current) then Some(NotNewer)
    else if Compare(m.version, state.highestSeenVersion).None? then Some(InvalidVersion)
    else if !Newer(m.version, state.highestSeenVersion) then Some(Replay)
    else if m.releaseSequence.None? || m.releaseSequence.value <= state.highestReleaseSequence then Some(StaleSequence)
    else if !IsCommit(m.sourceCommit) then Some(InvalidCommit)
    else if !WindowHolds(m, now) then Some(InvalidWindow)
    else if m.package.None? then Some(Incomplete)
    else if !PackageHolds(m.package.value) then Some(InvalidPackage)
    else None
  }

  /** `verifyOnlineUpdatePackage` of a file with these bytes. */
  predicate PackageMatches(policy: Policy, p: Package, bytes: Bytes) {
    |bytes| == p.size && 0 < p.size <= MAX_PACKAGE_BYTES && policy.hash(bytes) == p.sha256
  }

  // ---------- One staging ----------

  /** The leading number of a staged file's name, and the package name after the dash. */
  datatype StagedName = StagedName(releaseSequence: int, package: JsString)

  datatype Request = Request(manifest: Manifest, signed: bool, now: int, downloaded: Bytes)

  /** Which operations work; a failing copy may leave something behind. */
  datatype Io = Io(read: bool, directory: bool, copy: bool, left: Option<Bytes>, reread: bool, persist: bool, cleanup: bool)

  datatype State = State(
    currentVersion: JsString, file: StateFile, staged: map<StagedName, Bytes>,
    accepted: seq<Manifest>) // history

  datatype Outcome = Staged(name: StagedName) | Failed(error: UpdateError)

  function LoadState(current: JsString, file: StateFile): Option<SecurityState> {
    match file
    case Missing => Some(SecurityState(0, current, None))
    case Unreadable => None
    case Stored(state) =>
      if state.highestReleaseSequence < 0 || state.highestSeenVersion == [] then None
      else if state.lastSourceCommit.Some? && !IsCommit(state.lastSourceCommit.value) then None
      else Some(state)
  }

  function NameOf(m: Manifest): StagedName
    requires m.releaseSequence.Some? && m.package.Some?
  {
    StagedName(m.releaseSequence.value, m.package.value.name)
  }

  function NextState(m: Manifest): SecurityState
    requires m.releaseSequence.Some?
  {
    SecurityState(m.releaseSequence.value, m.version, Some(m.sourceCommit))
  }

  function Leftover(staged: map<StagedName, Bytes>, name: StagedName, left: Option<Bytes>): map<StagedName, Bytes> {
    if left.Some? then staged[name := left.value] else staged
  }

  /** `stageVerifiedCandidate`. */
  function Stage(policy: Policy, s: State, q: Request, io: Io): (State, Outcome) {
    var state := LoadState(s.currentVersion, s.file);
    if state.None? then (s, Failed(StateInvalid))
    else
      var problem := VerifyOnline(policy, q.manifest, q.signed, s.currentVersion, state.value, q.now);
      if problem.Some? then (s, Failed(problem.value)) else Deposit(policy, s, q, io)
  }

  /** The part of it after the manifest was found acceptable. */
  function Deposit(policy: Policy, s: State, q: Request, io: Io): (State, Outcome)
    requires q.manifest.releaseSequence.Some? && q.manifest.package.Some?
  {
    var name := NameOf(q.manifest);
    if !io.read || !PackageMatches(policy, q.manifest.package.value, q.downloaded) then (s, Failed(PackageMismatch))
    else if !io.directory then (s, Failed(StagingFailed))
    else if name in s.staged then (s, Failed(Collision))
    else if !io.copy then (s.(staged := Leftover(s.staged, name, io.left)), Failed(StagingFailed))
    else if !io.reread || !io.persist then
      (s.(staged := if io.cleanup then s.staged else s.staged[name := q.downloaded]),
       Failed(if io.reread then PersistFailed else PackageMismatch))
    else
      (s.(file := Stored(NextState(q.manifest)), staged := s.staged[name := q.downloaded],
          accepted := s.accepted + [q.manifest]), Staged(name))
  }

  /** `verifyStagedCandidate`, as far as the stored state decides it. */
  predicate StagedMatchesState(s: State, m: Manifest) {
    var state := LoadState(s.currentVersion, s.file);
    && state.Some? && m.releaseSequence == Some(state.value.highestReleaseSequence)
    && m.version == state.value.highestSeenVersion && state.value.lastSourceCommit == Some(m.sourceCommit)
  }

  class Manager {
    const policy: Policy
    var currentVersion: JsString
    var file: StateFile
    var staged: map<StagedName, Bytes>
    ghost var accepted: seq<Manifest>

    ghost function View(): State
      reads this
    {
      State(currentVersion, file, staged, accepted)
    }

    constructor (policy: Policy, currentVersion: JsString, file: StateFile)
      ensures View() == State(currentVersion, file, map[], []) && this.policy == policy
    {
      this.policy, this.currentVersion, this.file := policy, currentVersion, file;
      staged, accepted := map[], [];
    }

    method StageVerifiedCandidate(q: Request, io: Io) returns (outcome: Outcome)
      modifies this
      ensures (View(), outcome) == Stage(policy, old(View()), q, io)
    {
      hide VerifyOnline, PackageMatches;
      var state := LoadState(currentVersion, file);
      if state.None? {
        return Failed(StateInvalid);
      }
      var problem := VerifyOnline(policy, q.manifest, q.signed, currentVersion, state.value, q.now);
      if problem.Some? {
        return Failed(problem.value);
      }
      AcceptedIsComplete(policy, q.manifest, q.signed, currentVersion, state.value, q.now);
      var m := q.manifest;
      if !io.read || !PackageMatches(policy, m.package.value, q.downloaded) {
        return Failed(PackageMismatch);
      }
      if !io.directory {
        return Failed(StagingFailed);
      }
      var name := NameOf(m);
      if name in staged {
        return Failed(Collision);
      }
      if !io.copy {
        staged := Leftover(staged, name, io.left);
        return Failed(StagingFailed);
      }
      ghost var before := staged;
      staged := staged[name := q.downloaded];
      if !io.reread || !io.persist {
        if io.cleanup {
          staged := staged - {name};
          assert staged == before;
        }
        return Failed(if io.reread then PersistFailed else PackageMismatch);
      }
      file := Stored(NextState(m));
      accepted := accepted + [m];
      return Staged(name);
    }
  }

  lemma AcceptedIsComplete(policy: Policy, m: Manifest, signed: bool, current: JsString, state: SecurityState, now: int)
    requires VerifyOnline(policy, m, signed, current, state, now).None?
    ensures m.releaseSequence.Some? && m.package.Some? && m.version != []
    ensures m.releaseSequence.value > state.highestReleaseSequence && Newer(m.version, state.highestSeenVersion)
    ensures Newer(m.version, current) && signed
  {
    hide Newer, Compare, WindowHolds, PackageHolds, Hex;
  }

  // ---------- What is accepted ----------

  predicate LowerHex(s: JsString) {
    forall c :: c in s ==> '0' as int <= c <= '9' as int || 'a' as int <= c <= 'f' as int
  }

  predicate NameCharacter(c: CodeUnit) {
    || '0' as int <= c <= '9' as int || 'A' as int <= c <= 'Z' as int || 'a' as int <= c <= 'z' as int
    || c in {'.' as int, '-' as int, '_' as int}
  }

  /** What a manifest must be, field by field; times are in milliseconds. */
  predicate Acceptable(policy: Policy, m: Manifest, signed: bool, current: JsString, state: SecurityState, now: int) {
    && m.supportedSchema && signed && m.product == policy.product && m.channel == policy.channel && m.version != []
    && Newer(m.version, current) && Newer(m.version, state.highestSeenVersion)
    && m.releaseSequence.Some? && m.releaseSequence.value > state.highestReleaseSequence
    && |m.sourceCommit| in {40, 64} && LowerHex(m.sourceCommit)
    && m.issuedAt.Some? && m.expiresAt.Some?
    && m.issuedAt.value <= now + 300_000 && now < m.expiresAt.value
    && 0 < m.expiresAt.value - m.issuedAt.value <= 31 * 86_400_000
    && m.package.Some?
    && var p := m.package.value;
       && 0 < |p.name| <= 200 && p.name[0] !in {'.' as int, '-' as int, '_' as int}
       && (forall c :: c in p.name ==> NameCharacter(c))
       && |p.sha256| == 64 && LowerHex(p.sha256) && 0 < p.size <= 1_073_741_824 && p.urlTrusted
  }

  lemma HexIs(s: JsString, n: nat)
    ensures Hex(s, n) <==> |s| == n && LowerHex(s)
  {
    assert forall i :: 0 <= i < |s| ==> s[i] in s;
  }

  lemma NameIs(s: JsString)
    ensures PackageName(s) <==>
      && 0 < |s| <= 200 && s[0] !in {'.' as int, '-' as int, '_' as int} && forall c :: c in s ==> NameCharacter(c)
  {
    assert forall i :: 0 <= i < |s| ==> s[i] in s;
    if 0 < |s| && forall c :: c in s ==> NameCharacter(c) {
      assert forall i :: 0 <= i < |s| ==> NameCharacter(s[i]);
    }
  }

  /** The checks pass exactly on such a manifest. */
  lemma AcceptedIff(policy: Policy, m: Manifest, signed: bool, current: JsString, state: SecurityState, now: int)
    ensures VerifyOnline(policy, m, signed, current, state, now).None? <==> Acceptable(policy, m, signed, current, state, now)
  {
    HexIs(m.sourceCommit, 40);
    HexIs(m.sourceCommit, 64);
    if m.package.Some? {
      HexIs(m.package.value.sha256, 64);
      NameIs(m.package.value.name);
    }
    hide Hex, LowerHex, NameCharacter, PackageName, Compare;
  }

  /** A manifest with a single flaw is refused for that flaw. */
  lemma FlawIsNamed(policy: Policy, m: Manifest, current: JsString, state: SecurityState, now: int)
    requires Acceptable(policy, m, true, current, state, now)
    ensures var verify := (x: Manifest) => VerifyOnline(policy, x, true, current, state, now);
      && verify(m.(supportedSchema := false)) == Some(UnsupportedSchema)
      && VerifyOnline(policy, m, false, current, state, now) == Some(BadSignature)
      && (forall x :: x != m.product ==> verify(m.(product := x)) == Some(UnexpectedProduct))
      && (forall x :: x != m.channel ==> verify(m.(channel := x)) == Some(UnexpectedChannel))
      && verify(m.(version := [])) == Some(Incomplete)
      && (forall n: int :: n <= state.highestReleaseSequence ==> verify(m.(releaseSequence := Some(n))) == Some(StaleSequence))
      && verify(m.(sourceCommit := [])) == Some(InvalidCommit)
      && (forall t: int :: t <= now ==> verify(m.(expiresAt := Some(t))) == Some(InvalidWindow))
      && (forall t: int :: t > now + 300_000 ==> verify(m.(issuedAt := Some(t))) == Some(InvalidWindow))
      && verify(m.(package := None)) == Some(Incomplete)
      && (forall n: int :: n <= 0 ==> verify(m.(package := Some(m.package.value.(size := n)))) == Some(InvalidPackage))
      && verify(m.(package := Some(m.package.value.(urlTrusted := false)))) == Some(InvalidPackage)
  {
    AcceptedIff(policy, m, true, current, state, now);
    hide Newer, Compare, PackageName, LowerHex, NameCharacter;
  }

  /** A version that is not newer than the installed one, or than the highest seen, is refused as old or as a replay. */
  lemma OldVersionIsRefused(policy: Policy, m: Manifest, version: JsString, current: JsString, state: SecurityState, now: int)
    requires Acceptable(policy, m, true, current, state, now) && version != []
    requires Compare(version, current).Some? && Compare(version, state.highestSeenVersion).Some?
    ensures var r := VerifyOnline(policy, m.(version := version), true, current, state, now);
      && (!Newer(version, current) ==> r == Some(NotNewer))
      && (Newer(version, current) && !Newer(version, state.highestSeenVersion) ==> r == Some(Replay))
      && (Newer(version, current) && Newer(version, state.highestSeenVersion) ==> r == None)
  {
    AcceptedIff(policy, m, true, current, state, now);
    AcceptedIff(policy, m.(version := version), true, current, state, now);
    hide Newer, Compare, PackageName, LowerHex, NameCharacter, WindowHolds, PackageHolds, IsCommit;
  }

  /** A package is staged exactly when its manifest is acceptable, its bytes are the announced ones, and every operation works. */
  lemma StagedIff(policy: Policy, s: State, q: Request, io: Io)
    ensures Stage(policy, s, q, io).1.Staged? <==>
      var state := LoadState(s.currentVersion, s.file);
      && state.Some? && Acceptable(policy, q.manifest, q.signed, s.currentVersion, state.value, q.now)
      && |q.downloaded| == q.manifest.package.value.size && policy.hash(q.downloaded) == q.manifest.package.value.sha256
      && io.read && io.directory && io.copy && io.reread && io.persist
      && StagedName(q.manifest.releaseSequence.value, q.manifest.package.value.name) !in s.staged
    ensures Stage(policy, s, q, io).1.Staged? ==>
      var r := Stage(policy, s, q, io).0;
      var m := q.manifest;
      && r.staged == s.staged[StagedName(m.releaseSequence.value, m.package.value.name) := q.downloaded]
      && r.file == Stored(SecurityState(m.releaseSequence.value, m.version, Some(m.sourceCommit)))
  {
    var state := LoadState(s.currentVersion, s.file);
    hide VerifyOnline, Newer, PackageName, LowerHex, NameCharacter, LoadState;
    if state.Some? {
      AcceptedIff(policy, q.manifest, q.signed, s.currentVersion, state.value, q.now);
    }
  }

  // ---------- Runs ----------

  /** Stagings, with restarts into another installed version and staged files coming and going in between. */
  datatype Event = TryStage(q: Request, io: Io) | Restart(version: JsString) | StagedChange(staged: map<StagedName, Bytes>)

  function Next(policy: Policy, s: State, e: Event): State {
    match e
    case TryStage(q, io) => Stage(policy, s, q, io).0
    case Restart(version) => s.(currentVersion := version)
    case StagedChange(staged) => s.(staged := staged)
  }

  function After(policy: Policy, s: State, events: seq<Event>): State
    decreases |events|
  {
    if events == [] then s else After(policy, Next(policy, s, events[0]), events[1..])
  }

  predicate Outranks(later: Manifest, earlier: Manifest) {
    && later.releaseSequence.Some? && earlier.releaseSequence.Some?
    && earlier.releaseSequence.value < later.releaseSequence.value && Newer(later.version, earlier.version)
  }

  ghost predicate Climbing(accepted: seq<Manifest>) {
    forall i, j :: 0 <= i < j < |accepted| ==> Outranks(accepted[j], accepted[i])
  }

  /** The stored state is that of the last accepted manifest. */
  ghost predicate Inv(s: State) {
    && Climbing(s.accepted)
    && (s.accepted != [] ==>
          var last := s.accepted[|s.accepted| - 1];
          last.releaseSequence.Some? && s.file == Stored(NextState(last)))
  }

  lemma OutranksChain(a: Manifest, b: Manifest, c: Manifest)
    requires Outranks(a, b) && Outranks(b, c)
    ensures Outranks(a, c) && a != b
  {
    hide Newer;
    NewerIsStrictOrder(a.version, b.version, c.version);
    NewerIsStrictOrder(a.version, a.version, a.version);
  }

  /** A failed staging leaves the security state as it was; a successful one comes after everything accepted so far. */
  lemma StagingKeeps(policy: Policy, s: State, q: Request, io: Io)
    requires Inv(s)
    ensures var (r, outcome) := Stage(policy, s, q, io);
      && Inv(r)
      && (outcome.Failed? ==> r.file == s.file && r.accepted == s.accepted)
      && (outcome.Staged? ==>
            && r.accepted == s.accepted + [q.manifest] && q.signed && q.manifest.package.Some?
            && outcome.name in r.staged && policy.hash(r.staged[outcome.name]) == q.manifest.package.value.sha256
            && forall i :: 0 <= i < |s.accepted| ==> Outranks(q.manifest, s.accepted[i]))
  {
    hide VerifyOnline, Newer, PackageName;
    var state := LoadState(s.currentVersion, s.file);
    if state.Some? && VerifyOnline(policy, q.manifest, q.signed, s.currentVersion, state.value, q.now).None? {
      AcceptedIsComplete(policy, q.manifest, q.signed, s.currentVersion, state.value, q.now);
      forall i | 0 <= i < |s.accepted|
        ensures Outranks(q.manifest, s.accepted[i])
      {
        var last := s.accepted[|s.accepted| - 1];
        assert Outranks(q.manifest, last);
        if i < |s.accepted| - 1 {
          OutranksChain(q.manifest, last, s.accepted[i]);
        }
      }
    }
  }

  lemma {:induction false} RunKeeps(policy: Policy, s: State, events: seq<Event>)
    requires Inv(s)
    ensures Inv(After(policy, s, events)) && s.accepted <= After(policy, s, events).accepted
    decreases |events|
  {
    hide Stage, Inv;
    if events != [] {
      var r := Next(policy, s, events[0]);
      assert Inv(r) && s.accepted <= r.accepted by {
        EventKeeps(policy, s, events[0]);
      }
      RunKeeps(policy, r, events[1..]);
    }
  }

  lemma EventKeeps(policy: Policy, s: State, e: Event)
    requires Inv(s)
    ensures Inv(Next(policy, s, e)) && s.accepted <= Next(policy, s, e).accepted
  {
    hide Stage;
    if e.TryStage? {
      StagingKeeps(policy, s, e.q, e.io);
    }
  }

  /** A staged candidate still verifies only while its manifest's mark is the latest accepted one. */
  lemma StagedIsLatest(s: State, m: Manifest)
    requires Inv(s) && s.accepted != [] && StagedMatchesState(s, m)
    ensures var last := s.accepted[|s.accepted| - 1];
      m.releaseSequence == last.releaseSequence && m.version == last.version && m.sourceCommit == last.sourceCommit
  {
  }

  /**
   * Along any run from any stored state, through failures, restarts and lost files, the accepted versions and release
   * sequences strictly increase, so no manifest is staged twice, and one that was followed by another no longer verifies.
   */
  lemma AntiReplay(policy: Policy, s: State, events: seq<Event>, i: nat, j: nat)
    requires s.accepted == [] && i < j < |After(policy, s, events).accepted|
    ensures var r := After(policy, s, events);
      && r.accepted[i].releaseSequence.Some? && r.accepted[j].releaseSequence.Some?
      && r.accepted[i].releaseSequence.value < r.accepted[j].releaseSequence.value
      && Newer(r.accepted[j].version, r.accepted[i].version) && r.accepted[i] != r.accepted[j]
      && !StagedMatchesState(r, r.accepted[i])
  {
    hide After, Newer, StagedMatchesState;
    RunKeeps(policy, s, events);
    var r := After(policy, s, events);
    assert Outranks(r.accepted[j], r.accepted[i]);
    assert Outranks(r.accepted[|r.accepted| - 1], r.accepted[i]);
    if StagedMatchesState(r, r.accepted[i]) {
      StagedIsLatest(r, r.accepted[i]);
    }
  }

  /** Once accepted, a manifest is refused for ever, whatever happened in between. */
  lemma ReplayIsRefused(policy: Policy, s: State, events: seq<Event>, m: Manifest, q: Request, io: Io)
    requires Inv(s) && m in s.accepted && q.manifest == m
    ensures Stage(policy, After(policy, s, events), q, io).1.Failed?
  {
    hide After, Stage;
    RunKeeps(policy, s, events);
    var r := After(policy, s, events);
    var i :| 0 <= i < |s.accepted| && s.accepted[i] == m;
    assert r.accepted[i] == m;
    StagingKeeps(policy, r, q, io);
    if Stage(policy, r, q, io).1.Staged? {
      assert Outranks(m, m);
      OutranksChain(m, m, m);
    }
  }
}
