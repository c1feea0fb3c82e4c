/** app.js: the archive pipeline, and what a SAFE answer means for the whole archive. */
module ArchivePipeline {
  import opened Prelude
  import opened ZipFormat
  import opened Crc32
  import R = EntryReader
  import I = ArchiveInspector
  import A = ZipAgreement

  // ---------- Inspection ----------

  datatype Status =
    | Completed | PartialTimeout | NonGta | UnsupportedFormat | Malformed | TooLarge | InvalidInput

  datatype Inspection = Inspection(
    status: Status, succeeded: bool, isZip: bool, gtaRelevant: bool, possibleBomb: bool, malformed: nat, report: I.Report)

  const NO_REPORT := I.Report(0, 0, 0, 0, 0, 0, 0, 0, 0, 0, false, [], [])
  const MAX_DECLARED := 5 * 1024 * 1024 * 1024

  function Declared(entries: seq<I.Listed>): nat {
    if entries == [] then 0 else Declared(entries[..|entries| - 1]) + entries[|entries| - 1].uncompressedSize
  }

  function Unfinished(status: Status, succeeded: bool): Inspection {
    Inspection(status, succeeded, true, false, false, 0, NO_REPORT)
  }

  /** `inspectZip`: `lateLoad` says whether the budget is spent once the file is in memory. */
  function InspectResult(tools: I.Tools, b: seq<byte>, outerRelevant: bool, lateLoad: bool, late: nat -> bool): Inspection {
    if |b| > MAX_ARCHIVE_SIZE then Unfinished(TooLarge, false)
    else if lateLoad then Unfinished(PartialTimeout, true)
    else
      match I.ParseResult(tools, b)
      case Rejected(error) =>
        Unfinished(if error == I.Zip64NotSupported || error == I.MultiDiskNotSupported then UnsupportedFormat else Malformed, false)
      case Listing(entries, malformed, _) =>
        var report := I.Classification(tools, entries, I.StopAt(late, 0, |entries|));
        var relevant := outerRelevant || report.relevant > 0;
        Inspection(
          if report.timedOut then PartialTimeout else if !relevant then NonGta else Completed,
          true, true, relevant, Declared(entries) > MAX_DECLARED, malformed, report)
  }

  method InspectZip(tools: I.Tools, b: seq<byte>, outerRelevant: bool, lateLoad: bool, late: nat -> bool)
    returns (r: Inspection)
    ensures r == InspectResult(tools, b, outerRelevant, lateLoad, late)
  {
    hide I.ParseResult, I.Classification, I.StopAt;
    if |b| > MAX_ARCHIVE_SIZE {
      return Unfinished(TooLarge, false);
    }
    if lateLoad {
      return Unfinished(PartialTimeout, true);
    }
    var parsed := I.ParseZipCentralDirectory(tools, b);
    if parsed.Rejected? {
      var unsupported := parsed.error == I.Zip64NotSupported || parsed.error == I.MultiDiskNotSupported;
      return Unfinished(if unsupported then UnsupportedFormat else Malformed, false);
    }
    var report := I.ClassifyEntries(tools, parsed.entries, late);
    var declared := 0;
    for i := 0 to |parsed.entries|
      invariant declared == Declared(parsed.entries[..i])
    {
      assert parsed.entries[..i + 1][..i] == parsed.entries[..i];
      declared := declared + parsed.entries[i].uncompressedSize;
    }
    assert parsed.entries[..|parsed.entries|] == parsed.entries;
    var relevant := outerRelevant || report.relevant > 0;
    var status := Completed;
    if report.timedOut { status := PartialTimeout; } else if !relevant { status := NonGta; }
    return Inspection(status, true, true, relevant, declared > MAX_DECLARED, parsed.malformed, report);
  }

  /** The end record sends the parser to ZIP64 or to another disk. */
  predicate NeedsMore(e: EndRecord) {
    || e.totalEntries == 0xffff || e.directorySize == 0xffff_ffff || e.directoryOffset == 0xffff_ffff
    || e.totalEntries != e.entriesThisDisk
  }

  /** The headers the end record announces fill its directory, inside the file, from its first byte to its last. */
  ghost predicate Listable(tools: I.Tools, b: seq<byte>, e: EndRecord) {
    && e.totalEntries <= MAX_ENTRIES && e.directoryOffset + e.directorySize <= |b|
    && var end := e.directoryOffset + e.directorySize;
       var walk := I.LooseWalk(tools, b, e.directoryOffset, end, e.totalEntries);
       walk.Some? && walk.value.offset == end
  }

  /** The archive is within the size limit and loaded in time; `e` is its end record. */
  ghost predicate Loaded(b: seq<byte>, lateLoad: bool) {
    |b| <= 150 * 1024 * 1024 && !lateLoad
  }

  /** Each status has its own condition on the bytes and the clock. */
  lemma StatusIff(tools: I.Tools, b: seq<byte>, outerRelevant: bool, lateLoad: bool, late: nat -> bool)
    ensures EndOf(b).Some? ==> EndOf(b).value + END_SIZE <= |b|
    ensures var r, at := InspectResult(tools, b, outerRelevant, lateLoad, late), EndOf(b);
      var parsed := at.Some? && !NeedsMore(EndRecordAt(b, at.value)) && Listable(tools, b, EndRecordAt(b, at.value));
      && (r.status == TooLarge <==> |b| > 150 * 1024 * 1024)
      && (r.status == UnsupportedFormat <==> Loaded(b, lateLoad) && at.Some? && NeedsMore(EndRecordAt(b, at.value)))
      && (r.status == Malformed <==>
            Loaded(b, lateLoad) && (at.None? || (!NeedsMore(EndRecordAt(b, at.value)) && !Listable(tools, b, EndRecordAt(b, at.value)))))
      && (r.status == PartialTimeout <==>
            (|b| <= 150 * 1024 * 1024 && lateLoad) || (Loaded(b, lateLoad) && parsed && r.report.timedOut))
      && (r.status == NonGta <==>
            Loaded(b, lateLoad) && parsed && !r.report.timedOut && !outerRelevant && r.report.relevant == 0)
      && (r.status == Completed <==>
            Loaded(b, lateLoad) && parsed && !r.report.timedOut && (outerRelevant || r.report.relevant > 0))
      && (r.succeeded <==> r.status in {Completed, PartialTimeout, NonGta})
  {
    hide U16, U32, I.LooseWalk, I.Classification, I.StopAt;
    LastEndRecordIsLast(b, |b| - END_SIZE);
  }

  // ---------- Pipeline ----------

  datatype Verdict = Safe | Suspicious | Malicious | Invalid | Inconclusive

  /** The plugin engine and the script analyzer, each a verdict on a name and its bytes. */
  datatype Analyzers = Analyzers(plugin: (JsString, seq<byte>) -> Verdict, script: (JsString, seq<byte>) -> Verdict)

  const MAX_PLUGINS := 4
  const MAX_SCRIPTS := 8
  const MAX_PLUGIN_BYTES := 64 * 1024 * 1024
  const MAX_SCRIPT_BYTES := 16 * 1024 * 1024
  const MAX_SCRIPT_SIZE := 4 * 1024 * 1024

  function TotalSize(ts: seq<Target>): int {
    if ts == [] then 0 else TotalSize(ts[..|ts| - 1]) + ts[|ts| - 1].uncompressedSize
  }

  /** The archive as the pipeline sees it: its declared size, its bytes, and the parties that read and judge it. */
  datatype Job = Job(p: R.Platform, tools: I.Tools, analyzers: Analyzers, size: int, bytes: seq<byte>)

  /** An entry's bytes were extracted with verified checksum and size, and the analyzer called them safe. */
  ghost predicate VerifiedSafe(job: Job, judge: (JsString, seq<byte>) -> Verdict, t: Target) {
    var r := R.ReadResult(job.p, job.size, Some(job.bytes), t);
    r.Ok? && CrcNumber(r.value) == t.crc32 && |r.value| == t.uncompressedSize && judge(t.path, r.value) == Safe
  }

  /** The three flags of the scan loops and the number of results recorded. */
  datatype Findings = Findings(malicious: bool, suspicious: bool, inconclusive: bool, results: nat)

  function Judged(f: Findings, v: Verdict): Findings {
    Findings(
      f.malicious || v == Malicious, f.suspicious || v == Suspicious || v == Invalid,
      f.inconclusive || v == Inconclusive, f.results + 1)
  }

  predicate Clean(f: Findings) {
    !f.malicious && !f.suspicious && !f.inconclusive
  }

  /** The target can be read, and its analyzer says `v` of it. */
  ghost predicate JudgedAs(job: Job, judge: (JsString, seq<byte>) -> Verdict, t: Target, v: Verdict) {
    var r := R.ReadResult(job.p, job.size, Some(job.bytes), t);
    r.Ok? && judge(t.path, r.value) == v
  }

  ghost predicate MaliciousTarget(job: Job, judge: (JsString, seq<byte>) -> Verdict, t: Target) {
    JudgedAs(job, judge, t, Malicious)
  }

  ghost predicate Readable(job: Job, t: Target) {
    R.ReadResult(job.p, job.size, Some(job.bytes), t).Ok?
  }

  /** The analyzer's own size limit, which only scripts have. */
  predicate Within(t: Target, limit: Option<int>) {
    limit.None? || t.uncompressedSize <= limit.value
  }

  /** The loop goes on behind a target that is too large to analyze, or readable and not malicious. */
  ghost predicate Passed(job: Job, judge: (JsString, seq<byte>) -> Verdict, t: Target, limit: Option<int>) {
    Within(t, limit) ==> Readable(job, t) && !MaliciousTarget(job, judge, t)
  }

  ghost predicate Reached(job: Job, judge: (JsString, seq<byte>) -> Verdict, ts: seq<Target>, limit: Option<int>, i: nat)
    requires i < |ts|
  {
    forall j :: 0 <= j < i ==> Passed(job, judge, ts[j], limit)
  }

  ghost predicate Exposed(job: Job, judge: (JsString, seq<byte>) -> Verdict, t: Target, limit: Option<int>) {
    Within(t, limit) && MaliciousTarget(job, judge, t)
  }

  ghost predicate Doubtful(job: Job, judge: (JsString, seq<byte>) -> Verdict, t: Target, limit: Option<int>) {
    Within(t, limit) && (JudgedAs(job, judge, t, Suspicious) || JudgedAs(job, judge, t, Invalid))
  }

  ghost predicate Unsettled(job: Job, judge: (JsString, seq<byte>) -> Verdict, t: Target, limit: Option<int>) {
    Within(t, limit) ==> !Readable(job, t) || JudgedAs(job, judge, t, Inconclusive)
  }

  /** A malicious target of analyzable size that no target in front of it keeps from being looked at; and so on. */
  ghost predicate SomeExposed(job: Job, judge: (JsString, seq<byte>) -> Verdict, ts: seq<Target>, limit: Option<int>) {
    exists i: nat :: i < |ts| && Reached(job, judge, ts, limit, i) && Exposed(job, judge, ts[i], limit)
  }

  ghost predicate SomeDoubtful(job: Job, judge: (JsString, seq<byte>) -> Verdict, ts: seq<Target>, limit: Option<int>) {
    exists i: nat :: i < |ts| && Reached(job, judge, ts, limit, i) && Doubtful(job, judge, ts[i], limit)
  }

  ghost predicate SomeUnsettled(job: Job, judge: (JsString, seq<byte>) -> Verdict, ts: seq<Target>, limit: Option<int>) {
    exists i: nat :: i < |ts| && Reached(job, judge, ts, limit, i) && Unsettled(job, judge, ts[i], limit)
  }

  /** The first `n` targets are within the size limit and verified safe. */
  ghost predicate AllSafe(job: Job, judge: (JsString, seq<byte>) -> Verdict, ts: seq<Target>, limit: Option<int>, n: nat)
    requires n <= |ts|
  {
    forall i :: 0 <= i < n ==> VerifiedSafe(job, judge, ts[i]) && Within(ts[i], limit)
  }

  ghost predicate Timely(late: nat -> bool) {
    forall k: nat :: !late(k)
  }

  /** The clock readings of one call of the reader. */
  datatype ReadClock = ReadClock(scan: nat -> bool, chunks: nat -> bool)

  ghost predicate Punctual(c: ReadClock) {
    Timely(c.scan) && Timely(c.chunks)
  }

  /** One target: read it, judge it, record the result; `stop` is the early exit from the loop. */
  method ScanTarget(job: Job, judge: (JsString, seq<byte>) -> Verdict, t: Target, limit: Option<int>, before: Findings,
                    clock: ReadClock) returns (f: Findings, stop: bool)
    requires !before.malicious
    ensures f.results == before.results + 1 && (stop ==> !Clean(f))
    ensures Clean(f) ==> Clean(before) && VerifiedSafe(job, judge, t) && Within(t, limit)
    ensures Punctual(clock) && Clean(before) && VerifiedSafe(job, judge, t) && Within(t, limit) ==> Clean(f)
    ensures f.malicious ==> stop && Within(t, limit) && MaliciousTarget(job, judge, t)
    ensures Punctual(clock) ==>
      && (stop <==> !Passed(job, judge, t, limit)) && (f.malicious <==> Exposed(job, judge, t, limit))
      && (f.suspicious <==> before.suspicious || Doubtful(job, judge, t, limit))
      && (f.inconclusive <==> before.inconclusive || Unsettled(job, judge, t, limit))
  {
    hide R.ReadResult, R.ReadTimesOut, CrcNumber;
    if !Within(t, limit) {
      return Judged(before, Inconclusive), false;
    }
    if R.ReadTimesOut(job.p, job.size, Some(job.bytes), t, clock.scan, clock.chunks) {
      R.LateSomewhere(job.p, job.size, Some(job.bytes), t, clock.scan, clock.chunks);
    }
    var read := R.ReadEntry(job.p, job.size, Some(job.bytes), t, clock.scan, clock.chunks);
    if read.Err? {
      return Judged(before, Inconclusive), true;
    }
    R.ReadIsVerified(job.p, job.size, Some(job.bytes), t, read.value);
    var verdict := judge(t.path, read.value);
    return Judged(before, verdict), verdict == Malicious;
  }

  ghost predicate AllTimely(late: nat -> bool, readings: nat -> ReadClock) {
    Timely(late) && forall k: nat :: Punctual(readings(k))
  }

  /** The flags after the first `n` targets, all of which the loop has passed or stopped at. */
  ghost predicate Flagged(job: Job, judge: (JsString, seq<byte>) -> Verdict, ts: seq<Target>, limit: Option<int>, n: nat,
                          f: Findings)
    requires n <= |ts|
  {
    && (f.malicious <==> exists i: nat :: i < n && Exposed(job, judge, ts[i], limit))
    && (f.suspicious <==> exists i: nat :: i < n && Doubtful(job, judge, ts[i], limit))
    && (f.inconclusive <==> exists i: nat :: i < n && Unsettled(job, judge, ts[i], limit))
  }

  /** The flags of a loop that no clock interrupts. */
  ghost predicate Found(job: Job, judge: (JsString, seq<byte>) -> Verdict, ts: seq<Target>, limit: Option<int>, f: Findings) {
    && (f.malicious <==> SomeExposed(job, judge, ts, limit))
    && (f.suspicious <==> SomeDoubtful(job, judge, ts, limit))
    && (f.inconclusive <==> SomeUnsettled(job, judge, ts, limit))
    && (f.results != |ts| ==> f.malicious || f.inconclusive)
  }

  /** The loop over `n` targets went through, or ended at the last of them, which does not let it pass. */
  lemma FlagsAreFound(job: Job, judge: (JsString, seq<byte>) -> Verdict, ts: seq<Target>, limit: Option<int>, n: nat, f: Findings)
    requires n <= |ts| && Flagged(job, judge, ts, limit, n, f) && f.results == n
    requires forall j :: 0 <= j < n - 1 ==> Passed(job, judge, ts[j], limit)
    requires n < |ts| ==> n > 0 && !Passed(job, judge, ts[n - 1], limit)
    ensures Found(job, judge, ts, limit, f)
  {
    hide Readable, JudgedAs, Exposed, Doubtful, Unsettled;
    assert forall i: nat :: i < n ==> Reached(job, judge, ts, limit, i);
    assert forall i: nat :: n <= i < |ts| ==> !Reached(job, judge, ts, limit, i);
    if n < |ts| {
      StoppedIsFlagged(job, judge, ts[n - 1], limit);
    }
  }

  lemma StoppedIsFlagged(job: Job, judge: (JsString, seq<byte>) -> Verdict, t: Target, limit: Option<int>)
    requires !Passed(job, judge, t, limit)
    ensures Exposed(job, judge, t, limit) || Unsettled(job, judge, t, limit)
  {
  }

  lemma OneMoreFlagged(job: Job, judge: (JsString, seq<byte>) -> Verdict, ts: seq<Target>, limit: Option<int>, n: nat,
                       f: Findings, g: Findings)
    requires n < |ts| && Flagged(job, judge, ts, limit, n, f)
    requires g.malicious <==> f.malicious || Exposed(job, judge, ts[n], limit)
    requires g.suspicious <==> f.suspicious || Doubtful(job, judge, ts[n], limit)
    requires g.inconclusive <==> f.inconclusive || Unsettled(job, judge, ts[n], limit)
    ensures Flagged(job, judge, ts, limit, n + 1, g)
  {
    hide Exposed, Doubtful, Unsettled;
  }

  method ScanTargets(job: Job, judge: (JsString, seq<byte>) -> Verdict, ts: seq<Target>, limit: Option<int>,
                     late: nat -> bool, readings: nat -> ReadClock) returns (f: Findings)
    ensures f.results <= |ts|
    ensures Clean(f) ==> f.results == |ts| && AllSafe(job, judge, ts, limit, |ts|)
    ensures AllTimely(late, readings) && AllSafe(job, judge, ts, limit, |ts|) ==> Clean(f)
    ensures f.malicious ==> exists i :: 0 <= i < |ts| && MaliciousTarget(job, judge, ts[i])
    ensures AllTimely(late, readings) ==> Found(job, judge, ts, limit, f)
  {
    hide VerifiedSafe, JudgedAs, MaliciousTarget, Readable, Passed, Exposed, Doubtful, Unsettled, Flagged, Found;
    f := Findings(false, false, false, 0);
    var i := 0;
    NothingFlagged(job, judge, ts, limit);
    while i < |ts|
      invariant i <= |ts| && f.results == i && !f.malicious
      invariant Clean(f) ==> AllSafe(job, judge, ts, limit, i)
      invariant AllTimely(late, readings) && AllSafe(job, judge, ts, limit, |ts|) ==> Clean(f)
      invariant AllTimely(late, readings) ==>
        Flagged(job, judge, ts, limit, i, f) && forall j :: 0 <= j < i ==> Passed(job, judge, ts[j], limit)
    {
      if late(i) {
        f := f.(inconclusive := true);
        return;
      }
      ghost var before := f;
      var stop;
      f, stop := ScanTarget(job, judge, ts[i], limit, f, readings(i));
      if AllTimely(late, readings) {
        OneMoreFlagged(job, judge, ts, limit, i, before, f);
      }
      if stop {
        if AllTimely(late, readings) {
          FlagsAreFound(job, judge, ts, limit, i + 1, f);
        }
        return;
      }
      i := i + 1;
    }
    if AllTimely(late, readings) {
      FlagsAreFound(job, judge, ts, limit, i, f);
    }
  }

  lemma NothingFlagged(job: Job, judge: (JsString, seq<byte>) -> Verdict, ts: seq<Target>, limit: Option<int>)
    ensures Flagged(job, judge, ts, limit, 0, Findings(false, false, false, 0))
  {
  }

  /** Packaging evidence that excludes SAFE whatever the entries are. */
  predicate StructurallySuspicious(ins: Inspection) {
    || ins.possibleBomb || ins.report.suspiciousPaths > 0 || ins.report.doubleExtensions > 0
    || ins.report.duplicatePaths > 0 || ins.malformed > 0
  }

  /** Content that no analyzer looked at. */
  predicate UnscannedContent(ins: Inspection) {
    || ins.report.executables > 0 || ins.report.nested > 0 || ins.report.unknown > 0
    || ins.report.plugins != |ins.report.pluginTargets| || ins.report.scripts != |ins.report.scriptTargets|
  }

  /** Inspection finished, found something to scan, and the declared amounts are within the budgets. */
  predicate Scannable(ins: Inspection) {
    var plugins, scripts := ins.report.pluginTargets, ins.report.scriptTargets;
    && ins.status == Completed && ins.succeeded && ins.gtaRelevant && ins.isZip
    && 0 < |plugins| + |scripts| && |plugins| <= MAX_PLUGINS && |scripts| <= MAX_SCRIPTS
    && TotalSize(plugins) <= MAX_PLUGIN_BYTES && TotalSize(scripts) <= MAX_SCRIPT_BYTES
  }

  method SumSizes(ts: seq<Target>) returns (sum: int)
    ensures sum == TotalSize(ts)
  {
    sum := 0;
    for i := 0 to |ts|
      invariant sum == TotalSize(ts[..i])
    {
      assert ts[..i + 1][..i] == ts[..i];
      sum := sum + ts[i].uncompressedSize;
    }
    assert ts[..|ts|] == ts;
  }

  /** The clock readings of one run. */
  datatype Clocks = Clocks(
    load: bool, classify: nat -> bool, plugins: nat -> bool, pluginReads: nat -> ReadClock,
    scripts: nat -> bool, scriptReads: nat -> ReadClock)

  ghost predicate OnTime(c: Clocks) {
    && !c.load && Timely(c.classify) && Timely(c.plugins) && Timely(c.scripts)
    && (forall k: nat :: Punctual(c.pluginReads(k))) && (forall k: nat :: Punctual(c.scriptReads(k)))
  }

  /** Exactly when an uninterrupted run answers SAFE. */
  ghost predicate SafeAnswer(job: Job, ins: Inspection) {
    && Scannable(ins) && !StructurallySuspicious(ins) && !UnscannedContent(ins)
    && AllSafe(job, job.analyzers.plugin, ins.report.pluginTargets, None, |ins.report.pluginTargets|)
    && AllSafe(job, job.analyzers.script, ins.report.scriptTargets, Some(MAX_SCRIPT_SIZE), |ins.report.scriptTargets|)
  }

  // ---------- Exactly when an uninterrupted run gives which answer ----------

  ghost predicate FindsExposed(job: Job, ins: Inspection) {
    || SomeExposed(job, job.analyzers.plugin, ins.report.pluginTargets, None)
    || SomeExposed(job, job.analyzers.script, ins.report.scriptTargets, Some(MAX_SCRIPT_SIZE))
  }

  ghost predicate FindsDoubtful(job: Job, ins: Inspection) {
    || SomeDoubtful(job, job.analyzers.plugin, ins.report.pluginTargets, None)
    || SomeDoubtful(job, job.analyzers.script, ins.report.scriptTargets, Some(MAX_SCRIPT_SIZE))
  }

  ghost predicate FindsUnsettled(job: Job, ins: Inspection) {
    || SomeUnsettled(job, job.analyzers.plugin, ins.report.pluginTargets, None)
    || SomeUnsettled(job, job.analyzers.script, ins.report.scriptTargets, Some(MAX_SCRIPT_SIZE))
  }

  /** There was nothing to inspect, or it was inspected to the end and has nothing to do with the game. */
  predicate OutOfScope(ins: Inspection) {
    ins.status == InvalidInput || ins.status == NonGta
  }

  predicate NothingToScan(ins: Inspection) {
    |ins.report.pluginTargets| + |ins.report.scriptTargets| == 0
  }

  /** The archive is broken, or its active entries are all ambiguous, or its packaging or some target is suspicious. */
  ghost predicate SuspiciousAnswer(job: Job, ins: Inspection) {
    || ins.status == Malformed
    || (ins.status == Completed && NothingToScan(ins) && ins.report.plugins + ins.report.scripts > 0)
    || (Scannable(ins) && !FindsExposed(job, ins) && (StructurallySuspicious(ins) || FindsDoubtful(job, ins)))
  }

  /** Inspection is incomplete, or there is nothing or too much to scan, or something remained unscanned or unsettled. */
  ghost predicate InconclusiveAnswer(job: Job, ins: Inspection) {
    || (ins.status in {PartialTimeout, UnsupportedFormat, TooLarge})
    || (ins.status == Completed && NothingToScan(ins) && ins.report.plugins + ins.report.scripts == 0)
    || (ins.status == Completed && !NothingToScan(ins) && !Scannable(ins))
    || (Scannable(ins) && !FindsExposed(job, ins) && !StructurallySuspicious(ins) && !FindsDoubtful(job, ins)
        && (UnscannedContent(ins) || FindsUnsettled(job, ins)))
  }

  lemma SucceededStatuses(tools: I.Tools, b: seq<byte>, outerRelevant: bool, lateLoad: bool, late: nat -> bool)
    ensures var ins := InspectResult(tools, b, outerRelevant, lateLoad, late);
      && (ins.succeeded <==> ins.status == Completed || ins.status == PartialTimeout || ins.status == NonGta)
      && ins.isZip && (ins.status == Completed ==> ins.gtaRelevant)
  {
    hide I.ParseResult, I.Classification, I.StopAt, Declared;
  }

  method RunArchivePipeline(job: Job, outerRelevant: bool, clocks: Clocks) returns (verdict: Verdict)
    ensures var ins := InspectResult(job.tools, job.bytes, outerRelevant, clocks.load, clocks.classify);
      && (verdict == Safe ==> SafeAnswer(job, ins))
      && (verdict == Malicious ==>
           || (exists i :: 0 <= i < |ins.report.pluginTargets| &&
                MaliciousTarget(job, job.analyzers.plugin, ins.report.pluginTargets[i]))
           || (exists i :: 0 <= i < |ins.report.scriptTargets| &&
                MaliciousTarget(job, job.analyzers.script, ins.report.scriptTargets[i])))
      && (Scannable(ins) && StructurallySuspicious(ins) ==> verdict == Malicious || verdict == Suspicious)
      && (verdict == Invalid <==> OutOfScope(ins))
      && (OnTime(clocks) ==>
           && (verdict == Safe <==> SafeAnswer(job, ins))
           && (verdict == Malicious <==> Scannable(ins) && FindsExposed(job, ins))
           && (verdict == Suspicious <==> SuspiciousAnswer(job, ins))
           && (verdict == Inconclusive <==> InconclusiveAnswer(job, ins)))
  {
    hide SomeExposed, SomeDoubtful, SomeUnsettled, InspectResult, AllSafe, MaliciousTarget, TotalSize;
    var ins := InspectZip(job.tools, job.bytes, outerRelevant, clocks.load, clocks.classify);
    SucceededStatuses(job.tools, job.bytes, outerRelevant, clocks.load, clocks.classify);
    if ins.status == InvalidInput { return Invalid; }
    if ins.status == Malformed { return Suspicious; }
    if !ins.succeeded || ins.status == PartialTimeout { return Inconclusive; }
    if ins.status == NonGta || !ins.gtaRelevant { return Invalid; }
    if !ins.isZip { return Inconclusive; }
    var plugins, scripts := ins.report.pluginTargets, ins.report.scriptTargets;
    if |plugins| == 0 && |scripts| == 0 {
      return if ins.report.plugins > 0 || ins.report.scripts > 0 then Suspicious else Inconclusive;
    }
    if |plugins| > MAX_PLUGINS { return Inconclusive; }
    if |scripts| > MAX_SCRIPTS { return Inconclusive; }
    var pluginBytes := SumSizes(plugins);
    if pluginBytes > MAX_PLUGIN_BYTES { return Inconclusive; }
    var scriptBytes := SumSizes(scripts);
    if scriptBytes > MAX_SCRIPT_BYTES { return Inconclusive; }
    var pf := ScanTargets(job, job.analyzers.plugin, plugins, None, clocks.plugins, clocks.pluginReads);
    var sf := ScanTargets(job, job.analyzers.script, scripts, Some(MAX_SCRIPT_SIZE), clocks.scripts, clocks.scriptReads);
    if pf.malicious || sf.malicious {
      return Malicious;
    }
    if StructurallySuspicious(ins) || pf.suspicious || sf.suspicious {
      return Suspicious;
    }
    if pf.inconclusive || sf.inconclusive || UnscannedContent(ins) ||
       pf.results != |plugins| || sf.results != |scripts| {
      return Inconclusive;
    }
    return Safe;
  }

  // ---------- What SAFE means ----------

  /** The file entry is an asset, or its bytes were extracted, verified and individually judged safe. */
  ghost predicate Accounted(job: Job, e: I.Listed) {
    match I.TypeOf(job.tools, e)
    case AssetMod | MetadataMod => true
    case PluginMod => VerifiedSafe(job, job.analyzers.plugin, I.TargetOf(Plugin, e))
    case ScriptMod => VerifiedSafe(job, job.analyzers.script, I.TargetOf(Script, e))
    case _ => false
  }

  /** Every header of the central directory was listed, and no file in it is unexplained, ambiguous or suspicious. */
  ghost predicate Covered(job: Job) {
    var listing := I.ParseResult(job.tools, job.bytes);
    && listing.Listing? && listing.malformed == 0 && listing.declared == |listing.entries|
    && forall i :: 0 <= i < |listing.entries| && !I.IsDirectory(listing.entries[i]) ==>
         var e := listing.entries[i];
         && Accounted(job, e)
         && !I.SuspiciousPath(e.name)
         && !I.DoublyNamed(job.tools)(e)
         && forall j :: 0 <= j < i && !I.IsDirectory(listing.entries[j]) ==>
              I.Normal(job.tools, listing.entries[j]) != I.Normal(job.tools, e)
  }

  lemma {:induction false} CountZero<T>(f: T -> bool, s: seq<T>, i: nat)
    requires i < |s| && I.Count(f, s) == 0
    ensures !f(s[i])
  {
    if f(s[i]) {
      A.NotCounted(f, s, i);
    }
  }

  lemma {:induction false} NoDuplicates(tools: I.Tools, s: seq<I.Listed>, i: nat, j: nat)
    requires j < i < |s| && I.Duplicates(tools, s) == 0 && !I.IsDirectory(s[i]) && !I.IsDirectory(s[j])
    ensures I.Normal(tools, s[j]) != I.Normal(tools, s[i])
    decreases |s|
  {
    hide I.IsDirectory, I.Normal;
    var init := s[..|s| - 1];
    if i < |init| {
      NoDuplicates(tools, init, i, j);
    } else {
      CountZero(I.Named(tools, I.Normal(tools, s[i])), init, j);
    }
  }

  function OfKind(tools: I.Tools, kind: TargetKind): I.Listed -> bool {
    I.OfTypes(tools, if kind == Plugin then {I.PluginMod} else {I.ScriptMod})
  }

  /** Descriptors are offered only for entries of their kind. */
  lemma {:induction false} TargetsAreFew(tools: I.Tools, all: seq<I.Listed>, kind: TargetKind, s: seq<I.Listed>)
    requires kind != Unspecified
    ensures |I.Targets(tools, all, kind, s)| <= I.Count(OfKind(tools, kind), s)
  {
    hide I.SuspiciousPath, IsPluginName, IsScriptName;
    if s != [] {
      TargetsAreFew(tools, all, kind, s[..|s| - 1]);
    }
  }

  /** When their numbers are equal, every entry of the kind has a descriptor. */
  lemma {:induction false} TargetsAreAll(tools: I.Tools, all: seq<I.Listed>, kind: TargetKind, s: seq<I.Listed>, i: nat)
    returns (k: nat)
    requires kind != Unspecified && i < |s| && OfKind(tools, kind)(s[i])
    requires |I.Targets(tools, all, kind, s)| == I.Count(OfKind(tools, kind), s)
    ensures k < |I.Targets(tools, all, kind, s)| && I.Targets(tools, all, kind, s)[k] == I.TargetOf(kind, s[i])
    decreases |s|
  {
    hide I.SuspiciousPath, IsPluginName, IsScriptName, I.TargetOf;
    var n := |s| - 1;
    TargetsAreFew(tools, all, kind, s[..n]);
    if i == n {
      k := |I.Targets(tools, all, kind, s[..n])|;
    } else {
      k := TargetsAreAll(tools, all, kind, s[..n], i);
    }
  }

  lemma FileAccounted(job: Job, all: seq<I.Listed>, ins: Inspection, i: nat)
    requires i < |all| && !I.IsDirectory(all[i]) && SafeAnswer(job, ins)
    requires ins.report == I.Classification(job.tools, all, |all|)
    ensures Accounted(job, all[i]) && !I.SuspiciousPath(all[i].name) && !I.DoublyNamed(job.tools)(all[i])
  {
    hide VerifiedSafe, I.SuspiciousPath, TotalSize, I.Targets, I.Count, I.Duplicates, I.TargetOf;
    var tools := job.tools;
    assert all[..|all|] == all;
    CountZero(I.Suspicious(), all, i);
    CountZero(I.DoublyNamed(tools), all, i);
    CountZero(I.OfTypes(tools, {I.ArchiveMod, I.PackageMod}), all, i);
    CountZero(I.OfTypes(tools, {I.ExecutableMod, I.OtherMod}), all, i);
    var kind := I.TypeOf(tools, all[i]);
    if kind == I.PluginMod {
      var k := TargetsAreAll(tools, all, Plugin, all, i);
    } else if kind == I.ScriptMod {
      var k := TargetsAreAll(tools, all, Script, all, i);
    }
  }

  /**
   * A SAFE answer is complete coverage: every file of the central directory is an asset or was extracted with
   * verified checksum and individually judged safe, and no duplicate, suspicious, nested, unknown or malformed
   * entry exists.
   */
  lemma SafeIsCoverage(job: Job, outerRelevant: bool, clocks: Clocks)
    requires SafeAnswer(job, InspectResult(job.tools, job.bytes, outerRelevant, clocks.load, clocks.classify))
    ensures Covered(job)
  {
    hide I.ParseResult, I.Classification, SafeAnswer, Accounted, I.SuspiciousPath, I.IsDirectory, I.Normal, Declared;
    var ins := InspectResult(job.tools, job.bytes, outerRelevant, clocks.load, clocks.classify);
    var listing := I.ParseResult(job.tools, job.bytes);
    AnswerFacts(job, ins);
    var all := listing.entries;
    StoppedNowhere(job.tools, all, clocks.classify);
    ParsedEverything(job.tools, job.bytes);
    forall i | 0 <= i < |all| && !I.IsDirectory(all[i])
      ensures Accounted(job, all[i]) && !I.SuspiciousPath(all[i].name) && !I.DoublyNamed(job.tools)(all[i])
    {
      FileAccounted(job, all, ins, i);
    }
    DistinctPaths(job.tools, all, ins.report);
  }

  lemma AnswerFacts(job: Job, ins: Inspection)
    requires SafeAnswer(job, ins)
    ensures ins.status == Completed && ins.malformed == 0 && ins.report.duplicatePaths == 0
  {
    hide AllSafe, TotalSize;
  }

  lemma StoppedNowhere(tools: I.Tools, all: seq<I.Listed>, late: nat -> bool)
    ensures !I.Classification(tools, all, I.StopAt(late, 0, |all|)).timedOut ==> I.StopAt(late, 0, |all|) == |all|
  {
  }

  lemma ParsedEverything(tools: I.Tools, b: seq<byte>)
    ensures var listing := I.ParseResult(tools, b);
      listing.Listing? && listing.malformed == 0 ==> listing.declared == |listing.entries|
  {
    hide I.ParseHead, I.LooseWalk;
  }

  lemma DistinctPaths(tools: I.Tools, all: seq<I.Listed>, report: I.Report)
    requires report == I.Classification(tools, all, |all|) && report.duplicatePaths == 0
    ensures forall i, j :: 0 <= j < i < |all| && !I.IsDirectory(all[i]) && !I.IsDirectory(all[j]) ==>
      I.Normal(tools, all[j]) != I.Normal(tools, all[i])
  {
    assert all[..|all|] == all;
    forall i, j | 0 <= j < i < |all| && !I.IsDirectory(all[i]) && !I.IsDirectory(all[j])
      ensures I.Normal(tools, all[j]) != I.Normal(tools, all[i])
    {
      NoDuplicates(tools, all, i, j);
    }
  }

  function IsFile(): I.Listed -> bool {
    e => !I.IsDirectory(e)
  }

  /** The five type counters partition the files that were classified, and executables are part of the unknown ones. */
  lemma {:induction false} CountersPartition(tools: I.Tools, all: seq<I.Listed>, n: nat)
    requires n <= |all|
    ensures var c := I.Classification(tools, all, n);
      && c.plugins + c.scripts + c.assets + c.nested + c.unknown == I.Count(IsFile(), all[..n])
      && c.executables <= c.unknown
  {
    hide I.Classification, I.SuspiciousPath, I.IsDirectory, I.Offered, I.Normal;
    if n == 0 {
      I.NothingClassified(tools, all);
    } else {
      CountersPartition(tools, all, n - 1);
      I.ClassificationNext(tools, all, n - 1);
      I.CountNext(IsFile(), all, n - 1);
    }
  }
}
