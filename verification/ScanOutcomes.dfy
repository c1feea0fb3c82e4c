/** How each scan ends: what every answer, refusal and interruption settles, and that good scans resolve one after another. */
module ScanOutcomes {
  import opened Prelude
  import opened ScanProtocol
  import opened ScanSafety

  // ---------- Reports and greetings, field by field ----------

  predicate GoodReport(cfg: Contract, mode: Mode, r: Report) {
    r.schema == cfg.schema && r.verdict in cfg.verdicts && r.mode == mode && r.app == cfg.app
  }

  /** The checks of a report are made in this order; `code` belongs to the first that fails. */
  predicate FirstFault(cfg: Contract, mode: Mode, report: Option<Report>, code: Code) {
    match code
    case InvalidResult => report.None?
    case SchemaMismatch => report.Some? && report.value.schema != cfg.schema
    case InvalidVerdict =>
      report.Some? && report.value.schema == cfg.schema && report.value.verdict !in cfg.verdicts
    case ModeMismatch =>
      && report.Some? && report.value.schema == cfg.schema && report.value.verdict in cfg.verdicts
      && report.value.mode != mode
    case AppMismatch => report.Some? && GoodReport(cfg, mode, report.value.(app := cfg.app)) && report.value.app != cfg.app
    case _ => false
  }

  predicate GoodGreeting(cfg: Contract, data: Ready) {
    && data.ready && data.protocol == cfg.protocol && data.version == cfg.version
    && data.hostVersion == cfg.hostVersion && data.schema == cfg.schema
  }

  /** The fields of a greeting are checked in this order; `code` belongs to the first that is wrong. */
  predicate FirstMismatch(cfg: Contract, data: Ready, code: Code) {
    || (!data.ready && code == if data.error.Some? then data.error.value else BootFailed)
    || (data.ready && data.protocol != cfg.protocol && code == ProtocolMismatch)
    || (data.ready && data.protocol == cfg.protocol && data.version != cfg.version && code == ContractMismatch)
    || (data.ready && data.protocol == cfg.protocol && data.version == cfg.version
        && data.hostVersion != cfg.hostVersion && code == VersionMismatch)
    || (GoodGreeting(cfg, data.(schema := cfg.schema)) && data.schema != cfg.schema && code == SchemaMismatch)
  }

  lemma Mismatches(cfg: Contract, data: Ready)
    ensures ReadyProblem(cfg, data).None? <==> GoodGreeting(cfg, data)
    ensures forall code :: ReadyProblem(cfg, data) == Some(code) <==> FirstMismatch(cfg, data, code)
  {
  }

  lemma Faults(cfg: Contract, mode: Mode, report: Option<Report>)
    ensures ReportProblem(cfg, mode, report).None? <==> report.Some? && GoodReport(cfg, mode, report.value)
    ensures forall code :: ReportProblem(cfg, mode, report) == Some(code) <==> FirstFault(cfg, mode, report, code)
  {
  }

  // ---------- What a delivered message settles ----------

  /** The active scan has no outcome yet, so the next one is its only one. */
  lemma Unsettled(s: State)
    requires Indexed(s) && SettledOnce(s) && s.active.Some?
    ensures var c := s.calls[s.active.value.call];
      c.settlements == [] && forall o :: c.settlements + [o] == [o]
    ensures forall o: Outcome, p: Outcome :: [o] == [p] ==> o == p
  {
    assert Open(s, s.active.value.call);
    forall o: Outcome, p: Outcome | [o] == [p]
      ensures o == p
    {
      assert [o][0] == [p][0];
    }
  }

  /** A result under the active id resolves the scan exactly when all four fields are right, and else names the first wrong one. */
  lemma ResultSettles(cfg: Contract, s: State, k: nat, id: RequestId, report: Option<Report>)
    requires Inv(cfg, s) && Enabled(s, Deliver(k)) && s.boots[k].host.outbox[0] == ScanResult(id, report)
    requires s.active.Some? && s.active.value.id == id
    ensures var a, t := s.active.value, Next(cfg, s, Deliver(k));
      && t.active.None? && t.timers == {} && t.worker == s.worker
      && (forall r :: t.calls[a.call].settlements == [Resolved(r)] <==> report == Some(r) && GoodReport(cfg, a.mode, r))
      && (forall code :: t.calls[a.call].settlements == [Rejected(code)] <==> FirstFault(cfg, a.mode, report, code))
      && t.calls == s.calls[a.call := s.calls[a.call].(settlements := t.calls[a.call].settlements)]
  {
    hide HostsHold, WorksForActive, OwnResults, HistoryHolds, OneWorker;
    Unsettled(s);
    Faults(cfg, s.active.value.mode, report);
    hide ReportProblem, GoodReport, FirstFault;
  }

  lemma ErrorSettles(cfg: Contract, s: State, k: nat, id: RequestId, code: Code)
    requires Inv(cfg, s) && Enabled(s, Deliver(k)) && s.boots[k].host.outbox[0] == ScanError(id, code)
    requires s.active.Some? && s.active.value.id == id
    ensures var a, t := s.active.value, Next(cfg, s, Deliver(k));
      && t.active.None? && t.timers == {} && t.worker == s.worker
      && t.calls == s.calls[a.call := s.calls[a.call].(settlements := [Rejected(code)])]
  {
    hide HostsHold, WorksForActive, OwnResults, HistoryHolds, OneWorker;
    Unsettled(s);
  }

  /** A result or an error under any other id changes nothing on the page. */
  lemma StaleReplyIsIgnored(cfg: Contract, s: State, k: nat)
    requires Indexed(s) && Enabled(s, Deliver(k)) && !s.boots[k].host.outbox[0].WorkerReady?
    requires s.active.None? || s.active.value.id != s.boots[k].host.outbox[0].id
    ensures var h := s.boots[k].host;
      Next(cfg, s, Deliver(k)) == SetHost(s, k, h.(outbox := h.outbox[1..]))
  {
  }

  /** A greeting settles a pending boot: it is fulfilled when every field is right and otherwise broken, with the worker gone. */
  lemma GreetingSettles(cfg: Contract, s: State, k: nat, data: Ready)
    requires Indexed(s) && Enabled(s, Deliver(k)) && s.boots[k].host.outbox[0] == WorkerReady(data)
    requires s.boots[k].promise.Pending?
    ensures var t := Next(cfg, s, Deliver(k));
      && !t.boots[k].timer && t.calls == s.calls && t.active == s.active
      && (t.boots[k].promise == Fulfilled <==> GoodGreeting(cfg, data))
      && t.worker == (if GoodGreeting(cfg, data) then s.worker else None)
      && (forall code :: t.boots[k].promise == Broken(code) <==> FirstMismatch(cfg, data, code))
  {
    hide ReadyProblem, GoodGreeting, FirstMismatch;
    Mismatches(cfg, data);
  }

  // ---------- What else settles a scan ----------

  /** Each interruption of the active scan rejects it with its own code, and with the scan goes its worker. */
  lemma InterruptionSettles(cfg: Contract, s: State, e: Event, code: Code)
    requires Inv(cfg, s) && Enabled(s, e) && s.active.Some?
    requires
      || (e == ScanTimer(s.active.value.call) && code == ScanTimedOut)
      || (e == Cancel && code == WorkerAborted)
      || (e == AbortSignal(s.active.value.call) && code == WorkerAborted)
      || (e == Shutdown && code == WorkerShutdown)
      || (e.Broke? && !s.boots[e.k].promise.Pending? && code == e.code)
    ensures var a, t := s.active.value, Next(cfg, s, e);
      && t.active.None? && t.worker.None? && t.readyPromise.None? && t.timers == {}
      && t.calls == s.calls[a.call := s.calls[a.call].(settlements := [Rejected(code)])]
      && (s.worker.Some? ==> !t.boots[s.worker.value].host.alive)
  {
    hide HostsHold, WorksForActive, OwnResults, HistoryHolds, OneWorker;
    Unsettled(s);
  }

  /** A call is refused for its file, then its mode, then a scan under way, then its signal; otherwise it waits for the worker. */
  lemma StartSettles(cfg: Contract, s: State, file: File, mode: Mode, problem: Option<Code>, aborted: bool, canUse: bool,
                     works: bool)
    requires Inv(cfg, s)
    ensures var t := Next(cfg, s, Start(file, mode, problem, aborted, canUse, works));
      var busy := s.active.Some? || s.waiting != [];
      var started := problem.None? && mode != OtherMode && !busy && !aborted;
      && |t.calls| == |s.calls| + 1 && t.calls[..|s.calls|] == s.calls && t.active == s.active
      && t.calls[|s.calls|].file == file && t.calls[|s.calls|].mode == mode
      && (started ==> t.waiting == [Suspended(|s.calls|, t.waiting[0].boot, false)] && t.calls[|s.calls|].settlements == [])
      && (!started ==> t.waiting == s.waiting && t.worker == s.worker && t.boots == s.boots)
      && (problem.Some? ==> t.calls[|s.calls|].settlements == [Rejected(problem.value)])
      && (problem.None? && mode == OtherMode ==> t.calls[|s.calls|].settlements == [Rejected(InvalidMode)])
      && (problem.None? && mode != OtherMode && busy ==> t.calls[|s.calls|].settlements == [Rejected(WorkerBusy)])
      && (problem.None? && mode != OtherMode && !busy && aborted ==>
            t.calls[|s.calls|].settlements == [Rejected(WorkerAborted)])
  {
    hide HostsHold, WorksForActive, OwnResults, HistoryHolds, SettledOnce, TimersMatch;
  }

  /** The suspended call goes on: a broken boot, its signal, or a request that cannot be posted ends it; else it is active. */
  lemma ResumeSettles(cfg: Contract, s: State, stamp: nat, delivered: bool)
    requires Inv(cfg, s) && Enabled(s, Resume(0, stamp, delivered))
    ensures var me, t := s.waiting[0], Next(cfg, s, Resume(0, stamp, delivered));
      var p, c := s.boots[me.boot].promise, s.calls[me.call];
      var launched := p.Fulfilled? && !me.aborted && delivered && s.worker.Some?;
      && t.waiting == [] && !t.scanReserved
      && (p.Broken? ==> t.calls[me.call].settlements == [Rejected(p.code)])
      && (p.Fulfilled? && me.aborted ==> t.calls[me.call].settlements == [Rejected(WorkerAborted)])
      && (p.Fulfilled? && !me.aborted && !launched ==> t.calls[me.call].settlements == [Rejected(PostFailed)])
      && (!launched ==> t.active.None? && t.timers == {})
      && (launched ==>
            var id := RequestId(stamp, s.requestCounter + 1);
            && t.active == Some(Active(id, c.mode, me.call)) && t.timers == {me.call} && t.calls == s.calls
            && t.boots[s.worker.value].host.inbox
                 == s.boots[s.worker.value].host.inbox + [Scan(Request(id, c.file, c.mode))])
  {
    hide HostsHold, WorksForActive, OwnResults, HistoryHolds, OneWorker;
    assert |s.waiting| == 1;
    assert Open(s, s.waiting[0].call);
  }

  /** No scan is under way and the page has no worker. */
  predicate Workerless(s: State) {
    s.worker.None? && s.active.None? && s.waiting == [] && !s.scanReserved
  }

  /** A scan on a page that cannot have a worker is rejected with the reason. */
  lemma NoWorkerRejects(cfg: Contract, s: State, file: File, mode: Mode, canUse: bool, stamp: nat)
    requires Indexed(s) && Workerless(s) && mode != OtherMode
    ensures var s1 := Next(cfg, s, Start(file, mode, None, false, canUse, false));
      && Enabled(s1, Resume(0, stamp, true))
      && Next(cfg, s1, Resume(0, stamp, true)).calls
           == s.calls + [Call(file, mode, [Rejected(if canUse then CreateFailed else Unsupported)])]
  {
    assert forall o: Outcome :: [] + [o] == [o];
  }

  /** The scan waits for its new worker; it cannot go on before that has booted. */
  lemma ScanWaitsForBoot(cfg: Contract, s: State, file: File, mode: Mode, stamp: nat)
    requires Indexed(s) && Workerless(s) && mode != OtherMode
    ensures var k, r := |s.boots|, Next(cfg, s, Start(file, mode, None, false, true, true));
      && r.calls == s.calls + [Call(file, mode, [])] && r.waiting == [Suspended(|s.calls|, k, false)] && r.active.None?
      && |r.boots| == k + 1 && r.boots[k].promise.Pending? && r.boots[k].timer && r.worker == Some(k)
      && !Enabled(r, Resume(0, stamp, true))
  {
  }

  /** A scan that waits for a boot is rejected with what the boot failed for: its time is up, or the worker broke. */
  lemma FailedBootRejects(cfg: Contract, s: State, e: Event, code: Code, stamp: nat)
    requires Indexed(s) && s.active.None? && |s.waiting| == 1 && s.calls[s.waiting[0].call].settlements == []
    requires var k := s.waiting[0].boot;
      && s.boots[k].promise.Pending? && s.boots[k].timer
      && ((e == InitTimer(k) && code == Code.InitTimeout) || e == Broke(k, code))
    ensures Enabled(s, e) && Enabled(Next(cfg, s, e), Resume(0, stamp, true))
    ensures var call, r := s.waiting[0].call, Next(cfg, Next(cfg, s, e), Resume(0, stamp, true));
      && r.calls == s.calls[call := s.calls[call].(settlements := [Rejected(code)])] && r.waiting == [] && r.worker.None?
  {
    var s1 := Next(cfg, s, e);
    assert s1 == FailInit(s, s.waiting[0].boot, code);
    assert s1.waiting == s.waiting && s1.calls == s.calls && s1.boots[s.waiting[0].boot].promise == Broken(code);
    assert [] + [Rejected(code)] == [Rejected(code)];
    hide FailInit;
  }

  // ---------- What the worker answers ----------

  /** A ready and idle worker takes a valid scan on; it refuses any other with the first reason there is. */
  lemma WorkerTakes(h: Host, request: Request, problem: Option<Code>)
    requires h.ready.Some?
    ensures var r := HostReceives(h, Scan(request), problem);
      && (h.ready.value.ready && problem.None? && h.activeRequest.None? ==> r == h.(activeRequest := Some(request)))
      && (!h.ready.value.ready ==> r == h.(outbox := h.outbox + [ScanError(request.id, NotReady)]))
      && (h.ready.value.ready && problem.Some? ==> r == h.(outbox := h.outbox + [ScanError(request.id, problem.value)]))
      && (h.ready.value.ready && problem.None? && h.activeRequest.Some? ==>
            r == h.(outbox := h.outbox + [ScanError(request.id, WorkerBusy)]))
  {
  }

  /** The finished pipeline's report is posted exactly when it is good; otherwise an error with the first fault is. */
  lemma WorkerAnswers(h: Host, cfg: Contract, produced: Produced)
    requires h.activeRequest.Some?
    ensures var r, q := HostFinishes(h, cfg, produced), h.activeRequest.value;
      && r.activeRequest.None? && r.inbox == h.inbox && |r.outbox| == |h.outbox| + 1 && r.outbox[..|h.outbox|] == h.outbox
      && var reply := r.outbox[|h.outbox|];
      && (produced.Threw? ==> reply == ScanError(q.id, produced.code))
      && (produced.Returned? ==>
           && (forall x :: reply == ScanResult(q.id, Some(x)) <==> produced.report == Some(x) && GoodReport(cfg, q.mode, x))
           && (forall code :: reply == ScanError(q.id, code) <==> FirstFault(cfg, q.mode, produced.report, code)))
  {
    Faults(cfg, h.activeRequest.value.mode, if produced.Returned? then produced.report else None);
    hide ReportProblem, GoodReport, FirstFault;
  }

  // ---------- Good scans resolve, one after another ----------

  datatype Job = Job(file: File, mode: Mode, report: Report, stamp: nat)

  /** The worker's pipeline reports on the job's own file as the contract demands. */
  predicate GoodJob(cfg: Contract, j: Job) {
    j.mode != OtherMode && j.report.file == j.file && GoodReport(cfg, j.mode, j.report)
  }

  /** The page has a booted worker `k` with nothing to do, and no scan is under way. */
  predicate Idle(s: State, k: nat) {
    && Indexed(s) && s.worker == Some(k) && s.readyPromise == Some(k) && s.active.None? && !s.scanReserved
    && s.waiting == [] && s.timers == {} && s.boots[k].promise.Fulfilled?
    && var h := s.boots[k].host;
       h.alive && h.ready.Some? && h.ready.value.ready && h.inbox == [] && h.outbox == [] && h.activeRequest.None?
  }

  lemma IdleIsIndexed(s: State, k: nat)
    requires Idle(s, k)
    ensures Indexed(s)
  {
  }

  /** The boot of the first worker, which greets the page once on its own and once in answer to the ping. */
  function BootRun(data: Ready): seq<Event> {
    [Warmup(true, true), HostBoots(0, data), Deliver(0), HostTakes(0, None), Deliver(0)]
  }

  function ScanRun(j: Job, k: nat): seq<Event> {
    [Start(j.file, j.mode, None, false, true, true), Resume(0, j.stamp, true), HostTakes(k, None),
     HostAnswers(k, Returned(Some(j.report))), Deliver(k)]
  }

  function ScanRuns(jobs: seq<Job>, k: nat): seq<Event> {
    if jobs == [] then [] else ScanRun(jobs[0], k) + ScanRuns(jobs[1..], k)
  }

  function Done(jobs: seq<Job>): seq<Call> {
    seq(|jobs|, i requires 0 <= i < |jobs| => Call(jobs[i].file, jobs[i].mode, [Resolved(jobs[i].report)]))
  }

  lemma {:induction false} Joined(cfg: Contract, s: State, xs: seq<Event>, ys: seq<Event>)
    requires Indexed(s) && Legal(cfg, s, xs) && Legal(cfg, After(cfg, s, xs), ys)
    ensures Legal(cfg, s, xs + ys) && After(cfg, s, xs + ys) == After(cfg, After(cfg, s, xs), ys)
    decreases |xs|
  {
    hide Next, Enabled;
    if xs == [] {
      assert xs + ys == ys;
    } else {
      assert (xs + ys)[1..] == xs[1..] + ys;
      Joined(cfg, Next(cfg, s, xs[0]), xs[1..], ys);
    }
  }

  lemma NothingHappens(cfg: Contract, s: State)
    requires Indexed(s)
    ensures Legal(cfg, s, []) && After(cfg, s, []) == s
  {
  }

  /** Five events of an unbroken run. */
  lemma FiveSteps(cfg: Contract, s: State, run: seq<Event>, s1: State, s2: State, s3: State, s4: State, s5: State)
    requires |run| == 5
    requires Indexed(s) && Enabled(s, run[0]) && s1 == Next(cfg, s, run[0])
    requires Enabled(s1, run[1]) && s2 == Next(cfg, s1, run[1])
    requires Enabled(s2, run[2]) && s3 == Next(cfg, s2, run[2])
    requires Enabled(s3, run[3]) && s4 == Next(cfg, s3, run[3])
    requires Enabled(s4, run[4]) && s5 == Next(cfg, s4, run[4])
    ensures Legal(cfg, s, run) && After(cfg, s, run) == s5
  {
    hide Next, Enabled;
    Unfold(cfg, s4, run[4..]);
    Unfold(cfg, s3, run[3..]);
    Unfold(cfg, s2, run[2..]);
    Unfold(cfg, s1, run[1..]);
    Unfold(cfg, s, run);
  }

  lemma BootReachesIdle(cfg: Contract, data: Ready)
    requires GoodGreeting(cfg, data)
    ensures Legal(cfg, INITIAL, BootRun(data))
    ensures var s := After(cfg, INITIAL, BootRun(data)); Idle(s, 0) && s.calls == []
  {
    var run := BootRun(data);
    var s1 := Next(cfg, INITIAL, run[0]);
    var s2 := Next(cfg, s1, run[1]);
    var s3 := Next(cfg, s2, run[2]);
    var s4 := Next(cfg, s3, run[3]);
    var s5 := Next(cfg, s4, run[4]);
    FiveSteps(cfg, INITIAL, run, s1, s2, s3, s4, s5);
  }

  /** The job's call holds the reservation. */
  function Reserved(s: State, k: nat, j: Job): State {
    s.(scanReserved := true, calls := s.calls + [Call(j.file, j.mode, [])], waiting := [Suspended(|s.calls|, k, false)])
  }

  function RequestOf(s: State, j: Job): Request {
    Request(RequestId(j.stamp, s.requestCounter + 1), j.file, j.mode)
  }

  /** The job's call is active; `h` is what became of the worker. */
  function Scanning(s: State, k: nat, j: Job, h: Host): State
    requires Idle(s, k)
  {
    var q, c := RequestOf(s, j), |s.calls|;
    SetHost(s.(requestCounter := q.id.number, active := Some(Active(q.id, j.mode, c)), timers := {c},
               calls := s.calls + [Call(j.file, j.mode, [])], issued := s.issued + [Issue(c, Some(k), q)]), k, h)
  }

  lemma ScanStarts(cfg: Contract, s: State, k: nat, j: Job)
    requires Idle(s, k) && GoodJob(cfg, j)
    ensures var e := Start(j.file, j.mode, None, false, true, true);
      Enabled(s, e) && Next(cfg, s, e) == Reserved(s, k, j)
  {
  }

  lemma ScanIsSent(cfg: Contract, s: State, k: nat, j: Job)
    requires Idle(s, k) && GoodJob(cfg, j)
    ensures var e, h := Resume(0, j.stamp, true), s.boots[k].host;
      && Indexed(Reserved(s, k, j)) && Enabled(Reserved(s, k, j), e)
      && Next(cfg, Reserved(s, k, j), e) == Scanning(s, k, j, h.(inbox := [Scan(RequestOf(s, j))]))
  {
    var r, h := Reserved(s, k, j), s.boots[k].host;
    assert r.waiting[..0] + r.waiting[1..] == [] == s.waiting;
    assert h.inbox + [Scan(RequestOf(s, j))] == [Scan(RequestOf(s, j))];
  }

  lemma Rehosted(s: State, k: nat, j: Job, g: Host, h: Host)
    requires Idle(s, k)
    ensures Indexed(Scanning(s, k, j, g)) && Scanning(s, k, j, g).boots[k].host == g
    ensures SetHost(Scanning(s, k, j, g), k, h) == Scanning(s, k, j, h)
  {
  }

  lemma ScanIsAnswered(cfg: Contract, s: State, k: nat, j: Job)
    requires Idle(s, k) && GoodJob(cfg, j)
    ensures var h, q := s.boots[k].host, RequestOf(s, j);
      var s2 := Scanning(s, k, j, h.(inbox := [Scan(q)]));
      var s3 := Scanning(s, k, j, h.(activeRequest := Some(q)));
      var s4 := Scanning(s, k, j, h.(outbox := [ScanResult(q.id, Some(j.report))]));
      && Indexed(s2) && Enabled(s2, HostTakes(k, None)) && Next(cfg, s2, HostTakes(k, None)) == s3
      && Indexed(s3) && Enabled(s3, HostAnswers(k, Returned(Some(j.report))))
      && Next(cfg, s3, HostAnswers(k, Returned(Some(j.report)))) == s4 && Indexed(s4)
  {
    var h, q := s.boots[k].host, RequestOf(s, j);
    Rehosted(s, k, j, h.(inbox := [Scan(q)]), h.(activeRequest := Some(q)));
    Rehosted(s, k, j, h.(activeRequest := Some(q)), h.(outbox := [ScanResult(q.id, Some(j.report))]));
    assert [Scan(q)][1..] == [] == h.inbox;
    assert h.outbox + [ScanResult(q.id, Some(j.report))] == [ScanResult(q.id, Some(j.report))];
    hide Idle, Scanning, Indexed;
  }

  lemma ScanIsResolved(cfg: Contract, s: State, k: nat, j: Job)
    requires Idle(s, k) && GoodJob(cfg, j)
    ensures var s4 := Scanning(s, k, j, s.boots[k].host.(outbox := [ScanResult(RequestOf(s, j).id, Some(j.report))]));
      && Indexed(s4) && Enabled(s4, Deliver(k))
      && var t := Next(cfg, s4, Deliver(k));
         Idle(t, k) && t.calls == s.calls + [Call(j.file, j.mode, [Resolved(j.report)])]
  {
    var h, q := s.boots[k].host, RequestOf(s, j);
    var reply := ScanResult(q.id, Some(j.report));
    Rehosted(s, k, j, h.(outbox := [reply]), h);
    assert [reply][1..] == [] == h.outbox;
    assert [] + [Resolved(j.report)] == [Resolved(j.report)];
    assert {|s.calls|} - {|s.calls|} == {};
  }

  /** An idle worker scans: the call is resolved with the report its worker produced, and the worker is idle again. */
  lemma IdleWorkerScans(cfg: Contract, s: State, k: nat, j: Job)
    requires Idle(s, k) && GoodJob(cfg, j)
    ensures Legal(cfg, s, ScanRun(j, k))
    ensures var t := After(cfg, s, ScanRun(j, k));
      Idle(t, k) && t.calls == s.calls + [Call(j.file, j.mode, [Resolved(j.report)])]
  {
    ScanStarts(cfg, s, k, j);
    ScanIsSent(cfg, s, k, j);
    ScanIsAnswered(cfg, s, k, j);
    ScanIsResolved(cfg, s, k, j);
    IdleIsIndexed(s, k);
    hide Next, Enabled, Scanning, Reserved, Legal, After, Idle, GoodJob, Indexed;
    var h, q := s.boots[k].host, RequestOf(s, j);
    var s4 := Scanning(s, k, j, h.(outbox := [ScanResult(q.id, Some(j.report))]));
    FiveSteps(cfg, s, ScanRun(j, k), Reserved(s, k, j), Scanning(s, k, j, h.(inbox := [Scan(q)])),
              Scanning(s, k, j, h.(activeRequest := Some(q))), s4, Next(cfg, s4, Deliver(k)));
  }

  lemma {:induction false} IdleWorkerScansOn(cfg: Contract, s: State, k: nat, jobs: seq<Job>)
    requires Idle(s, k) && forall j :: j in jobs ==> GoodJob(cfg, j)
    ensures Legal(cfg, s, ScanRuns(jobs, k))
    ensures var t := After(cfg, s, ScanRuns(jobs, k)); Idle(t, k) && t.calls == s.calls + Done(jobs)
    decreases |jobs|
  {
    hide Idle, GoodJob, Next, Enabled, ScanRun, Legal, After;
    IdleIsIndexed(s, k);
    if jobs == [] {
      NothingHappens(cfg, s);
    } else {
      IdleWorkerScans(cfg, s, k, jobs[0]);
      var t := After(cfg, s, ScanRun(jobs[0], k));
      IdleWorkerScansOn(cfg, t, k, jobs[1..]);
      Joined(cfg, s, ScanRun(jobs[0], k), ScanRuns(jobs[1..], k));
      assert Done(jobs) == [Done(jobs)[0]] + Done(jobs[1..]);
    }
  }

  /** From the start on: any number of good scans in a row resolve in order, each with the report its own worker produced. */
  lemma GoodScansResolve(cfg: Contract, data: Ready, jobs: seq<Job>)
    requires GoodGreeting(cfg, data) && forall j :: j in jobs ==> GoodJob(cfg, j)
    ensures var run := BootRun(data) + ScanRuns(jobs, 0);
      Legal(cfg, INITIAL, run) && After(cfg, INITIAL, run).calls == Done(jobs)
  {
    hide Idle, GoodJob, Next, Enabled, Legal, After;
    BootReachesIdle(cfg, data);
    var s := After(cfg, INITIAL, BootRun(data));
    IdleWorkerScansOn(cfg, s, 0, jobs);
    Joined(cfg, INITIAL, BootRun(data), ScanRuns(jobs, 0));
  }
}
