/** What every interleaving of the scan worker protocol keeps, over whole runs. */
module ScanSafety {
  import opened Prelude
  import opened ScanProtocol

  // ---------- The invariant, one concern at a time ----------

  /** One scan at a time: suspended calls hold the reservation, and an active scan excludes them. */
  ghost predicate OneScan(s: State) {
    && |s.waiting| + (if s.active.Some? then 1 else 0) <= 1
    && (s.scanReserved <==> |s.waiting| == 1)
  }

  ghost predicate Open(s: State, c: nat) {
    || (s.active.Some? && s.active.value.call == c)
    || (|s.waiting| == 1 && s.waiting[0].call == c)
  }

  /** Exactly the suspended and the active call are unsettled; every other call was settled once. */
  ghost predicate SettledOnce(s: State) {
    forall c :: 0 <= c < |s.calls| ==> |s.calls[c].settlements| == if Open(s, c) then 0 else 1
  }

  /** The armed timers are those of the active scan and of the boots that still wait for their worker. */
  ghost predicate TimersMatch(s: State) {
    && s.timers == (if s.active.Some? then {s.active.value.call} else {})
    && forall k :: 0 <= k < |s.boots| ==> (s.boots[k].timer <==> s.boots[k].promise.Pending?)
  }

  /** No worker but the page's current one is alive, and its promise is the one handed out. */
  ghost predicate OneWorker(s: State) {
    && (s.worker.Some? ==> s.readyPromise == s.worker)
    && forall k :: 0 <= k < |s.boots| && s.boots[k].host.alive ==> s.worker == Some(k)
  }

  predicate Numbered(issued: seq<Issue>, number: nat) {
    1 <= number <= |issued|
  }

  /** Every request number was used once, for the file and mode of its call; the active scan is one of them. */
  ghost predicate HistoryHolds(s: State) {
    && |s.issued| == s.requestCounter
    && (forall n :: 0 <= n < |s.issued| ==>
          && s.issued[n].call < |s.calls| && s.issued[n].request.id.number == n + 1
          && s.issued[n].request.file == s.calls[s.issued[n].call].file
          && s.issued[n].request.mode == s.calls[s.issued[n].call].mode
          && (s.issued[n].worker.Some? ==> s.issued[n].worker.value < |s.boots|))
    && (s.active.Some? ==>
          var a := s.active.value;
          && Numbered(s.issued, a.id.number) && s.issued[a.id.number - 1].call == a.call
          && s.issued[a.id.number - 1].request.id == a.id && s.issued[a.id.number - 1].request.mode == a.mode)
  }

  /** `request` is the one that was posted to worker `k` under its number. */
  predicate Posted(issued: seq<Issue>, k: nat, request: Request) {
    && Numbered(issued, request.id.number)
    && issued[request.id.number - 1].request == request && issued[request.id.number - 1].worker == Some(k)
  }

  /** `reply` answers a request posted to worker `k`, and a report in it was computed from that request's file. */
  predicate Answers(issued: seq<Issue>, k: nat, reply: Reply) {
    match reply
    case WorkerReady(_) => true
    case ScanError(id, _) => Numbered(issued, id.number) && issued[id.number - 1].worker == Some(k)
    case ScanResult(id, report) =>
      && Numbered(issued, id.number) && issued[id.number - 1].worker == Some(k)
      && (report.Some? ==> report.value.file == issued[id.number - 1].request.file)
  }

  predicate Unanswered(h: Host, reply: Reply) {
    match reply
    case WorkerReady(_) => true
    case ScanError(id, _) => !h.Pending(id.number)
    case ScanResult(id, _) => !h.Pending(id.number)
  }

  /** A worker holds at most one scan, queued or running, never one it has answered. */
  ghost predicate HostHolds(h: Host, k: nat, issued: seq<Issue>) {
    && (forall m :: m in h.inbox && m.Scan? ==> Posted(issued, k, m.request) && h.activeRequest.None?)
    && (forall i, j :: 0 <= i < j < |h.inbox| ==> !(h.inbox[i].Scan? && h.inbox[j].Scan?))
    && (h.activeRequest.Some? ==> Posted(issued, k, h.activeRequest.value))
    && (forall r :: r in h.outbox ==> Answers(issued, k, r) && Unanswered(h, r))
  }

  ghost predicate HostsHold(s: State) {
    forall k :: 0 <= k < |s.boots| ==> HostHolds(s.boots[k].host, k, s.issued)
  }

  /** The current worker works for the active scan or for nothing. */
  ghost predicate WorksForActive(s: State) {
    s.worker.Some? && s.worker.value < |s.boots| ==>
      forall n: nat :: s.boots[s.worker.value].host.Pending(n) ==> s.active.Some? && s.active.value.id.number == n
  }

  /** An acceptable outcome of a call: a result must be valid and computed from the call's own file in its own mode. */
  ghost predicate OwnResult(cfg: Contract, call: Call, o: Outcome) {
    o.Resolved? ==>
      && o.report.file == call.file && o.report.mode == call.mode
      && ReportProblem(cfg, call.mode, Some(o.report)).None?
  }

  ghost predicate OwnResults(cfg: Contract, s: State) {
    forall c :: 0 <= c < |s.calls| ==> forall o :: o in s.calls[c].settlements ==> OwnResult(cfg, s.calls[c], o)
  }

  ghost predicate Inv(cfg: Contract, s: State) {
    && Indexed(s) && OneScan(s) && SettledOnce(s) && TimersMatch(s) && OneWorker(s)
    && HistoryHolds(s) && HostsHold(s) && WorksForActive(s) && OwnResults(cfg, s)
  }

  // ---------- The building blocks keep it ----------

  lemma InitialHolds(cfg: Contract)
    ensures Inv(cfg, INITIAL)
  {
  }

  lemma PromiseKeeps(cfg: Contract, s: State, k: nat, p: Promise)
    requires Inv(cfg, s) && k < |s.boots| && !p.Pending?
    ensures Inv(cfg, SetPromise(s, k, p))
  {
    hide HostHolds, OwnResult, Host.Pending;
  }

  lemma DropKeeps(cfg: Contract, s: State)
    requires Inv(cfg, s)
    ensures Inv(cfg, DropWorker(s))
    ensures DropWorker(s).worker.None? && DropWorker(s).active == s.active
  {
    hide OwnResult, Posted, Answers;
    if s.worker.Some? {
      var h := s.boots[s.worker.value].host;
      assert HostHolds(h, s.worker.value, s.issued);
      StoppingKeeps(h, s.worker.value, s.issued);
      hide HostHolds;
    }
  }

  lemma StoppingKeeps(h: Host, k: nat, issued: seq<Issue>)
    requires HostHolds(h, k, issued)
    ensures HostHolds(h.(alive := false), k, issued)
  {
    hide Posted, Answers;
    forall r | r in h.outbox
      ensures Unanswered(h.(alive := false), r)
    {
      assert Unanswered(h, r);
    }
  }

  /** Settling the active scan, once its request is no longer with the current worker. */
  lemma ConcludeKeeps(cfg: Contract, s: State, o: Outcome)
    requires Inv(cfg, s) && s.active.Some?
    requires s.worker.Some? ==> !s.boots[s.worker.value].host.Pending(s.active.value.id.number)
    requires OwnResult(cfg, s.calls[s.active.value.call], o)
    ensures Inv(cfg, Conclude(s, o))
  {
    hide HostHolds, ReportProblem, Host.Pending;
    var r, a := Conclude(s, o), s.active.value;
    assert |s.waiting| == 0;
    assert Open(s, a.call);
    assert s.calls[a.call].settlements == [];
    assert SettledOnce(r) by {
      forall c | 0 <= c < |r.calls| && c != a.call
        ensures |r.calls[c].settlements| == 1 && !Open(r, c)
      {
        assert !Open(s, c);
      }
    }
  }

  lemma FailInitKeeps(cfg: Contract, s: State, k: nat, code: Code)
    requires Inv(cfg, s) && k < |s.boots|
    ensures Inv(cfg, FailInit(s, k, code))
  {
    hide Inv;
    if s.boots[k].promise.Pending? {
      PromiseKeeps(cfg, s, k, Broken(code));
      DropKeeps(cfg, SetPromise(s, k, Broken(code)));
    }
  }

  lemma TerminateKeeps(cfg: Contract, s: State, code: Code)
    requires Inv(cfg, s)
    ensures Inv(cfg, TerminateWorker(s, code))
  {
    DropKeeps(cfg, s);
    var dropped := DropWorker(s);
    hide OneScan, SettledOnce, TimersMatch, OneWorker, HistoryHolds, HostsHold, WorksForActive, OwnResults;
    if dropped.active.Some? {
      ConcludeKeeps(cfg, dropped, Rejected(code));
    }
  }

  lemma EnsureKeeps(cfg: Contract, s: State, supported: bool, created: bool)
    requires Inv(cfg, s)
    ensures Inv(cfg, EnsureWorker(s, supported, created).0)
    ensures var t := EnsureWorker(s, supported, created).0;
      t.waiting == s.waiting && t.calls == s.calls && t.active == s.active && t.scanReserved == s.scanReserved
  {
    hide OwnResult, Posted, Answers;
    if !(s.worker.Some? && s.readyPromise.Some?) {
      assert s.worker.None?;
      assert HostHolds(NewHost(), |s.boots|, s.issued) && HostHolds(NoHost(), |s.boots|, s.issued);
      assert forall n: nat :: !NewHost().Pending(n);
      hide HostHolds, Host.Pending, Open;
    }
  }

  /** Replacing worker `k`'s queues by ones that hold no scan but an old one or the active one. */
  lemma SetHostKeeps(cfg: Contract, s: State, k: nat, h: Host)
    requires Inv(cfg, s) && k < |s.boots|
    requires HostHolds(h, k, s.issued) && h.alive == s.boots[k].host.alive
    requires forall n: nat :: h.Pending(n) ==>
      s.boots[k].host.Pending(n) || (s.active.Some? && s.active.value.id.number == n)
    ensures Inv(cfg, SetHost(s, k, h))
  {
    hide HostHolds, OwnResult, Host.Pending;
  }

  // ---------- The worker's own steps ----------

  lemma TakenKeeps(h: Host, k: nat, issued: seq<Issue>, verdict: Option<Code>)
    requires HostHolds(h, k, issued) && h.ready.Some? && h.inbox != []
    ensures var r := HostReceives(h.(inbox := h.inbox[1..]), h.inbox[0], verdict);
      && HostHolds(r, k, issued) && r.alive == h.alive && forall n: nat :: r.Pending(n) ==> h.Pending(n)
  {
    var m := h.inbox[0];
    var r := HostReceives(h.(inbox := h.inbox[1..]), m, verdict);
    assert forall x :: x in r.inbox ==> x in h.inbox;
    assert m in h.inbox;
    forall n: nat | r.Pending(n)
      ensures h.Pending(n)
    {
    }
    if m.Scan? {
      assert forall x :: x in r.inbox ==> !x.Scan?;
    }
    forall reply | reply in r.outbox
      ensures Answers(issued, k, reply) && Unanswered(r, reply)
    {
      if reply in h.outbox {
        assert Unanswered(h, reply);
      }
    }
  }

  lemma AnsweredKeeps(h: Host, cfg: Contract, k: nat, issued: seq<Issue>, produced: Produced)
    requires HostHolds(h, k, issued) && h.activeRequest.Some?
    requires produced.Returned? && produced.report.Some? ==> produced.report.value.file == h.activeRequest.value.file
    ensures var r := HostFinishes(h, cfg, produced);
      && HostHolds(r, k, issued) && r.alive == h.alive && forall n: nat :: r.Pending(n) ==> h.Pending(n)
  {
    hide ReportProblem;
    var r := HostFinishes(h, cfg, produced);
    assert forall n: nat :: !r.Pending(n);
    forall reply | reply in r.outbox
      ensures Answers(issued, k, reply) && Unanswered(r, reply)
    {
    }
  }

  lemma BootKeeps(h: Host, k: nat, issued: seq<Issue>, data: Ready)
    requires HostHolds(h, k, issued)
    ensures var r := h.(ready := Some(data)).Post(WorkerReady(data));
      && HostHolds(r, k, issued) && r.alive == h.alive && forall n: nat :: r.Pending(n) ==> h.Pending(n)
  {
    hide Posted;
    var r := h.(ready := Some(data)).Post(WorkerReady(data));
    assert forall n: nat :: r.Pending(n) <==> h.Pending(n);
    forall reply | reply in r.outbox
      ensures Answers(issued, k, reply) && Unanswered(r, reply)
    {
      assert reply == WorkerReady(data) || reply in h.outbox;
    }
  }

  lemma PoppedKeeps(h: Host, k: nat, issued: seq<Issue>)
    requires HostHolds(h, k, issued) && h.outbox != []
    ensures var r := h.(outbox := h.outbox[1..]);
      && HostHolds(r, k, issued) && r.alive == h.alive && forall n: nat :: r.Pending(n) ==> h.Pending(n)
  {
    hide Posted, Answers;
    var r := h.(outbox := h.outbox[1..]);
    assert forall n: nat :: r.Pending(n) <==> h.Pending(n);
    forall reply | reply in r.outbox
      ensures Unanswered(r, reply)
    {
      assert reply in h.outbox && Unanswered(h, reply);
    }
  }

  // ---------- The page's steps ----------

  /** A delivered reply can only concern the active scan if the current worker is done with it. */
  lemma MessageKeeps(cfg: Contract, s: State, k: nat, reply: Reply)
    requires Inv(cfg, s) && k < |s.boots|
    requires Answers(s.issued, k, reply) && Unanswered(s.boots[k].host, reply)
    ensures Inv(cfg, OnMessage(cfg, s, k, reply))
  {
    match reply
    case WorkerReady(data) => ReadyKeeps(cfg, s, k, data);
    case ScanError(id, code) =>
      if s.active.Some? && s.active.value.id == id {
        AnswerFreesWorker(cfg, s, k, id);
        ConcludeKeeps(cfg, s, Rejected(code));
      }
    case ScanResult(id, report) =>
      if s.active.Some? && s.active.value.id == id {
        AnswerFreesWorker(cfg, s, k, id);
        var problem := ReportProblem(cfg, s.active.value.mode, report);
        ConcludeKeeps(cfg, s, if problem.Some? then Rejected(problem.value) else Resolved(report.value));
      }
  }

  lemma ReadyKeeps(cfg: Contract, s: State, k: nat, data: Ready)
    requires Inv(cfg, s) && k < |s.boots|
    ensures Inv(cfg, OnMessage(cfg, s, k, WorkerReady(data)))
  {
    hide Inv, ReadyProblem;
    if s.boots[k].promise.Pending? {
      var problem := ReadyProblem(cfg, data);
      if problem.Some? {
        FailInitKeeps(cfg, s, k, problem.value);
      } else {
        PromiseKeeps(cfg, s, k, Fulfilled);
      }
    }
  }

  lemma AnswerFreesWorker(cfg: Contract, s: State, k: nat, id: RequestId)
    requires Inv(cfg, s) && k < |s.boots| && Numbered(s.issued, id.number)
    requires s.issued[id.number - 1].worker == Some(k) && !s.boots[k].host.Pending(id.number)
    ensures s.worker.Some? ==> !s.boots[s.worker.value].host.Pending(id.number)
  {
    if s.worker.Some? && s.boots[s.worker.value].host.Pending(id.number) {
      PendingIsPosted(s.boots[s.worker.value].host, s.worker.value, s.issued, id.number);
    }
  }

  lemma PendingIsPosted(h: Host, k: nat, issued: seq<Issue>, number: nat)
    requires HostHolds(h, k, issued) && h.Pending(number)
    ensures Numbered(issued, number) && issued[number - 1].worker == Some(k)
  {
  }

  lemma StartKeeps(cfg: Contract, s: State, file: File, mode: Mode, problem: Option<Code>, aborted: bool, supported: bool,
                   created: bool)
    requires Inv(cfg, s)
    ensures Inv(cfg, StartScan(s, file, mode, problem, aborted, supported, created))
  {
    forall code
      ensures Inv(cfg, Refuse(s, file, mode, code))
    {
      RefuseKeeps(cfg, s, file, mode, code);
    }
    if !(s.active.Some? || s.scanReserved) {
      EnsureKeeps(cfg, s, supported, created);
      var (t, k) := EnsureWorker(s, supported, created);
      ReserveKeeps(cfg, t, k, file, mode);
    }
  }

  lemma RefuseKeeps(cfg: Contract, s: State, file: File, mode: Mode, code: Code)
    requires Inv(cfg, s)
    ensures Inv(cfg, Refuse(s, file, mode, code))
  {
    hide HostHolds, Host.Pending, ReportProblem;
    var r := Refuse(s, file, mode, code);
    assert forall c :: 0 <= c < |s.calls| ==> (Open(r, c) <==> Open(s, c));
  }

  lemma ReserveKeeps(cfg: Contract, s: State, k: nat, file: File, mode: Mode)
    requires Inv(cfg, s) && k < |s.boots| && s.active.None? && !s.scanReserved
    ensures Inv(cfg, s.(scanReserved := true, calls := s.calls + [Call(file, mode, [])],
                        waiting := s.waiting + [Suspended(|s.calls|, k, false)]))
  {
    hide HostHolds, Host.Pending, OwnResult;
  }

  /** A suspended call that goes on: its suspension ends, and it is settled or becomes the active scan. */
  lemma ResumeKeeps(cfg: Contract, s: State, w: nat, stamp: nat, delivered: bool)
    requires Inv(cfg, s) && w < |s.waiting| && !s.boots[s.waiting[w].boot].promise.Pending?
    ensures Inv(cfg, ResumeScan(s, w, stamp, delivered))
  {
    var me := s.waiting[w];
    assert w == 0 && |s.waiting| == 1;
    var t := s.(waiting := [], scanReserved := false);
    assert s.waiting[..w] + s.waiting[w + 1..] == [];
    if s.boots[me.boot].promise.Broken? {
      LeaveKeeps(cfg, s, Rejected(s.boots[me.boot].promise.code));
    } else if me.aborted {
      LeaveKeeps(cfg, s, Rejected(WorkerAborted));
    } else {
      LaunchKeeps(cfg, s, stamp, delivered);
    }
  }

  lemma LeaveKeeps(cfg: Contract, s: State, o: Outcome)
    requires Inv(cfg, s) && |s.waiting| == 1 && o.Rejected?
    ensures Inv(cfg, Settle(s.(waiting := [], scanReserved := false), s.waiting[0].call, o))
  {
    hide HostHolds, Host.Pending, ReportProblem;
    var me := s.waiting[0].call;
    assert Open(s, me) && s.calls[me].settlements == [];
  }

  lemma LongerHistory(h: Host, k: nat, issued: seq<Issue>, next: Issue)
    requires HostHolds(h, k, issued)
    ensures HostHolds(h, k, issued + [next])
  {
    hide Host.Pending;
    forall r | r in h.outbox
      ensures Answers(issued + [next], k, r) && Unanswered(h, r)
    {
      assert Answers(issued, k, r);
    }
  }

  /** A suspended call becomes active; its number is new, so no worker holds it yet. */
  lemma ActivateKeeps(cfg: Contract, s: State, stamp: nat, to: Option<nat>)
    requires Inv(cfg, s) && |s.waiting| == 1 && (to.Some? ==> to.value < |s.boots|)
    ensures Inv(cfg, Activate(s.(waiting := [], scanReserved := false), s.waiting[0].call, stamp, to))
  {
    hide OwnResult;
    var call := s.waiting[0].call;
    var t := Activate(s.(waiting := [], scanReserved := false), call, stamp, to);
    forall k | 0 <= k < |s.boots|
      ensures HostHolds(t.boots[k].host, k, t.issued)
    {
      LongerHistory(s.boots[k].host, k, s.issued, t.issued[|s.issued|]);
    }
    hide HostHolds, Host.Pending;
    assert s.active.None?;
    assert forall c :: 0 <= c < |s.calls| ==> (Open(t, c) <==> Open(s, c));
  }

  lemma PostHolds(h: Host, k: nat, issued: seq<Issue>, request: Request)
    requires HostHolds(h, k, issued) && Posted(issued, k, request) && request.id.number == |issued|
    requires forall n: nat :: !h.Pending(n)
    requires forall r :: r in h.outbox ==> Answers(issued[..|issued| - 1], k, r)
    ensures var r := h.(inbox := h.inbox + [Scan(request)]);
      HostHolds(r, k, issued) && forall n: nat :: r.Pending(n) ==> n == |issued|
  {
    var r := h.(inbox := h.inbox + [Scan(request)]);
    assert h.activeRequest.Some? ==> h.Pending(h.activeRequest.value.id.number);
    assert forall m :: m in h.inbox && m.Scan? ==> h.Pending(m.request.id.number);
    forall n: nat | r.Pending(n)
      ensures n == |issued|
    {
    }
    forall reply | reply in r.outbox
      ensures Unanswered(r, reply)
    {
      assert Answers(issued[..|issued| - 1], k, reply);
    }
  }

  lemma UndeliveredKeeps(cfg: Contract, s: State, stamp: nat)
    requires Inv(cfg, s) && |s.waiting| == 1
    ensures var t := Activate(s.(waiting := [], scanReserved := false), s.waiting[0].call, stamp, None);
      Inv(cfg, Conclude(t, Rejected(PostFailed)))
  {
    hide OwnResults, TimersMatch, SettledOnce, Host.Pending, HostHolds;
    var t := Activate(s.(waiting := [], scanReserved := false), s.waiting[0].call, stamp, None);
    ActivateKeeps(cfg, s, stamp, None);
    ConcludeKeeps(cfg, t, Rejected(PostFailed));
  }

  lemma DeliveredKeeps(cfg: Contract, s: State, stamp: nat)
    requires Inv(cfg, s) && |s.waiting| == 1 && s.worker.Some?
    ensures Inv(cfg, Launch(s.(waiting := [], scanReserved := false), s.waiting[0].call, stamp, true))
  {
    hide OwnResults, TimersMatch, SettledOnce, Host.Pending;
    var k := s.worker.value;
    var t := Activate(s.(waiting := [], scanReserved := false), s.waiting[0].call, stamp, s.worker);
    ActivateKeeps(cfg, s, stamp, s.worker);
    var h, request := t.boots[k].host, t.issued[|s.issued|].request;
    assert h == s.boots[k].host && t.issued[..|t.issued| - 1] == s.issued;
    assert HostHolds(h, k, s.issued) && HostHolds(h, k, t.issued);
    PostHolds(h, k, t.issued, request);
    SetHostKeeps(cfg, t, k, h.(inbox := h.inbox + [Scan(request)]));
  }

  lemma LaunchKeeps(cfg: Contract, s: State, stamp: nat, delivered: bool)
    requires Inv(cfg, s) && |s.waiting| == 1
    ensures Inv(cfg, Launch(s.(waiting := [], scanReserved := false), s.waiting[0].call, stamp, delivered))
  {
    if delivered && s.worker.Some? {
      DeliveredKeeps(cfg, s, stamp);
    } else {
      UndeliveredKeeps(cfg, s, stamp);
    }
  }

  lemma AbortKeeps(cfg: Contract, s: State, call: nat)
    requires Inv(cfg, s)
    ensures Inv(cfg, Abort(s, call))
  {
    if s.active.Some? && s.active.value.call == call {
      TerminateKeeps(cfg, s, WorkerAborted);
    } else {
      hide HostHolds, Host.Pending, OwnResult;
    }
  }

  /** A scan timer is the active scan's, so it ends that scan and no other. */
  lemma ScanTimerKeeps(cfg: Contract, s: State, call: nat)
    requires Inv(cfg, s) && call in s.timers
    ensures s.active.Some? && s.active.value.call == call
    ensures Inv(cfg, TerminateWorker(s.(timers := s.timers - {call}), ScanTimedOut))
  {
    TerminateKeeps(cfg, s, ScanTimedOut);
    hide OneScan, SettledOnce, OneWorker, HistoryHolds, HostsHold, WorksForActive, OwnResults, Settle;
    var t := s.(timers := s.timers - {call});
    assert t.timers - {call} == s.timers - {call};
    assert Conclude(DropWorker(t), Rejected(ScanTimedOut)) == Conclude(DropWorker(s), Rejected(ScanTimedOut));
  }

  lemma HostStepKeeps(cfg: Contract, s: State, e: Event)
    requires Inv(cfg, s) && Enabled(s, e) && (e.HostBoots? || e.HostTakes? || e.HostAnswers?)
    ensures Inv(cfg, Next(cfg, s, e))
  {
    var h := s.boots[e.k].host;
    assert HostHolds(h, e.k, s.issued);
    hide HostHolds, OneScan, SettledOnce, TimersMatch, OneWorker, HistoryHolds, HostsHold, WorksForActive, OwnResults;
    hide HostReceives, HostFinishes, Host.Pending;
    match e
    case HostBoots(k, data) =>
      BootKeeps(h, k, s.issued, data);
      SetHostKeeps(cfg, s, k, h.(ready := Some(data)).Post(WorkerReady(data)));
    case HostTakes(k, verdict) =>
      TakenKeeps(h, k, s.issued, verdict);
      SetHostKeeps(cfg, s, k, HostReceives(h.(inbox := h.inbox[1..]), h.inbox[0], verdict));
    case HostAnswers(k, produced) =>
      AnsweredKeeps(h, cfg, k, s.issued, produced);
      SetHostKeeps(cfg, s, k, HostFinishes(h, cfg, produced));
  }

  lemma DeliverKeeps(cfg: Contract, s: State, k: nat)
    requires Inv(cfg, s) && Enabled(s, Deliver(k))
    ensures Inv(cfg, Next(cfg, s, Deliver(k)))
  {
    var h := s.boots[k].host;
    assert HostHolds(h, k, s.issued);
    PoppedKeeps(h, k, s.issued);
    var popped, reply := h.(outbox := h.outbox[1..]), h.outbox[0];
    SetHostKeeps(cfg, s, k, popped);
    assert reply in h.outbox && Answers(s.issued, k, reply);
    assert Unanswered(h, reply) && Unanswered(popped, reply);
    hide HostHolds, OneScan, SettledOnce, TimersMatch, OneWorker, HistoryHolds, HostsHold, WorksForActive, OwnResults;
    hide Host.Pending, OnMessage, Answers, Unanswered;
    MessageKeeps(cfg, SetHost(s, k, popped), k, reply);
  }

  lemma StepKeeps(cfg: Contract, s: State, e: Event)
    requires Inv(cfg, s) && Enabled(s, e)
    ensures Inv(cfg, Next(cfg, s, e))
  {
    hide OneScan, SettledOnce, TimersMatch, OneWorker, HistoryHolds, HostsHold, WorksForActive, OwnResults;
    hide FailInit, TerminateWorker, EnsureWorker, OnMessage, StartScan, ResumeScan, Abort;
    match e
    case Warmup(supported, created) => EnsureKeeps(cfg, s, supported, created);
    case Start(file, mode, problem, aborted, canUse, works) =>
      StartKeeps(cfg, s, file, mode, problem, aborted, canUse, works);
    case Resume(w, stamp, delivered) => ResumeKeeps(cfg, s, w, stamp, delivered);
    case AbortSignal(call) => AbortKeeps(cfg, s, call);
    case Cancel => TerminateKeeps(cfg, s, WorkerAborted);
    case Shutdown => TerminateKeeps(cfg, s, WorkerShutdown);
    case ScanTimer(call) => ScanTimerKeeps(cfg, s, call);
    case InitTimer(k) => FailInitKeeps(cfg, s, k, Code.InitTimeout);
    case Broke(k, code) =>
      FailInitKeeps(cfg, s, k, code);
      TerminateKeeps(cfg, s, code);
    case Deliver(k) => DeliverKeeps(cfg, s, k);
    case _ => HostStepKeeps(cfg, s, e);
  }

  // ---------- Whole runs ----------

  /** Each event of the run is enabled when its turn comes. */
  predicate Legal(cfg: Contract, s: State, events: seq<Event>)
    requires Indexed(s)
    decreases |events|
  {
    events == [] || (Enabled(s, events[0]) && Legal(cfg, Next(cfg, s, events[0]), events[1..]))
  }

  function After(cfg: Contract, s: State, events: seq<Event>): (r: State)
    requires Indexed(s) && Legal(cfg, s, events)
    ensures Indexed(r)
    decreases |events|
  {
    if events == [] then s else After(cfg, Next(cfg, s, events[0]), events[1..])
  }

  lemma {:induction false} RunKeeps(cfg: Contract, s: State, events: seq<Event>)
    requires Inv(cfg, s) && Legal(cfg, s, events)
    ensures Inv(cfg, After(cfg, s, events))
    decreases |events|
  {
    hide OneScan, SettledOnce, TimersMatch, OneWorker, HistoryHolds, HostsHold, WorksForActive, OwnResults, Next, Enabled;
    if events != [] {
      StepKeeps(cfg, s, events[0]);
      RunKeeps(cfg, Next(cfg, s, events[0]), events[1..]);
    }
  }

  /** At every point of every run at most one scan is reserved or active, and the flag says exactly when one is reserved. */
  lemma AtMostOneScan(cfg: Contract, events: seq<Event>)
    requires Legal(cfg, INITIAL, events)
    ensures var s := After(cfg, INITIAL, events);
      && |s.waiting| + (if s.active.Some? then 1 else 0) <= 1
      && (s.scanReserved <==> |s.waiting| == 1)
  {
    InitialHolds(cfg);
    RunKeeps(cfg, INITIAL, events);
    hide After, Legal;
  }

  /** No promise of `scan` is ever settled twice, and one that is not settled belongs to the reserved or active scan. */
  lemma EachScanSettlesOnce(cfg: Contract, events: seq<Event>, c: nat)
    requires Legal(cfg, INITIAL, events) && c < |After(cfg, INITIAL, events).calls|
    ensures var s := After(cfg, INITIAL, events);
      && |s.calls[c].settlements| <= 1
      && (s.calls[c].settlements == [] <==>
           (s.active.Some? && s.active.value.call == c) || (|s.waiting| == 1 && s.waiting[0].call == c))
  {
    InitialHolds(cfg);
    RunKeeps(cfg, INITIAL, events);
    hide After, Legal;
  }

  /** A scan that resolves does so with a valid result computed from its own file, in its own mode. */
  lemma ResolvesWithOwnResult(cfg: Contract, events: seq<Event>, c: nat, report: Report)
    requires Legal(cfg, INITIAL, events) && c < |After(cfg, INITIAL, events).calls|
    requires Resolved(report) in After(cfg, INITIAL, events).calls[c].settlements
    ensures var call := After(cfg, INITIAL, events).calls[c];
      && report.file == call.file && report.mode == call.mode
      && report.schema == cfg.schema && report.verdict in cfg.verdicts && report.app == cfg.app
  {
    InitialHolds(cfg);
    RunKeeps(cfg, INITIAL, events);
    var s := After(cfg, INITIAL, events);
    hide After, Legal;
    assert OwnResult(cfg, s.calls[c], Resolved(report));
  }

  /** Nothing hangs: whatever a scan waits for, an armed timer stands behind it, or it may go on at once. */
  lemma UnsettledScansAreTimed(cfg: Contract, events: seq<Event>, c: nat)
    requires Legal(cfg, INITIAL, events) && c < |After(cfg, INITIAL, events).calls|
    requires After(cfg, INITIAL, events).calls[c].settlements == []
    ensures var s := After(cfg, INITIAL, events);
      || (s.active.Some? && s.active.value.call == c && s.timers == {c} && Enabled(s, ScanTimer(c)))
      || (s.waiting != [] && s.waiting[0].call == c &&
           (Enabled(s, InitTimer(s.waiting[0].boot)) || Enabled(s, Resume(0, 0, true))))
  {
    InitialHolds(cfg);
    RunKeeps(cfg, INITIAL, events);
    hide After, Legal;
  }

  /** The worker's busy branch is dead code under this page: a live worker never takes a scan while it runs one. */
  lemma WorkerIsNeverBusy(cfg: Contract, events: seq<Event>, k: nat, verdict: Option<Code>)
    requires Legal(cfg, INITIAL, events) && Enabled(After(cfg, INITIAL, events), HostTakes(k, verdict))
    ensures var h := After(cfg, INITIAL, events).boots[k].host;
      h.inbox[0].Scan? ==> h.activeRequest.None?
  {
    InitialHolds(cfg);
    RunKeeps(cfg, INITIAL, events);
    var s := After(cfg, INITIAL, events);
    hide After, Legal;
    assert HostHolds(s.boots[k].host, k, s.issued) && s.boots[k].host.inbox[0] in s.boots[k].host.inbox;
  }

  // ---------- A scan whose worker is taken away ----------

  /** The active scan, if any, was posted to the page's current worker. */
  ghost predicate Attended(s: State) {
    s.active.Some? ==>
      var number := s.active.value.id.number;
      s.worker.Some? && Numbered(s.issued, number) && s.issued[number - 1].worker == s.worker
  }

  /** The three events that drop the page's worker while leaving an active scan alone: they fail a boot that is still pending. */
  predicate FailsPendingBoot(cfg: Contract, s: State, e: Event)
    requires Enabled(s, e)
  {
    match e
    case InitTimer(k) => s.boots[k].promise.Pending?
    case Broke(k, _) => s.boots[k].promise.Pending?
    case Deliver(k) =>
      var reply := s.boots[k].host.outbox[0];
      s.boots[k].promise.Pending? && reply.WorkerReady? && ReadyProblem(cfg, reply.data).Some?
    case _ => false
  }

  /** An active scan keeps its place and loses its worker in exactly these three ways. */
  lemma LosesWorkerIff(cfg: Contract, s: State, e: Event)
    requires Inv(cfg, s) && Enabled(s, e) && s.active.Some? && s.worker.Some?
    ensures Next(cfg, s, e).active == s.active && Next(cfg, s, e).worker.None? <==> FailsPendingBoot(cfg, s, e)
  {
    hide HostsHold, WorksForActive, OwnResults, SettledOnce, TimersMatch, HistoryHolds, HostReceives, HostFinishes;
  }

  /** The worker's own steps change nothing on the page. */
  lemma HostStepIsQuiet(cfg: Contract, s: State, e: Event)
    requires Indexed(s) && Enabled(s, e) && (e.HostBoots? || e.HostTakes? || e.HostAnswers?)
    ensures var r := Next(cfg, s, e);
      r.active == s.active && r.worker == s.worker && r.issued == s.issued && !FailsPendingBoot(cfg, s, e)
  {
    hide HostReceives, HostFinishes;
  }

  /** A delivered message fails a pending boot, or leaves the worker and leaves or settles the active scan. */
  lemma DeliveryIs(cfg: Contract, s: State, k: nat)
    requires Indexed(s) && Enabled(s, Deliver(k))
    ensures var r := Next(cfg, s, Deliver(k));
      && r.issued == s.issued
      && (if FailsPendingBoot(cfg, s, Deliver(k)) then r.worker.None? && r.active == s.active
          else r.worker == s.worker && (r.active == s.active || r.active.None?))
  {
    hide ReportProblem, ReadyProblem;
  }

  lemma AttendedIff(cfg: Contract, s: State, e: Event)
    requires Inv(cfg, s) && Enabled(s, e) && Attended(s)
    ensures Attended(Next(cfg, s, e)) <==> s.active.None? || !FailsPendingBoot(cfg, s, e)
    ensures !Attended(Next(cfg, s, e)) ==> Next(cfg, s, e).active == s.active
  {
    hide HostsHold, WorksForActive, OwnResults, SettledOnce, TimersMatch, HostReceives, HostFinishes, ReportProblem;
    hide ReadyProblem;
    if e.HostBoots? || e.HostTakes? || e.HostAnswers? {
      HostStepIsQuiet(cfg, s, e);
      hide Next, FailsPendingBoot;
    } else if e.Deliver? {
      DeliveryIs(cfg, s, e.k);
      hide Next, FailsPendingBoot;
    }
  }

  /** A scan is active until it is settled, and a worker taken away from it does not come back. */
  lemma UnattendedStays(cfg: Contract, s: State, e: Event)
    requires Inv(cfg, s) && Enabled(s, e) && !Attended(s)
    ensures var r := Next(cfg, s, e);
      && (r.active.Some? ==> r.active == s.active)
      && (r.active == s.active ==> !Attended(r))
  {
    hide HostsHold, WorksForActive, OwnResults, SettledOnce, TimersMatch, HostReceives, HostFinishes, ReportProblem;
    hide ReadyProblem;
    if e.HostBoots? || e.HostTakes? || e.HostAnswers? {
      HostStepIsQuiet(cfg, s, e);
      hide Next;
    } else if e.Deliver? {
      DeliveryIs(cfg, s, e.k);
      hide Next;
    }
  }

  /** The same scan, or none, is active to the end of the run. */
  predicate ScanStays(cfg: Contract, s: State, events: seq<Event>)
    requires Indexed(s) && Legal(cfg, s, events)
    decreases |events|
  {
    events == [] || (Next(cfg, s, events[0]).active == s.active && ScanStays(cfg, Next(cfg, s, events[0]), events[1..]))
  }

  /** Some event of the run fails a pending boot and so takes the worker from a scan that is active to the end of the run. */
  ghost predicate LosesWorker(cfg: Contract, s: State, events: seq<Event>)
    requires Indexed(s) && Legal(cfg, s, events)
    decreases |events|
  {
    events != [] &&
      ((s.active.Some? && Attended(s) && FailsPendingBoot(cfg, s, events[0]) && ScanStays(cfg, s, events))
       || LosesWorker(cfg, Next(cfg, s, events[0]), events[1..]))
  }

  lemma {:induction false} UnattendedIff(cfg: Contract, s: State, events: seq<Event>)
    requires Inv(cfg, s) && Legal(cfg, s, events)
    ensures !Attended(After(cfg, s, events)) <==> LosesWorker(cfg, s, events) || (!Attended(s) && ScanStays(cfg, s, events))
    decreases |events|
  {
    hide OneScan, SettledOnce, TimersMatch, OneWorker, HistoryHolds, HostsHold, WorksForActive, OwnResults, Next, Enabled;
    hide Attended, FailsPendingBoot;
    if events != [] {
      var e, r := events[0], Next(cfg, s, events[0]);
      StepKeeps(cfg, s, e);
      UnattendedIff(cfg, r, events[1..]);
      if Attended(s) {
        AttendedIff(cfg, s, e);
      } else {
        UnattendedStays(cfg, s, e);
        NobodyIsAttended(s);
        NobodyIsAttended(r);
      }
    }
  }

  lemma NobodyIsAttended(s: State)
    ensures s.active.None? ==> Attended(s)
  {
  }

  /**
   * At the end of any run the active scan is without its worker exactly when, since it became active, a boot that was still
   * pending failed: its init timer fired, its worker broke, or it reported itself unready.
   */
  lemma StrandedIff(cfg: Contract, events: seq<Event>)
    requires Legal(cfg, INITIAL, events)
    ensures !Attended(After(cfg, INITIAL, events)) <==> LosesWorker(cfg, INITIAL, events)
  {
    hide LosesWorker, ScanStays;
    InitialHolds(cfg);
    NobodyIsAttended(INITIAL);
    UnattendedIff(cfg, INITIAL, events);
  }

  /** Whenever a scan is active in the run, no boot waits for its worker. */
  ghost predicate NoBootPending(cfg: Contract, s: State, events: seq<Event>)
    requires Indexed(s) && Legal(cfg, s, events)
    decreases |events|
  {
    && (s.active.Some? ==> forall k :: 0 <= k < |s.boots| ==> !s.boots[k].promise.Pending?)
    && (events == [] || NoBootPending(cfg, Next(cfg, s, events[0]), events[1..]))
  }

  lemma {:induction false} QuietBootsLoseNothing(cfg: Contract, s: State, events: seq<Event>)
    requires Indexed(s) && Legal(cfg, s, events) && NoBootPending(cfg, s, events)
    ensures !LosesWorker(cfg, s, events)
    decreases |events|
  {
    hide Next, ReadyProblem;
    if events != [] {
      QuietBootsLoseNothing(cfg, Next(cfg, s, events[0]), events[1..]);
    }
  }

  /** As long as no boot is pending beside an active scan, the scan always has its worker. */
  lemma NeverStranded(cfg: Contract, events: seq<Event>)
    requires Legal(cfg, INITIAL, events) && NoBootPending(cfg, INITIAL, events)
    ensures Attended(After(cfg, INITIAL, events))
  {
    hide LosesWorker, NoBootPending, Attended;
    QuietBootsLoseNothing(cfg, INITIAL, events);
    StrandedIff(cfg, events);
  }

  /**
   * The first worker boots badly and its report is still on its way when the page shuts down; the page starts again and scans
   * on a second worker.
   */
  function StaleBootRun(bad: Ready, data: Ready): seq<Event> {
    [Warmup(true, true), HostBoots(0, bad), Shutdown, Warmup(true, true), HostBoots(1, data), Deliver(1),
     Start(7, Free, None, false, true, true), Resume(0, 0, true)]
  }

  lemma StaleBootState(cfg: Contract, bad: Ready, data: Ready)
    requires ReadyProblem(cfg, data).None?
    ensures Legal(cfg, INITIAL, StaleBootRun(bad, data))
    ensures var s := After(cfg, INITIAL, StaleBootRun(bad, data));
      && s.active.Some? && s.worker == Some(1) && |s.boots| == 2 && s.boots[0].promise.Pending? && s.boots[0].timer
      && s.boots[0].host.outbox == [WorkerReady(bad)]
  {
    var run := StaleBootRun(bad, data);
    var s1 := Next(cfg, INITIAL, run[0]);
    var s2 := Next(cfg, s1, run[1]);
    var s3 := Next(cfg, s2, run[2]);
    var s4 := Next(cfg, s3, run[3]);
    var s5 := Next(cfg, s4, run[4]);
    var s6 := Next(cfg, s5, run[5]);
    var s7 := Next(cfg, s6, run[6]);
    var s8 := Next(cfg, s7, run[7]);
    hide Next, ReadyProblem;
    Unfold(cfg, s7, run[7..]);
    Unfold(cfg, s6, run[6..]);
    Unfold(cfg, s5, run[5..]);
    Unfold(cfg, s4, run[4..]);
    Unfold(cfg, s3, run[3..]);
    Unfold(cfg, s2, run[2..]);
    Unfold(cfg, s1, run[1..]);
    Unfold(cfg, INITIAL, run);
  }

  /** All three ways happen: each of these events may follow, and each leaves the scan active and without a worker. */
  lemma StaleBootStrandsTheScan(cfg: Contract, bad: Ready, data: Ready, code: Code)
    requires ReadyProblem(cfg, data).None? && ReadyProblem(cfg, bad).Some?
    ensures Legal(cfg, INITIAL, StaleBootRun(bad, data))
    ensures var s := After(cfg, INITIAL, StaleBootRun(bad, data));
      forall e :: e in {InitTimer(0), Broke(0, code), Deliver(0)} ==>
        Enabled(s, e) && Next(cfg, s, e).active.Some? && Next(cfg, s, e).worker.None? && !Attended(Next(cfg, s, e))
  {
    InitialHolds(cfg);
    StaleBootState(cfg, bad, data);
    RunKeeps(cfg, INITIAL, StaleBootRun(bad, data));
    var s := After(cfg, INITIAL, StaleBootRun(bad, data));
    hide Inv, Next, Legal, After, ReadyProblem;
    LosesWorkerIff(cfg, s, InitTimer(0));
    LosesWorkerIff(cfg, s, Broke(0, code));
    LosesWorkerIff(cfg, s, Deliver(0));
  }

  lemma Unfold(cfg: Contract, s: State, events: seq<Event>)
    requires Indexed(s) && events != []
    ensures Legal(cfg, s, events) <==> Enabled(s, events[0]) && Legal(cfg, Next(cfg, s, events[0]), events[1..])
    ensures Legal(cfg, s, events) ==> After(cfg, s, events) == After(cfg, Next(cfg, s, events[0]), events[1..])
  {
    hide Next, Enabled;
  }
}
