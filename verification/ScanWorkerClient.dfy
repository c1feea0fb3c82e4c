/**
 * The page's side of the protocol with its module variables, and the worker's side, as the handlers update them; every
 * handler of the page keeps what all runs of the protocol keep.
 */
module ScanWorkerClient {
  import opened Prelude
  import opened ScanProtocol
  import opened ScanSafety

  class Client {
    const cfg: Contract
    var worker: Option<nat>
    var readyPromise: Option<nat>
    var active: Option<Active>
    var scanReserved: bool
    var requestCounter: nat
    // What the handlers act on outside the module variables: boots and their workers, promises, suspended calls, timers.
    var boots: seq<Boot>
    var calls: seq<Call>
    var waiting: seq<Suspended>
    var timers: set<nat>
    ghost var issued: seq<Issue>

    ghost function View(): State
      reads this
    {
      State(worker, readyPromise, active, scanReserved, requestCounter, boots, calls, waiting, timers, issued)
    }

    constructor (cfg: Contract)
      ensures View() == INITIAL && this.cfg == cfg && Inv(cfg, View())
    {
      InitialHolds(cfg);
      this.cfg := cfg;
      worker, readyPromise, active, scanReserved, requestCounter := None, None, None, false, 0;
      boots, calls, waiting, timers, issued := [], [], [], {}, [];
    }

    method SettleCall(call: nat, outcome: Outcome)
      requires call < |calls|
      modifies this`calls
      ensures View() == Settle(old(View()), call, outcome)
    {
      calls := calls[call := calls[call].(settlements := calls[call].settlements + [outcome])];
    }

    method CleanupActive()
      modifies this`active, this`timers
      ensures View() == if old(active).None? then old(View())
        else old(View()).(active := None, timers := old(timers) - {old(active).value.call})
    {
      if active.Some? {
        timers := timers - {active.value.call};
        active := None;
      }
    }

    /** Clears the worker variables and terminates the worker they named. */
    method ClearWorker()
      requires Indexed(View())
      modifies this`worker, this`readyPromise, this`boots
      ensures View() == DropWorker(old(View()))
    {
      var current := worker;
      worker := None;
      readyPromise := None;
      if current.Some? {
        boots := boots[current.value := boots[current.value].(host := boots[current.value].host.(alive := false))];
      }
    }

    method TerminateWorker(code: Code)
      requires Indexed(View())
      modifies this
      ensures View() == ScanProtocol.TerminateWorker(old(View()), code)
      ensures old(Inv(cfg, View())) ==> Inv(cfg, View())
    {
      if Inv(cfg, View()) {
        TerminateKeeps(cfg, View(), code);
      }
      hide Inv;
      ClearWorker();
      if active.Some? {
        var call := active.value.call;
        CleanupActive();
        SettleCall(call, Rejected(code));
      }
    }

    method FailInit(k: nat, code: Code)
      requires Indexed(View()) && k < |boots|
      modifies this
      ensures View() == ScanProtocol.FailInit(old(View()), k, code)
      ensures old(Inv(cfg, View())) ==> Inv(cfg, View())
    {
      if Inv(cfg, View()) {
        FailInitKeeps(cfg, View(), k, code);
      }
      hide Inv;
      if !boots[k].promise.Pending? {
        return;
      }
      boots := boots[k := boots[k].(promise := Broken(code), timer := false)];
      ClearWorker();
    }

    method EnsureWorker(supported: bool, created: bool) returns (k: nat)
      requires Indexed(View())
      modifies this
      ensures (View(), k) == ScanProtocol.EnsureWorker(old(View()), supported, created)
      ensures old(Inv(cfg, View())) ==> Inv(cfg, View())
    {
      if Inv(cfg, View()) {
        EnsureKeeps(cfg, View(), supported, created);
      }
      hide Inv;
      if worker.Some? && readyPromise.Some? {
        return readyPromise.value;
      }
      k := |boots|;
      if !supported {
        boots := boots + [Boot(Broken(Unsupported), false, NoHost())];
        return;
      }
      if !created {
        boots := boots + [Boot(Broken(CreateFailed), false, NoHost())];
        ClearWorker();
        readyPromise := Some(k);
        return;
      }
      boots := boots + [Boot(Pending, true, NewHost())];
      worker := Some(k);
      readyPromise := Some(k);
    }

    method OnMessage(k: nat, reply: Reply)
      requires Inv(cfg, View()) && k < |boots|
      modifies this
      ensures View() == ScanProtocol.OnMessage(cfg, old(View()), k, reply)
      ensures old(Answers(issued, k, reply) && Unanswered(boots[k].host, reply)) ==> Inv(cfg, View())
    {
      if Answers(issued, k, reply) && Unanswered(boots[k].host, reply) {
        MessageKeeps(cfg, View(), k, reply);
      }
      hide OneScan, SettledOnce, TimersMatch, OneWorker, HistoryHolds, HostsHold, WorksForActive, OwnResults;
      if reply.WorkerReady? {
        if !boots[k].promise.Pending? {
          return;
        }
        var problem := ReadyProblem(cfg, reply.data);
        if problem.Some? {
          FailInit(k, problem.value);
          return;
        }
        boots := boots[k := boots[k].(promise := Fulfilled, timer := false)];
        return;
      }
      if active.None? || reply.id != active.value.id {
        return;
      }
      var current := active.value;
      CleanupActive();
      if reply.ScanError? {
        SettleCall(current.call, Rejected(reply.code));
        return;
      }
      var problem := ReportProblem(cfg, current.mode, reply.report);
      if problem.Some? {
        SettleCall(current.call, Rejected(problem.value));
      } else {
        SettleCall(current.call, Resolved(reply.report.value));
      }
    }

    method OnError(k: nat, code: Code)
      requires Inv(cfg, View()) && k < |boots|
      modifies this
      ensures View() == ScanProtocol.OnError(old(View()), k, code)
      ensures Inv(cfg, View())
    {
      StepKeeps(cfg, View(), Broke(k, code));
      hide OneScan, SettledOnce, TimersMatch, OneWorker, HistoryHolds, HostsHold, WorksForActive, OwnResults;
      if boots[k].promise.Pending? {
        FailInit(k, code);
      } else {
        TerminateWorker(code);
      }
    }

    /** `scanFileInWorker` up to its await. */
    method ScanFile(file: File, mode: Mode, problem: Option<Code>, aborted: bool, supported: bool, created: bool)
      requires Inv(cfg, View())
      modifies this
      ensures View() == StartScan(old(View()), file, mode, problem, aborted, supported, created)
      ensures Inv(cfg, View())
    {
      StartKeeps(cfg, View(), file, mode, problem, aborted, supported, created);
      hide OneScan, SettledOnce, TimersMatch, OneWorker, HistoryHolds, HostsHold, WorksForActive, OwnResults;
      var refusal :=
        if problem.Some? then problem
        else if mode == OtherMode then Some(InvalidMode)
        else if active.Some? || scanReserved then Some(WorkerBusy)
        else if aborted then Some(WorkerAborted)
        else None;
      if refusal.Some? {
        calls := calls + [Call(file, mode, [Rejected(refusal.value)])];
        return;
      }
      ghost var before := View();
      scanReserved := true;
      assert View() == before.(scanReserved := true);
      var k := EnsureWorker(supported, created);
      waiting := waiting + [Suspended(|calls|, k, false)];
      calls := calls + [Call(file, mode, [])];
    }

    /** `scanFileInWorker` after its await. */
    method AfterAwait(w: nat, stamp: nat, delivered: bool)
      requires Inv(cfg, View()) && Enabled(View(), Resume(w, stamp, delivered))
      modifies this
      ensures View() == ResumeScan(old(View()), w, stamp, delivered)
      ensures Inv(cfg, View())
    {
      ResumeKeeps(cfg, View(), w, stamp, delivered);
      hide OneScan, SettledOnce, TimersMatch, OneWorker, HistoryHolds, HostsHold, WorksForActive, OwnResults;
      var me := waiting[w];
      waiting := waiting[..w] + waiting[w + 1..];
      scanReserved := false;
      if boots[me.boot].promise.Broken? {
        SettleCall(me.call, Rejected(boots[me.boot].promise.code));
        return;
      }
      if me.aborted {
        SettleCall(me.call, Rejected(WorkerAborted));
        return;
      }
      Post(me.call, stamp, delivered);
    }

    /** The executor that makes the scan active and posts its request. */
    method Post(call: nat, stamp: nat, delivered: bool)
      requires Indexed(View()) && call < |calls|
      modifies this
      ensures View() == Launch(old(View()), call, stamp, delivered)
    {
      requestCounter := requestCounter + 1;
      var request := Request(RequestId(stamp, requestCounter), calls[call].file, calls[call].mode);
      timers := timers + {call};
      active := Some(Active(request.id, request.mode, call));
      if delivered && worker.Some? {
        issued := issued + [Issue(call, worker, request)];
        var boot := boots[worker.value];
        boots := boots[worker.value := boot.(host := boot.host.(inbox := boot.host.inbox + [Scan(request)]))];
      } else {
        issued := issued + [Issue(call, None, request)];
        CleanupActive();
        SettleCall(call, Rejected(PostFailed));
      }
    }

    method OnAbort(call: nat)
      requires Inv(cfg, View())
      modifies this
      ensures View() == Abort(old(View()), call)
      ensures Inv(cfg, View())
    {
      AbortKeeps(cfg, View(), call);
      hide OneScan, SettledOnce, TimersMatch, OneWorker, HistoryHolds, HostsHold, WorksForActive, OwnResults;
      if active.Some? && active.value.call == call {
        TerminateWorker(WorkerAborted);
      } else {
        waiting := MarkAborted(waiting, call);
      }
    }

    method CancelActiveScan() returns (cancelled: bool)
      requires Inv(cfg, View())
      modifies this
      ensures cancelled == old(active).Some? && View() == Next(cfg, old(View()), Cancel)
      ensures Inv(cfg, View())
    {
      StepKeeps(cfg, View(), Cancel);
      hide OneScan, SettledOnce, TimersMatch, OneWorker, HistoryHolds, HostsHold, WorksForActive, OwnResults;
      if active.None? {
        return false;
      }
      TerminateWorker(WorkerAborted);
      return true;
    }
  }

  /** The worker's own variables; `posted` is what it has sent, `suspended` the scan its handler awaits. */
  class WorkerHost {
    const cfg: Contract
    const ready: Ready
    var activeRequestId: Option<RequestId>
    var suspended: Option<Request>
    var posted: seq<Reply>

    ghost predicate Valid()
      reads this
    {
      activeRequestId == if suspended.Some? then Some(suspended.value.id) else None
    }

    /** This worker as the protocol sees it, apart from the messages still on their way to it. */
    ghost function View(): Host
      reads this
    {
      Host(true, Some(ready), [], suspended, posted)
    }

    constructor (cfg: Contract, ready: Ready)
      ensures Valid() && this.cfg == cfg && this.ready == ready
      ensures View() == Host(true, Some(ready), [], None, []).Post(WorkerReady(ready))
    {
      this.cfg, this.ready := cfg, ready;
      activeRequestId, suspended, posted := None, None, [WorkerReady(ready)];
    }

    method OnMessage(m: Inbound, problem: Option<Code>)
      requires Valid()
      modifies this
      ensures Valid() && View() == HostReceives(old(View()), m, problem)
    {
      if m.Ping? {
        posted := posted + [WorkerReady(ready)];
        return;
      }
      var refusal := if !ready.ready then Some(NotReady) else problem;
      if refusal.Some? {
        posted := posted + [ScanError(m.request.id, refusal.value)];
        return;
      }
      if activeRequestId.Some? {
        posted := posted + [ScanError(m.request.id, WorkerBusy)];
        return;
      }
      activeRequestId := Some(m.request.id);
      suspended := Some(m.request);
    }

    method OnPipelineDone(produced: Produced)
      requires Valid() && suspended.Some?
      modifies this
      ensures Valid() && View() == HostFinishes(old(View()), cfg, produced)
    {
      var request := suspended.value;
      suspended := None;
      if produced.Threw? {
        posted := posted + [ScanError(request.id, produced.code)];
      } else {
        var problem := ReportProblem(cfg, request.mode, produced.report);
        if problem.Some? {
          posted := posted + [ScanError(request.id, problem.value)];
        } else {
          posted := posted + [ScanResult(request.id, produced.report)];
        }
      }
      activeRequestId := None;
    }
  }
}
