/**
 * The scan worker protocol of scan-worker-client.js and scan-worker.js as one system of steps: the page with its module
 * variables, every worker it ever started (terminated ones included, whose posted messages may still arrive), the
 * suspended scan calls, and the timers. Any enabled event may happen next.
 */
module ScanProtocol {
  import opened Prelude

  /** A file handed to a scan, by identity only. */
  type File = nat

  datatype Mode = Free | Pro | OtherMode

  datatype Code =
    | WorkerBusy | WorkerAborted | WorkerShutdown | ScanTimedOut | RuntimeError | MessageError
    | Unsupported | CreateFailed | InitTimeout | BootFailed | ProtocolMismatch | ContractMismatch | VersionMismatch
    | SchemaMismatch | PostFailed | InvalidResult | InvalidVerdict | ModeMismatch | AppMismatch | NotReady | InvalidMode
    | OtherCode(n: nat)

  /** What both sides compare versions and results against. */
  datatype Contract = Contract(protocol: nat, version: nat, hostVersion: nat, schema: nat, verdicts: set<nat>, app: nat)

  datatype RequestId = RequestId(stamp: nat, number: nat)

  datatype Request = Request(id: RequestId, file: File, mode: Mode)

  /** A pipeline result; `file` is the file it was computed from. */
  datatype Report = Report(file: File, mode: Mode, schema: nat, verdict: nat, app: nat)

  datatype Ready = Ready(ready: bool, error: Option<Code>, protocol: nat, version: nat, hostVersion: nat, schema: nat)

  datatype Inbound = Ping | Scan(request: Request)

  datatype Reply =
    | WorkerReady(data: Ready)
    | ScanResult(id: RequestId, report: Option<Report>)
    | ScanError(id: RequestId, code: Code)

  datatype Outcome = Resolved(report: Report) | Rejected(code: Code)

  /** Why a report is refused for a request in `mode`; the worker and the page make the same checks in the same order. */
  function ReportProblem(cfg: Contract, mode: Mode, report: Option<Report>): Option<Code> {
    match report
    case None => Some(InvalidResult)
    case Some(r) =>
      if r.schema != cfg.schema then Some(SchemaMismatch)
      else if r.verdict !in cfg.verdicts then Some(InvalidVerdict)
      else if r.mode != mode then Some(ModeMismatch)
      else if r.app != cfg.app then Some(AppMismatch)
      else None
  }

  /** Why the page refuses a `worker_ready` message. */
  function ReadyProblem(cfg: Contract, data: Ready): Option<Code> {
    if !data.ready then Some(if data.error.Some? then data.error.value else BootFailed)
    else if data.protocol != cfg.protocol then Some(ProtocolMismatch)
    else if data.version != cfg.version then Some(ContractMismatch)
    else if data.hostVersion != cfg.hostVersion then Some(VersionMismatch)
    else if data.schema != cfg.schema then Some(SchemaMismatch)
    else None
  }

  // ---------- The worker ----------

  /** A worker with the messages on their way to it and from it; `activeRequest` is the scan it is suspended in. */
  datatype Host = Host(
    alive: bool, ready: Option<Ready>, inbox: seq<Inbound>, activeRequest: Option<Request>, outbox: seq<Reply>)
  {
    function Post(reply: Reply): Host {
      this.(outbox := outbox + [reply])
    }

    predicate Pending(number: nat) {
      || (exists m :: m in inbox && m.Scan? && m.request.id.number == number)
      || (activeRequest.Some? && activeRequest.value.id.number == number)
    }
  }

  function NewHost(): Host {
    Host(true, None, [Ping], None, [])
  }

  function NoHost(): Host {
    Host(false, None, [], None, [])
  }

  /** The worker's message handler up to its first suspension; `problem` is what request validation would say. */
  function HostReceives(h: Host, m: Inbound, problem: Option<Code>): Host
    requires h.ready.Some?
  {
    match m
    case Ping => h.Post(WorkerReady(h.ready.value))
    case Scan(request) =>
      if !h.ready.value.ready then h.Post(ScanError(request.id, NotReady))
      else if problem.Some? then h.Post(ScanError(request.id, problem.value))
      else if h.activeRequest.Some? then h.Post(ScanError(request.id, WorkerBusy))
      else h.(activeRequest := Some(request))
  }

  /** What the pipeline hands back to the suspended handler. */
  datatype Produced = Returned(report: Option<Report>) | Threw(code: Code)

  /** The rest of the handler: the answer is posted and the slot is freed in one go. */
  function HostFinishes(h: Host, cfg: Contract, produced: Produced): Host
    requires h.activeRequest.Some?
  {
    var request := h.activeRequest.value;
    var reply := match produced
      case Threw(code) => ScanError(request.id, code)
      case Returned(report) =>
        var problem := ReportProblem(cfg, request.mode, report);
        if problem.Some? then ScanError(request.id, problem.value) else ScanResult(request.id, report);
    h.Post(reply).(activeRequest := None)
  }

  // ---------- The page ----------

  datatype Promise = Pending | Fulfilled | Broken(code: Code)

  /** One run of the ready-promise executor: its promise, whether its init timer is armed, and its worker. */
  datatype Boot = Boot(promise: Promise, timer: bool, host: Host)

  /** A call of `scan`: its input and every time its promise was settled. */
  datatype Call = Call(file: File, mode: Mode, settlements: seq<Outcome>)

  datatype Active = Active(id: RequestId, mode: Mode, call: nat)

  /** A call suspended until the promise of `boot` settles. */
  datatype Suspended = Suspended(call: nat, boot: nat, aborted: bool)

  /** History: the request behind a request number and the worker it was posted to. */
  datatype Issue = Issue(call: nat, worker: Option<nat>, request: Request)

  datatype State = State(
    worker: Option<nat>, readyPromise: Option<nat>, active: Option<Active>, scanReserved: bool, requestCounter: nat,
    boots: seq<Boot>, calls: seq<Call>, waiting: seq<Suspended>, timers: set<nat>, issued: seq<Issue>)

  const INITIAL: State := State(None, None, None, false, 0, [], [], [], {}, [])

  function SetHost(s: State, k: nat, h: Host): State
    requires k < |s.boots|
  {
    s.(boots := s.boots[k := s.boots[k].(host := h)])
  }

  function SetPromise(s: State, k: nat, p: Promise): State
    requires k < |s.boots|
  {
    s.(boots := s.boots[k := s.boots[k].(promise := p, timer := false)])
  }

  function Settle(s: State, call: nat, outcome: Outcome): State
    requires call < |s.calls|
  {
    var c := s.calls[call];
    s.(calls := s.calls[call := c.(settlements := c.settlements + [outcome])])
  }

  /** `cleanupActive`, followed by settling the scan that was active. */
  function Conclude(s: State, outcome: Outcome): State
    requires s.active.Some? && s.active.value.call < |s.calls|
  {
    var a := s.active.value;
    Settle(s.(active := None, timers := s.timers - {a.call}), a.call, outcome)
  }

  predicate Indexed(s: State) {
    && (s.worker.Some? ==> s.worker.value < |s.boots|)
    && (s.readyPromise.Some? ==> s.readyPromise.value < |s.boots|)
    && (s.active.Some? ==> s.active.value.call < |s.calls|)
    && forall i :: 0 <= i < |s.waiting| ==> s.waiting[i].call < |s.calls| && s.waiting[i].boot < |s.boots|
  }

  /** The worker variable is cleared and its worker, if any, terminated. */
  function DropWorker(s: State): (r: State)
    requires Indexed(s)
    ensures Indexed(r) && |r.boots| == |s.boots|
  {
    var stopped := if s.worker.None? then s
      else SetHost(s, s.worker.value, s.boots[s.worker.value].host.(alive := false));
    stopped.(worker := None, readyPromise := None)
  }

  function TerminateWorker(s: State, code: Code): (r: State)
    requires Indexed(s)
    ensures Indexed(r)
  {
    var dropped := DropWorker(s);
    if s.active.None? then dropped else Conclude(dropped, Rejected(code))
  }

  /** `failInit` of boot `k`: it drops whatever worker the page now has, and leaves the active scan alone. */
  function FailInit(s: State, k: nat, code: Code): (r: State)
    requires Indexed(s) && k < |s.boots|
    ensures Indexed(r)
  {
    if s.boots[k].promise.Pending? then DropWorker(SetPromise(s, k, Broken(code))) else s
  }

  /** `ensureWorker`: the index of the boot whose promise the caller gets. */
  function EnsureWorker(s: State, supported: bool, created: bool): (r: (State, nat))
    requires Indexed(s)
    ensures Indexed(r.0) && r.1 < |r.0.boots|
  {
    var k := |s.boots|;
    if s.worker.Some? && s.readyPromise.Some? then (s, s.readyPromise.value)
    else if !supported then (s.(boots := s.boots + [Boot(Broken(Unsupported), false, NoHost())]), k)
    else if !created then
      (DropWorker(s.(boots := s.boots + [Boot(Broken(CreateFailed), false, NoHost())])).(readyPromise := Some(k)), k)
    else (s.(boots := s.boots + [Boot(Pending, true, NewHost())], worker := Some(k), readyPromise := Some(k)), k)
  }

  /** The page's message handler of boot `k`. */
  function OnMessage(cfg: Contract, s: State, k: nat, reply: Reply): (r: State)
    requires Indexed(s) && k < |s.boots|
    ensures Indexed(r)
  {
    match reply
    case WorkerReady(data) =>
      if !s.boots[k].promise.Pending? then s
      else
        var problem := ReadyProblem(cfg, data);
        if problem.Some? then FailInit(s, k, problem.value) else SetPromise(s, k, Fulfilled)
    case ScanError(id, code) =>
      if s.active.None? || s.active.value.id != id then s else Conclude(s, Rejected(code))
    case ScanResult(id, report) =>
      if s.active.None? || s.active.value.id != id then s
      else
        var problem := ReportProblem(cfg, s.active.value.mode, report);
        Conclude(s, if problem.Some? then Rejected(problem.value) else Resolved(report.value))
  }

  /** A call refused before it holds the reservation. */
  function Refuse(s: State, file: File, mode: Mode, code: Code): State {
    s.(calls := s.calls + [Call(file, mode, [Rejected(code)])])
  }

  /** `scanFileInWorker` up to its await; `problem` is what input validation would say of the file. */
  function StartScan(s: State, file: File, mode: Mode, problem: Option<Code>, aborted: bool, supported: bool,
                     created: bool): (r: State)
    requires Indexed(s)
    ensures Indexed(r)
  {
    if problem.Some? then Refuse(s, file, mode, problem.value)
    else if mode == OtherMode then Refuse(s, file, mode, InvalidMode)
    else if s.active.Some? || s.scanReserved then Refuse(s, file, mode, WorkerBusy)
    else if aborted then Refuse(s, file, mode, WorkerAborted)
    else
      var (t, k) := EnsureWorker(s, supported, created);
      t.(scanReserved := true, calls := t.calls + [Call(file, mode, [])],
         waiting := t.waiting + [Suspended(|t.calls|, k, false)])
  }

  /** The call `w` goes on after its await; `delivered` is false when posting the request throws. */
  function ResumeScan(s: State, w: nat, stamp: nat, delivered: bool): (r: State)
    requires Indexed(s) && w < |s.waiting|
    ensures Indexed(r)
  {
    var me := s.waiting[w];
    var t := s.(waiting := s.waiting[..w] + s.waiting[w + 1..], scanReserved := false);
    match s.boots[me.boot].promise
    case Pending => s
    case Broken(code) => Settle(t, me.call, Rejected(code))
    case Fulfilled =>
      if me.aborted then Settle(t, me.call, Rejected(WorkerAborted))
      else Launch(t, me.call, stamp, delivered)
  }

  /** The scan of `call` becomes active under the next number, with its timer armed. */
  function Activate(s: State, call: nat, stamp: nat, to: Option<nat>): (r: State)
    requires Indexed(s) && call < |s.calls|
    ensures Indexed(r) && r.active.Some?
  {
    var c := s.calls[call];
    var request := Request(RequestId(stamp, s.requestCounter + 1), c.file, c.mode);
    s.(requestCounter := s.requestCounter + 1, active := Some(Active(request.id, c.mode, call)),
       timers := s.timers + {call}, issued := s.issued + [Issue(call, to, request)])
  }

  /** The executor at the end of `scanFileInWorker`: the scan becomes active, then its request is posted. */
  function Launch(s: State, call: nat, stamp: nat, delivered: bool): (r: State)
    requires Indexed(s) && call < |s.calls|
    ensures Indexed(r)
  {
    if !delivered || s.worker.None? then Conclude(Activate(s, call, stamp, None), Rejected(PostFailed))
    else
      var t := Activate(s, call, stamp, s.worker);
      var h := t.boots[s.worker.value].host;
      SetHost(t, s.worker.value, h.(inbox := h.inbox + [Scan(Request(t.active.value.id, s.calls[call].file, s.calls[call].mode))]))
  }

  function MarkAborted(waiting: seq<Suspended>, call: nat): (r: seq<Suspended>)
    ensures |r| == |waiting|
    ensures forall i :: 0 <= i < |r| ==> r[i] == waiting[i].(aborted := waiting[i].aborted || waiting[i].call == call)
  {
    seq(|waiting|, i requires 0 <= i < |waiting| => waiting[i].(aborted := waiting[i].aborted || waiting[i].call == call))
  }

  /** The abort signal of `call` fires: a suspended call will see it, an active one has its listener. */
  function Abort(s: State, call: nat): (r: State)
    requires Indexed(s)
    ensures Indexed(r)
  {
    if s.active.Some? && s.active.value.call == call then TerminateWorker(s, WorkerAborted)
    else s.(waiting := MarkAborted(s.waiting, call))
  }

  /** An `error` or `messageerror` event of the worker of boot `k`. */
  function OnError(s: State, k: nat, code: Code): (r: State)
    requires Indexed(s) && k < |s.boots|
    ensures Indexed(r)
  {
    if s.boots[k].promise.Pending? then FailInit(s, k, code) else TerminateWorker(s, code)
  }

  // ---------- Steps and runs ----------

  datatype Event =
    | Warmup(supported: bool, created: bool)
    | Start(file: File, mode: Mode, problem: Option<Code>, aborted: bool, canUse: bool, works: bool)
    | Resume(w: nat, stamp: nat, delivered: bool)
    | AbortSignal(call: nat)
    | Cancel
    | Shutdown
    | ScanTimer(call: nat)
    | InitTimer(k: nat)
    | Broke(k: nat, code: Code)
    | Deliver(k: nat)
    | HostBoots(k: nat, data: Ready)
    | HostTakes(k: nat, verdict: Option<Code>)
    | HostAnswers(k: nat, produced: Produced)

  /** What may happen: timers fire only when armed, and only a live worker takes steps. */
  predicate Enabled(s: State, e: Event) {
    match e
    case Resume(w, _, _) =>
      w < |s.waiting| && s.waiting[w].boot < |s.boots| && !s.boots[s.waiting[w].boot].promise.Pending?
    case ScanTimer(call) => call in s.timers
    case InitTimer(k) => k < |s.boots| && s.boots[k].timer
    case Broke(k, _) => k < |s.boots|
    case Deliver(k) => k < |s.boots| && s.boots[k].host.outbox != []
    case HostBoots(k, _) => k < |s.boots| && s.boots[k].host.alive && s.boots[k].host.ready.None?
    case HostTakes(k, _) =>
      k < |s.boots| && s.boots[k].host.alive && s.boots[k].host.ready.Some? && s.boots[k].host.inbox != []
    case HostAnswers(k, produced) =>
      && k < |s.boots| && s.boots[k].host.alive && s.boots[k].host.activeRequest.Some?
      && (produced.Returned? && produced.report.Some? ==>
           produced.report.value.file == s.boots[k].host.activeRequest.value.file)
    case _ => true
  }

  function Next(cfg: Contract, s: State, e: Event): (r: State)
    requires Indexed(s) && Enabled(s, e)
    ensures Indexed(r)
  {
    match e
    case Warmup(supported, created) => EnsureWorker(s, supported, created).0
    case Start(file, mode, problem, aborted, canUse, works) => StartScan(s, file, mode, problem, aborted, canUse, works)
    case Resume(w, stamp, delivered) => ResumeScan(s, w, stamp, delivered)
    case AbortSignal(call) => Abort(s, call)
    case Cancel => if s.active.None? then s else TerminateWorker(s, WorkerAborted)
    case Shutdown => TerminateWorker(s, WorkerShutdown)
    case ScanTimer(call) => TerminateWorker(s.(timers := s.timers - {call}), ScanTimedOut)
    case InitTimer(k) => FailInit(s, k, Code.InitTimeout)
    case Broke(k, code) => OnError(s, k, code)
    case Deliver(k) =>
      var h := s.boots[k].host;
      OnMessage(cfg, SetHost(s, k, h.(outbox := h.outbox[1..])), k, h.outbox[0])
    case HostBoots(k, data) =>
      var h := s.boots[k].host;
      SetHost(s, k, h.(ready := Some(data)).Post(WorkerReady(data)))
    case HostTakes(k, verdict) =>
      var h := s.boots[k].host;
      SetHost(s, k, HostReceives(h.(inbox := h.inbox[1..]), h.inbox[0], verdict))
    case HostAnswers(k, produced) => SetHost(s, k, HostFinishes(s.boots[k].host, cfg, produced))
  }
}
