/**
The Go agent and the Device Worker as two processes.  A call holds the commit token from its
first section to its last, but the mutex only inside a section; in between, lease calls go on,
requests are lost, and requests whose callers have given up may still reach the worker.
*/
module Split {
  import opened DeviceTable
  import opened Transaction
  import opened Connections
  import opened AgentModel
  import opened GoCore
  import opened Wrappers
  import DeviceWorker
  import Lease

  /** The calls that need the commit token. */
  datatype Job =
    | Assign(target: ValidSet, terms: Terms)            // ReplaceConnections, ApplyPermutation
    | Operations(edits: seq<Edit>, expected: Option<nat>, token: string)
    | ChangeMode(mode: Mode, terms: Terms)
    | RecoverState(expected: Option<nat>, token: string)
    | ReconcileState

  /** How far the holder of the token has come.  `before` is the model at admission. */
  datatype Phase =
    | Holding(job: Job)
    | Prepared(target: ValidSet, change: Option<Mode>, terms: Terms)
    | Writing(target: ValidSet, mode: Mode, terms: Terms, before: Model, call: DeviceWorker.Call)
    | Recovering(terms: Terms, before: Model, call: DeviceWorker.Call)
    | Reconciling(call: DeviceWorker.Call)
  {
    predicate Called() { Writing? || Recovering? || Reconciling? }
  }

  /** The agent process. */
  datatype Agent = Agent(core: Core, control: Control, client: Client)

  /** Requests that may still reach the worker, and replies that may still reach their callers. */
  datatype Network = Network(requests: map<nat, DeviceWorker.Call>, replies: map<nat, DeviceWorker.Reply>)

  datatype System = System(config: Config, agent: Agent, tokens: nat, ops: map<nat, Phase>,
                           net: Network, worker: DeviceWorker.Worker, edited: bool)

  datatype Event =
    | LeaseCall(call: Lease.Event)
    | Acquire(id: nat, job: Job)      // put a token into the commit channel
    | Prepare(id: nat)                        // the reading section
    | Admit(id: nat, now: real)               // the first writing section, and the RPC
    | Execute(id: nat)                        // the worker carries out a request, however late
    | Lose(id: nat)                           // a request never arrives
    | Finish(id: nat, heard: bool)            // reply or RPC error, and the last section
    | OutsideEdit(table: set<Pair>)

  datatype Note = Nothing | LeaseNote(reply: Lease.Answer) | Done(answer: Answer)

  /** The terms that the gNMI batch and recovery are executed under. */
  function BatchTerms(expected: Option<nat>, token: string): Terms {
    Terms(DELTA, SEQUENTIAL, 0, expected, token)
  }

  function RecoverTerms(expected: Option<nat>, token: string): Terms {
    Terms(FULL, SEQUENTIAL, 0, expected, token)
  }

  function Ports(s: System): nat {
    s.agent.core.model.connections.n
  }

  /** What a caller can hand over: sets that went through the constructor for these ports. */
  predicate GoodJob(n: nat, r: Job) {
    match r
    case Assign(target, _) => target.n == n
    case Operations(edits, _, _) => ValidEdits(n, edits)
    case _ => true
  }

  /** The holder's call is over: answer, and take the token out of the channel. */
  function Release(s: System, id: nat, agent: Agent): System {
    s.(agent := agent, ops := s.ops - {id}, tokens := if s.tokens > 0 then s.tokens - 1 else 0,
       net := Network(s.net.requests, s.net.replies - {id}))
  }

  function Advance(s: System, id: nat, phase: Phase): System {
    s.(ops := s.ops[id := phase])
  }

  /** Send the call of a phase. */
  function Dispatch(s: System, id: nat, agent: Agent, phase: Phase): System
    requires phase.Called()
  {
    s.(agent := agent, ops := s.ops[id := phase],
       net := Network(s.net.requests[id := phase.call], s.net.replies))
  }

  function AcquireStep(s: System, id: nat, job: Job): System {
    if s.tokens == 0 && GoodJob(Ports(s), job) && id !in s.ops && id !in s.net.requests && id !in s.net.replies then
      s.(tokens := 1, ops := s.ops[id := Holding(job)])
    else s
  }

  /** The fold over a gNMI batch, against the connections read in the same section. */
  function FoldBatch(m: Model, edits: seq<Edit>): Option<ValidSet>
    requires ValidEdits(m.connections.n, edits)
  {
    if m.mode != OCS then None
    else match Target(m.connections, edits) { case Failure(_) => None case Success(t) => Some(t) }
  }

  function PrepareStep(s: System, id: nat, job: Job): (System, Note)
    requires GoodJob(Ports(s), job)
  {
    var m := s.agent.core.model;
    match job
    case Assign(target, terms) => (Advance(s, id, Prepared(target, None, terms)), Nothing)
    case Operations(edits, expected, token) =>
      (match FoldBatch(m, edits)
       case None => (Release(s, id, s.agent), Done(Refused(EditRefused)))
       case Some(t) => (Advance(s, id, Prepared(t, None, BatchTerms(expected, token))), Nothing))
    case ChangeMode(mode, terms) =>
      (Advance(s, id, Prepared(m.connections, Some(mode), terms.(strategy := FULL))), Nothing)
    case RecoverState(_, _) => (s, Nothing)
    case ReconcileState => (Dispatch(s, id, s.agent, Reconciling(DeviceWorker.Reconcile(CurrentPairs(m)))), Nothing)
  }

  function AdmitStep(s: System, id: nat, phase: Phase, now: real): (System, Note) {
    var a := s.agent;
    match phase
    case Prepared(target, mode, terms) =>
      var (core, k, plan) := AdmitWrite(s.config, a.core, a.control, a.client, target, mode, terms, now);
      (match plan
       case Declined(answer) => (Release(s, id, Agent(core, k, a.client)), Done(answer))
       case Admitted(t, m, call) =>
         (Dispatch(s, id, Agent(core, k, a.client), Writing(t, m, terms, a.core.model, call)), Nothing))
    case Holding(RecoverState(expected, token)) =>
      var terms := RecoverTerms(expected, token);
      var (core, k, cause) := AdmitRecover(s.config, a.core, a.control, terms, now);
      (match cause
       case Some(refusal) => (Release(s, id, Agent(core, k, a.client)), Done(Refused(refusal)))
       case None =>
         var call := DeviceWorker.Recover(CurrentPairs(a.core.model), FULL, SEQUENTIAL, 0);
         (Dispatch(s, id, Agent(core, k, a.client), Recovering(terms, a.core.model, call)), Nothing))
    case _ => (s, Nothing)
  }

  /** The worker answers a request; the reply is of use only to a caller that still waits. */
  function ExecuteStep(s: System, id: nat, call: DeviceWorker.Call): System {
    var (w, reply) := DeviceWorker.Step(s.worker, call);
    var waiting := id in s.ops && s.ops[id].Called();
    s.(worker := w,
       net := Network(s.net.requests - {id}, if waiting then s.net.replies[id := reply] else s.net.replies))
  }

  /** The last section, given what the client heard. */
  function FinishCore(core: Core, phase: Phase, reply: DeviceWorker.Reply): (Core, Answer)
    requires phase.Called()
  {
    match phase
    case Writing(target, mode, _, _, _) => CommitWrite(core, target, mode, reply)
    case Recovering(_, _, _) => CommitRecover(core, reply)
    case Reconciling(call) => if call.Reconcile? then FinishReconcile(core, call.desired, reply) else (core, Reconciled)
  }

  function Heard(s: System, id: nat, heard: bool): DeviceWorker.Reply {
    if heard && id in s.net.replies then s.net.replies[id] else DeviceWorker.RpcError
  }

  function FinishStep(s: System, id: nat, phase: Phase, heard: bool): (System, Note)
    requires phase.Called()
  {
    var reply := Heard(s, id, heard);
    var (core, answer) := FinishCore(s.agent.core, phase, reply);
    (Release(s, id, Agent(core, s.agent.control, Capture(s.agent.client, reply))), Done(answer))
  }

  /** One event.  An event that is not enabled changes nothing. */
  function Step(s: System, e: Event): (System, Note) {
    match e
    case LeaseCall(call) =>
      var (l, answer) := Lease.Step(s.config.leaseSeconds, s.agent.control.lease, call);
      (s.(agent := s.agent.(control := s.agent.control.(lease := l))), LeaseNote(answer))
    case Acquire(id, job) => (AcquireStep(s, id, job), Nothing)
    case Prepare(id) =>
      if id in s.ops && s.ops[id].Holding? && GoodJob(Ports(s), s.ops[id].job) then PrepareStep(s, id, s.ops[id].job)
      else (s, Nothing)
    case Admit(id, now) => if id in s.ops then AdmitStep(s, id, s.ops[id], now) else (s, Nothing)
    case Execute(id) => (if id in s.net.requests then ExecuteStep(s, id, s.net.requests[id]) else s, Nothing)
    case Lose(id) => (s.(net := s.net.(requests := s.net.requests - {id})), Nothing)
    case Finish(id, heard) =>
      if id in s.ops && s.ops[id].Called() then FinishStep(s, id, s.ops[id], heard) else (s, Nothing)
    case OutsideEdit(table) =>
      (s.(worker := s.worker.(device := s.worker.device.(table := table)), edited := true), Nothing)
  }

  /** Startup against a worker in any state, with requests of an earlier agent still under way.
      None when construction fails. */
  function Boot(c: Config, initial: ValidSet, policy: StartupPolicy, w: DeviceWorker.Worker,
                requests: map<nat, DeviceWorker.Call>): Option<System>
  {
    var client := Client(w.generation, w.cache);
    var control := Control(Lease.START, 0);
    match StartFrom(initial, w.entries, policy)
    case Some(core) =>
      Some(System(c, Agent(core, control, client), 0, map[], Network(requests, map[]), w, !DeviceWorker.Truthful(w)))
    case None =>
      var call := DeviceWorker.ApplyTransition(w.entries, DirectedPairs(initial), FULL, SEQUENTIAL, 0, w.generation);
      var (w1, reply) := DeviceWorker.Step(w, call);
      if !Succeeded(reply) then None
      else
        var core := Core(Model(initial, OCS, 0), Ready, NoError, false);
        Some(System(c, Agent(core, control, Capture(client, reply)), 0, map[], Network(requests, map[]), w1,
                    !DeviceWorker.Truthful(w)))
  }
}
