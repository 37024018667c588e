/**
The Go agent: what each of its critical sections does to the state behind its mutex, and what its
client remembers of the Device Worker.  Between two sections of one call the mutex is free; module
Split interleaves them.
*/
module GoCore {
  import opened DeviceTable
  import opened Transaction
  import opened Connections
  import opened AgentModel
  import opened Wrappers
  import DeviceWorker
  import Lease

  datatype Config = Config(backend: Backend, leaseSeconds: real)

  /** The state behind the mutex, apart from the lease. */
  datatype Core = Core(model: Model, status: Status, lastError: LastError, gate: bool /* startup recovery required */)

  /** The last worker state that a reply carried; UNKNOWN after an RPC error. */
  datatype Client = Client(generation: nat, cache: DeviceWorker.CacheStatus)

  datatype Terms = Terms(strategy: Strategy, transport: Transport, delay: nat, expected: Option<nat>, token: string)

  datatype Refusal =
    | Unexecutable | LeaseRefused | RevisionMissing | RevisionConflict | GateClosed | CacheNotReady | WrongMode
    | EditRefused

  datatype Answer =
    | Updated
    | Same                    // "unchanged"
    | Recovered
    | Reconciled
    | Refused(cause: Refusal)
    | Disagreed               // the worker's own preconditions failed
    | Restored                // failed, and the previous entries are back
    | Broken                  // failed, and so did the rollback
    | Unavailable             // no reply

  /** The reported cache status: never READY while a startup recovery is required. */
  function ReportedCache(core: Core, client: Client): DeviceWorker.CacheStatus {
    if core.gate then DeviceWorker.DRIFTED else client.cache
  }

  function Capture(client: Client, reply: DeviceWorker.Reply): Client {
    if reply.Reply? then Client(reply.generation, reply.cache) else client.(cache := DeviceWorker.UNKNOWN)
  }

  // ---------------------------------------------------------------- admission

  function CheckControl(c: Config, revision: nat, k: Control, terms: Terms, now: real): (Control, Option<Refusal>) {
    var (l, answer) := Lease.Step(c.leaseSeconds, k.lease, Lease.Event(Lease.Check(terms.token), now, now));
    (Control(l, k.requests + 1),
     if answer != Lease.Accepted then Some(LeaseRefused)
     else if terms.expected.None? then Some(RevisionMissing)
     else if terms.expected.value != revision then Some(RevisionConflict)
     else None)
  }

  function CheckState(core: Core, client: Client, modeChange: bool): Option<Refusal> {
    if core.gate then Some(GateClosed)
    else if client.cache != DeviceWorker.READY then Some(CacheNotReady)
    else if !modeChange && core.model.mode != OCS then Some(WrongMode)
    else None
  }

  datatype Admission =
    | Declined(answer: Answer)
    | Admitted(target: ValidSet, mode: Mode, call: DeviceWorker.Call)

  function ApplyCall(client: Client, previous: set<Pair>, target: set<Pair>, terms: Terms): DeviceWorker.Call {
    DeviceWorker.ApplyTransition(previous, target, terms.strategy, terms.transport, terms.delay, client.generation)
  }

  function Plan(m: Model, client: Client, target: ValidSet, mode: Mode, terms: Terms): Admission {
    if Equal(target, m.connections) && mode == m.mode then Declined(Same)
    else Admitted(target, mode, ApplyCall(client, CurrentPairs(m), PairsFor(target, mode), terms))
  }

  /** The first locked section of a write; `mode` is given by a mode change. */
  function AdmitWrite(c: Config, core: Core, k: Control, client: Client, target: ValidSet, mode: Option<Mode>,
                      terms: Terms, now: real): (Core, Control, Admission)
  {
    if !Accepted(c.backend, terms.strategy, terms.delay, terms.transport) then
      (core, k, Declined(Refused(Unexecutable)))
    else
      var (k1, cause) := CheckControl(c, core.model.revision, k, terms, now);
      if cause.Some? then (core, k1, Declined(Refused(cause.value)))
      else
        var cause := CheckState(core, client, mode.Some?);
        if cause.Some? then (core, k1, Declined(Refused(cause.value)))
        else
          var plan := Plan(core.model, client, target, if mode.Some? then mode.value else core.model.mode, terms);
          (if plan.Admitted? then core.(status := Updating) else core, k1, plan)
  }

  function AdmitRecover(c: Config, core: Core, k: Control, terms: Terms, now: real): (Core, Control, Option<Refusal>) {
    var (k1, cause) := CheckControl(c, core.model.revision, k, terms, now);
    (if cause.None? then core.(status := Updating) else core, k1, cause)
  }

  // ---------------------------------------------------------------- completion

  predicate Succeeded(reply: DeviceWorker.Reply) {
    reply.Reply? && reply.success
  }

  /** What a reply without success does to the status. */
  function BackendError(core: Core, reply: DeviceWorker.Reply): (Core, Answer) {
    match reply
    case RpcError => (core.(status := Failed, lastError := OtherError), Unavailable)
    case Reply(_, restored, code, _, _, _) =>
      if code == DeviceWorker.FAILED_PRECONDITION then (core.(status := Failed, lastError := OtherError), Disagreed)
      else if restored then (core.(status := Ready, lastError := OtherError), Restored)
      else (core.(status := Failed, lastError := OtherError), Broken)
  }

  /** The second locked section of a write.  The revision is counted up from its value now. */
  function CommitWrite(core: Core, target: ValidSet, mode: Mode, reply: DeviceWorker.Reply): (Core, Answer) {
    if Succeeded(reply) then (Core(Model(target, mode, core.model.revision + 1), Ready, NoError, core.gate), Updated)
    else BackendError(core, reply)
  }

  function CommitRecover(core: Core, reply: DeviceWorker.Reply): (Core, Answer) {
    if Succeeded(reply) then
      (Core(core.model.(revision := core.model.revision + 1), Ready, NoError, false), Recovered)
    else BackendError(core, reply)
  }

  function FinishReconcile(core: Core, desired: set<Pair>, reply: DeviceWorker.Reply): (Core, Answer) {
    if reply.RpcError? then (core.(status := Failed, lastError := OtherError), Unavailable)
    else if reply.cache != DeviceWorker.READY || reply.observed != desired then
      (core.(status := Failed, lastError := DriftDetected), Reconciled)
    else if !core.gate && core.lastError == DriftDetected then
      (core.(status := Ready, lastError := NoError), Reconciled)
    else (core, Reconciled)
  }

  // ---------------------------------------------------------------- startup

  /** The agent after its startup read, or None when a transition is needed first. */
  function StartFrom(initial: ValidSet, observed: set<Pair>, policy: StartupPolicy): Option<Core> {
    if observed == DirectedPairs(initial) then Some(Core(Model(initial, OCS, 0), Ready, NoError, false))
    else if policy == REQUIRE_MATCH then Some(Core(Model(initial, OCS, 0), Failed, OtherError, true))
    else None
  }

  // ---------------------------------------------------------------- what the sections promise

  /** A write is admitted only by the lease holder, at the expected revision, outside the startup
      gate and with a READY client; its call swaps exactly the current pairs for the new ones. */
  lemma AdmissionMeans(c: Config, core: Core, k: Control, client: Client, target: ValidSet, mode: Option<Mode>,
                       terms: Terms, now: real)
    ensures var (core', k', plan) := AdmitWrite(c, core, k, client, target, mode, terms, now);
            && core'.model == core.model && core'.gate == core.gate
            && core'.status == (if plan.Admitted? then Updating else core.status)
            && (plan.Declined? ==> core' == core && (plan.answer == Same || plan.answer.Refused?))
            && (plan.Admitted? ==>
                  && terms.token != "" && k'.lease.token == terms.token && now < k'.lease.expires
                  && terms.expected == Some(core.model.revision)
                  && !core.gate && client.cache == DeviceWorker.READY
                  && plan.target == target && (mode.Some? ==> plan.mode == mode.value)
                  && (mode.None? ==> plan.mode == core.model.mode == OCS)
                  && plan.call == ApplyCall(client, CurrentPairs(core.model), PairsFor(plan.target, plan.mode), terms))
            && (plan == Declined(Same) ==>
                  Equal(target, core.model.connections) && (mode.Some? ==> mode.value == core.model.mode))
  {
  }

  /** The caller holds the lease, and it has not run out. */
  predicate HoldsLease(k: Control, token: string, now: real) {
    token != "" && k.lease.token == token && now < k.lease.expires
  }

  /** What a recovery needs: the lease and the current revision, behind the gate or not. */
  predicate MayRecover(core: Core, k: Control, terms: Terms, now: real) {
    HoldsLease(k, terms.token, now) && terms.expected == Some(core.model.revision)
  }

  /** What a write needs besides: an open gate, a READY client, and, unless it changes the mode, "ocs" mode. */
  predicate MayWrite(core: Core, k: Control, client: Client, change: Option<Mode>, terms: Terms, now: real) {
    && MayRecover(core, k, terms, now) && !core.gate && client.cache == DeviceWorker.READY
    && (change.None? ==> core.model.mode == OCS)
  }

  /** A write is admitted exactly if it can be carried out, its caller may write, and it would change
      something; "unchanged" is answered exactly if only the last is missing. */
  lemma AdmitsIff(c: Config, core: Core, k: Control, client: Client, target: ValidSet, change: Option<Mode>,
                  terms: Terms, now: real)
    requires target.n == core.model.connections.n
    ensures var plan := AdmitWrite(c, core, k, client, target, change, terms, now).2;
            var may := Accepted(c.backend, terms.strategy, terms.delay, terms.transport)
                       && MayWrite(core, k, client, change, terms, now);
            var same := SameItems(target, core.model.connections) && (change.None? || change.value == core.model.mode);
            (plan.Admitted? <==> may && !same) && (plan == Declined(Same) <==> may && same)
  {
    EqualIff(target, core.model.connections);
  }

  lemma RecoverAdmitsIff(c: Config, core: Core, k: Control, terms: Terms, now: real)
    ensures AdmitRecover(c, core, k, terms, now).2.None? <==> MayRecover(core, k, terms, now)
  {
  }

  /** "Unchanged" is the truth: the device would get the same pairs. */
  lemma UnchangedMeans(core: Core, client: Client, target: ValidSet, mode: Mode, terms: Terms)
    requires target.n == core.model.connections.n
    requires Plan(core.model, client, target, mode, terms) == Declined(Same)
    ensures PairsFor(target, mode) == CurrentPairs(core.model)
  {
    if mode == OCS { EqualSetsSamePairs(target, core.model.connections); }
  }
}
