/**
The Python agent over an in-process P4Runtime adapter, as a state machine: one step per public
call, carried out under the agent's lock.  The device with its fault script is part of the state,
so a run fixes every way in which requests may fail.
*/
module OcsCore {
  import opened DeviceTable
  import opened Transaction
  import opened DeviceWorker
  import opened Connections
  import opened AgentModel
  import opened Wrappers
  import Lease

  datatype Config = Config(nativeBatch: bool, strict: bool /* STRICT_DEVICE */, leaseSeconds: real)

  /** What the agent believes about the device, and the device itself. */
  datatype View = View(status: Status, lastError: LastError, gate: bool /* startup recovery required */,
                       generation: nat, cache: CacheStatus, drifts: nat, device: Device)

  datatype Agent = Agent(config: Config, model: Model, control: Control, view: View)

  datatype Terms = Terms(strategy: Strategy, transport: Transport, delay: int, expected: Option<int>,
                         token: string, now: real)

  datatype Event =
    | LeaseCall(call: Lease.Event)
    | Write(edits: seq<Edit>, terms: Terms)
    | SetMode(mode: Option<Mode>, terms: Terms)
    | RecoverDevice(terms: Terms)
    | ReconcileDevice

  datatype Cause =
    | Invalid | LeaseRefused | RevisionMissing | RevisionConflict | GateClosed | CacheNotReady | WrongMode
    | DriftFound | ReadFailed | BackendRejected | Restored | Broken

  datatype Reply =
    | Updated
    | Same                        // "unchanged"
    | Recovered
    | Refused(cause: Cause)
    | LeaseReply(answer: Lease.Answer)
    | Reconciled

  // ---------------------------------------------------------------- the device side of a write

  function Capture(v: View, success: bool): View {
    var v1 := if success then v.(generation := v.generation + 1, cache := READY) else v;
    if v1.gate then v1.(cache := DRIFTED) else v1
  }

  function NoteDrift(v: View): View {
    v.(drifts := if v.cache != DRIFTED then v.drifts + 1 else v.drifts, cache := DRIFTED)
  }

  /** STRICT_DEVICE reads the table before a write. */
  function Precheck(strict: bool, v: View, current: set<Pair>): (View, Option<Cause>) {
    if !strict then (v, None)
    else
      var (d, ok) := Send(v.device, Read, {});
      var v1 := v.(device := d);
      if !ok then (v1, Some(ReadFailed))
      else if d.table != current then
        (Capture(NoteDrift(v1), false).(status := Failed, lastError := OtherError), Some(DriftFound))
      else (v1, None)
  }

  /** How a write handles the backend's answer; `noted` is the error text kept on a failure. */
  function Settle(v: View, outcome: Outcome, noted: LastError): (View, Option<Cause>) {
    match outcome
    case Rejected(_) => (v, Some(BackendRejected))
    case Returned(_) => (v, None)
    case RolledBack => (Capture(v, false).(status := Ready, lastError := noted), Some(Restored))
    case RollbackFailed => (Capture(v, false).(status := Failed, lastError := noted), Some(Broken))
  }

  function Execute(c: Config, v: View, current: set<Pair>, target: set<Pair>, strategy: Strategy, terms: Terms,
                   noted: LastError): (View, Option<Cause>)
  {
    var (d, outcome) := Apply(P4App(c.nativeBatch), v.device, current, target, strategy, terms.delay, terms.transport);
    Settle(v.(device := d), outcome, noted)
  }

  function Program(c: Config, v: View, current: set<Pair>, target: set<Pair>, strategy: Strategy, terms: Terms,
                   noted: LastError): (View, Option<Cause>)
  {
    var (v1, cause) := Precheck(c.strict, v.(status := Updating), current);
    if cause.Some? then (v1, cause) else Execute(c, v1, current, target, strategy, terms, noted)
  }

  function RecoveryFailed(v: View): View {
    v.(cache := UNKNOWN, status := Failed, lastError := OtherError)
  }

  /** A recovery once its first read has succeeded: transition from what was read, read again. */
  function Reprogram(c: Config, d: Device, desired: set<Pair>, terms: Terms): (Device, bool) {
    var (d1, outcome) := Apply(P4App(c.nativeBatch), d, d.table, desired, terms.strategy, terms.delay, terms.transport);
    if outcome.Returned? then Verify(d1, desired) else (d1, false)
  }

  function RecoverView(c: Config, v: View, desired: set<Pair>, terms: Terms): (View, bool) {
    var (d, read) := Send(v.device, Read, {});
    var v1 := v.(status := Updating, device := d);
    if !read then (RecoveryFailed(v1), false)
    else
      var (d1, done) := Reprogram(c, d, desired, terms);
      var v2 := v1.(device := d1);
      if !done then (RecoveryFailed(v2), false)
      else (Capture(v2.(gate := false), true).(status := Ready, lastError := NoError), true)
  }

  /** The judgement on a table that reconciliation has read. */
  function Judge(v: View, observed: set<Pair>, desired: set<Pair>): View {
    var v1 := if observed == desired then v.(cache := READY) else NoteDrift(v);
    if v1.gate then v1.(status := Failed, cache := DRIFTED, lastError := OtherError)
    else if observed != desired then v1.(status := Failed, lastError := DriftDetected)
    else if v1.lastError == DriftDetected then v1.(status := Ready, lastError := NoError)
    else v1
  }

  function ReconcileView(v: View, desired: set<Pair>): View {
    var (d, read) := Send(v.device, Read, {});
    var v1 := v.(device := d);
    if read then Judge(v1, d.table, desired) else v1.(cache := UNKNOWN, status := Failed, lastError := OtherError)
  }

  // ---------------------------------------------------------------- calls

  function LeaseStep(c: Config, k: Control, call: Lease.Event): (Control, Lease.Answer) {
    var (l, answer) := Lease.Step(c.leaseSeconds, k.lease, call);
    (k.(lease := l), answer)
  }

  function CheckRevision(revision: nat, expected: Option<int>): Option<Cause> {
    match expected
    case None => Some(RevisionMissing)
    case Some(r) => if r < 0 then Some(Invalid) else if r != revision then Some(RevisionConflict) else None
  }

  /** Lease and revision, the checks that a recovery shares with the writes. */
  function CheckControl(a: Agent, terms: Terms): (Control, Option<Cause>) {
    var (k, answer) := LeaseStep(a.config, a.control.(requests := a.control.requests + 1),
                                 Lease.Event(Lease.Check(terms.token), terms.now, terms.now));
    (k, if answer != Lease.Accepted then Some(LeaseRefused) else CheckRevision(a.model.revision, terms.expected))
  }

  function CheckWrite(a: Agent, terms: Terms): (Control, Option<Cause>) {
    var (k, cause) := CheckControl(a, terms);
    (k, if cause.Some? then cause
        else if a.view.gate then Some(GateClosed)
        else if a.view.cache != READY then Some(CacheNotReady)
        else None)
  }

  function RecordTarget(m: Model, v: View, target: ValidSet): (Model, View, Reply) {
    (Model(target, m.mode, m.revision + 1), Capture(v, true).(status := Ready, lastError := NoError), Updated)
  }

  /** Program the device for a new connection set and record the result; `current` and `pairs` are
      what the device holds and what it is to hold. */
  function ChangeTarget(c: Config, m: Model, v: View, current: set<Pair>, pairs: set<Pair>, target: ValidSet,
                        terms: Terms): (Model, View, Reply)
  {
    var (v1, failed) := Program(c, v, current, pairs, terms.strategy, terms, OtherError);
    if failed.Some? then (m, v1, Refused(failed.value)) else RecordTarget(m, v1, target)
  }

  /** A write of connections once its preconditions hold. */
  function CommitTarget(c: Config, m: Model, v: View, target: ValidSet, terms: Terms): (Model, View, Reply) {
    if m.mode != OCS then (m, v, Refused(WrongMode))
    else if Equal(target, m.connections) then (m, v, Same)
    else ChangeTarget(c, m, v, CurrentPairs(m), DirectedPairs(target), target, terms)
  }

  function RecordMode(m: Model, v: View, mode: Mode): (Model, View, Reply) {
    (Model(m.connections, mode, m.revision + 1), Capture(v.(status := Ready), true), Updated)
  }

  function ChangeMode(c: Config, m: Model, v: View, current: set<Pair>, pairs: set<Pair>, mode: Mode, terms: Terms)
    : (Model, View, Reply)
  {
    var (v1, failed) := Program(c, v, current, pairs, FULL, terms, v.lastError);
    if failed.Some? then (m, v1, Refused(failed.value)) else RecordMode(m, v1, mode)
  }

  function CommitMode(c: Config, m: Model, v: View, mode: Mode, terms: Terms): (Model, View, Reply) {
    if mode == m.mode then (m, v, Same)
    else ChangeMode(c, m, v, CurrentPairs(m), PairsFor(m.connections, mode), mode, terms)
  }

  function ApplyTarget(a: Agent, target: ValidSet, terms: Terms): (Agent, Reply) {
    if !(0 <= terms.delay <= MAX_DELAY_US) then (a, Refused(Invalid))
    else
      var (k, cause) := CheckWrite(a, terms);
      if cause.Some? then (a.(control := k), Refused(cause.value))
      else
        var (m, v, reply) := CommitTarget(a.config, a.model, a.view, target, terms);
        (Agent(a.config, m, k, v), reply)
  }

  function WriteStep(a: Agent, edits: seq<Edit>, terms: Terms): (Agent, Reply)
    requires ValidEdits(a.model.connections.n, edits)
  {
    match Target(a.model.connections, edits)
    case Failure(_) => (a, Refused(Invalid))
    case Success(target) => ApplyTarget(a, target, terms)
  }

  function SetModeStep(a: Agent, mode: Option<Mode>, terms: Terms): (Agent, Reply) {
    if mode.None? || !(0 <= terms.delay <= MAX_DELAY_US) then (a, Refused(Invalid))
    else
      var (k, cause) := CheckWrite(a, terms);
      if cause.Some? then (a.(control := k), Refused(cause.value))
      else
        var (m, v, reply) := CommitMode(a.config, a.model, a.view, mode.value, terms);
        (Agent(a.config, m, k, v), reply)
  }

  function RecoverModel(c: Config, m: Model, v: View, desired: set<Pair>, terms: Terms): (Model, View, Reply) {
    var (v1, done) := RecoverView(c, v, desired, terms);
    if done then (m.(revision := m.revision + 1), v1, Recovered) else (m, v1, Refused(Broken))
  }

  function RecoverStep(a: Agent, terms: Terms): (Agent, Reply) {
    var (k, cause) := CheckControl(a, terms);
    if cause.Some? then (a.(control := k), Refused(cause.value))
    else
      var (m, v, reply) := RecoverModel(a.config, a.model, a.view, CurrentPairs(a.model), terms);
      (Agent(a.config, m, k, v), reply)
  }

  predicate GoodEvent(n: nat, e: Event) {
    e.Write? ==> ValidEdits(n, e.edits)
  }

  function Step(a: Agent, e: Event): (Agent, Reply)
    requires GoodEvent(a.model.connections.n, e)
  {
    match e
    case LeaseCall(call) =>
      var (k, answer) := LeaseStep(a.config, a.control, call);
      (a.(control := k), LeaseReply(answer))
    case Write(edits, terms) => WriteStep(a, edits, terms)
    case SetMode(mode, terms) => SetModeStep(a, mode, terms)
    case RecoverDevice(terms) => RecoverStep(a, terms)
    case ReconcileDevice => (a.(view := ReconcileView(a.view, CurrentPairs(a.model))), Reconciled)
  }

  /** Construction after the startup read. */
  function StartFrom(c: Config, v: View, observed: set<Pair>, desired: set<Pair>, policy: StartupPolicy): Option<View> {
    if observed == desired then Some(Capture(v.(status := Ready), true))
    else if policy == REQUIRE_MATCH then
      Some(Capture(v.(status := Failed, gate := true, lastError := OtherError), true))
    else
      var (d, outcome) := Apply(P4App(c.nativeBatch), v.device, observed, desired, FULL, 0, SEQUENTIAL);
      if outcome.Returned? then Some(Capture(v.(device := d, status := Ready), true)) else None
  }

  /** Construction: None when it raises. */
  function StartView(c: Config, desired: set<Pair>, policy: StartupPolicy, device: Device): Option<View> {
    var (d, read) := Send(device, Read, {});
    if read then StartFrom(c, View(Updating, NoError, false, 0, UNKNOWN, 0, d), d.table, desired, policy) else None
  }

  function Start(c: Config, initial: ValidSet, policy: StartupPolicy, device: Device): Option<Agent> {
    match StartView(c, DirectedPairs(initial), policy, device)
    case None => None
    case Some(v) => Some(Agent(c, Model(initial, OCS, 0), Control(Lease.START, 0), v))
  }

  // ---------------------------------------------------------------- what one step keeps

  /** Ready is a promise about the device table; the startup gate excludes it. */
  predicate ViewAgrees(v: View, current: set<Pair>) {
    && (v.status == Ready ==> v.device.table == current)
    && (v.gate ==> v.status == Failed && v.cache != READY)
  }

  predicate Agrees(a: Agent) {
    ViewAgrees(a.view, CurrentPairs(a.model))
  }

  lemma StartAgrees(c: Config, desired: set<Pair>, policy: StartupPolicy, device: Device)
    ensures var r := StartView(c, desired, policy, device);
            r.Some? ==>
              && ViewAgrees(r.value, desired) && r.value.generation == 1
              && (r.value.gate <==> device.table != desired && policy == REQUIRE_MATCH)
              && (r.value.gate ==> r.value.device == Send(device, Read, {}).0)
  {
    var (d, _) := Send(device, Read, {});
    ApplyOutcome(P4App(c.nativeBatch), d, d.table, desired, FULL, 0, SEQUENTIAL);
  }

  lemma ProgramKeeps(c: Config, v: View, current: set<Pair>, target: set<Pair>, strategy: Strategy, terms: Terms,
                     noted: LastError)
    requires !v.gate
    ensures var (v', cause) := Program(c, v, current, target, strategy, terms, noted);
            && !v'.gate && v'.generation == v.generation
            && (v'.status == Ready ==> cause == Some(Restored) && v'.device.table == current)
            && (cause.None? ==> v'.device.table == target)
            && (cause.Some? && cause != Some(Broken) && v.device.table == current ==> v'.device.table == current)
  {
    var (v1, cause) := Precheck(c.strict, v.(status := Updating), current);
    if cause.None? {
      ApplyOutcome(P4App(c.nativeBatch), v1.device, current, target, strategy, terms.delay, terms.transport);
    }
  }

  lemma RecoverViewKeeps(c: Config, v: View, desired: set<Pair>, terms: Terms)
    ensures var (v', done) := RecoverView(c, v, desired, terms);
            && (done ==> !v'.gate && v'.status == Ready && v'.device.table == desired)
            && (!done ==> v'.gate == v.gate && v'.status == Failed && v'.cache == UNKNOWN)
            && v'.generation == v.generation + (if done then 1 else 0)
            && v'.drifts == v.drifts && (done ==> v'.cache == READY)
  {
    var (d, _) := Send(v.device, Read, {});
    var (d1, outcome) := Apply(P4App(c.nativeBatch), d, d.table, desired, terms.strategy, terms.delay, terms.transport);
    ApplyOutcome(P4App(c.nativeBatch), d, d.table, desired, terms.strategy, terms.delay, terms.transport);
    if outcome.Returned? { VerifyOutcome(d1, desired, {}, {}); }
  }

  lemma ReconcileViewKeeps(v: View, desired: set<Pair>)
    ensures var v' := ReconcileView(v, desired);
            && (ViewAgrees(v, desired) ==> ViewAgrees(v', desired))
            && v'.gate == v.gate && v'.device.table == v.device.table && v'.generation == v.generation
            && (v.gate ==> v'.cache != READY && v'.status == Failed)
  {
  }

  /** What both kinds of write have in common: success means that the device holds the new
      pairs, and any other answer leaves connections, mode and revision as they were. */
  predicate Committed(m: Model, v: View, m': Model, v': View, reply: Reply) {
    && (ViewAgrees(v, CurrentPairs(m)) ==> ViewAgrees(v', CurrentPairs(m')))
    && v'.gate == v.gate && m'.connections.n == m.connections.n
    && v'.generation == v.generation + (if reply == Updated then 1 else 0)
    && (reply == Updated || reply == Same || reply.Refused?)
    && (reply == Updated ==> m'.revision == m.revision + 1 && v'.device.table == CurrentPairs(m') && v'.status == Ready)
    && (reply != Updated ==> m' == m)
    && (reply == Same ==> v' == v)
    && (reply.Refused? && reply.cause != Broken && v.device.table == CurrentPairs(m) ==>
          v'.device.table == v.device.table)
  }

  lemma ChangeTargetKeeps(c: Config, m: Model, v: View, current: set<Pair>, pairs: set<Pair>, target: ValidSet,
                          terms: Terms)
    requires !v.gate && target.n == m.connections.n && m.mode == OCS
    requires current == CurrentPairs(m) && pairs == DirectedPairs(target)
    ensures var (m', v', reply) := ChangeTarget(c, m, v, current, pairs, target, terms);
            Committed(m, v, m', v', reply) && (reply == Updated ==> m' == Model(target, m.mode, m.revision + 1))
  {
    ProgramKeeps(c, v, current, pairs, terms.strategy, terms, OtherError);
  }

  lemma CommitTargetKeeps(c: Config, m: Model, v: View, target: ValidSet, terms: Terms)
    requires !v.gate && target.n == m.connections.n
    ensures var (m', v', reply) := CommitTarget(c, m, v, target, terms);
            Committed(m, v, m', v', reply) && (reply == Updated ==> m' == Model(target, m.mode, m.revision + 1))
  {
    if m.mode == OCS { ChangeTargetKeeps(c, m, v, CurrentPairs(m), DirectedPairs(target), target, terms); }
  }

  lemma ChangeModeKeeps(c: Config, m: Model, v: View, current: set<Pair>, pairs: set<Pair>, mode: Mode, terms: Terms)
    requires !v.gate && current == CurrentPairs(m) && pairs == PairsFor(m.connections, mode)
    ensures var (m', v', reply) := ChangeMode(c, m, v, current, pairs, mode, terms);
            Committed(m, v, m', v', reply) && (reply == Updated ==> m' == Model(m.connections, mode, m.revision + 1))
  {
    ProgramKeeps(c, v, current, pairs, FULL, terms, v.lastError);
  }

  lemma CommitModeKeeps(c: Config, m: Model, v: View, mode: Mode, terms: Terms)
    requires !v.gate
    ensures var (m', v', reply) := CommitMode(c, m, v, mode, terms);
            Committed(m, v, m', v', reply) && (reply == Updated ==> m' == Model(m.connections, mode, m.revision + 1))
  {
    ChangeModeKeeps(c, m, v, CurrentPairs(m), PairsFor(m.connections, mode), mode, terms);
  }

  /** The caller holds the lease, and it has not run out. */
  predicate HoldsLease(k: Control, terms: Terms) {
    terms.token != "" && k.lease.token == terms.token && terms.now < k.lease.expires
  }

  /** What a recovery needs: the lease and the current revision, behind the gate or not. */
  predicate MayRecover(a: Agent, terms: Terms) {
    HoldsLease(a.control, terms) && terms.expected == Some(a.model.revision)
  }

  /** What a write needs besides: an open gate and a READY cache. */
  predicate MayWrite(a: Agent, terms: Terms) {
    MayRecover(a, terms) && !a.view.gate && a.view.cache == READY
  }

  /** The checks let through exactly these calls. */
  lemma ChecksIff(a: Agent, terms: Terms)
    ensures CheckControl(a, terms).1.None? <==> MayRecover(a, terms)
    ensures CheckWrite(a, terms).1.None? <==> MayWrite(a, terms)
  {
  }

  /** One write of connections: committed only at the expected revision and outside the gate. */
  lemma ApplyTargetKeeps(a: Agent, target: ValidSet, terms: Terms)
    requires target.n == a.model.connections.n
    ensures var (a', reply) := ApplyTarget(a, target, terms);
            && Committed(a.model, a.view, a'.model, a'.view, reply)
            && (reply == Updated ==>
                  && terms.expected == Some(a.model.revision) && !a.view.gate
                  && a'.model == Model(target, a.model.mode, a.model.revision + 1))
  {
    ChecksIff(a, terms);
    if !a.view.gate { CommitTargetKeeps(a.config, a.model, a.view, target, terms); }
  }

  /** A write of the lease holder at the current revision, outside the gate and with a READY cache, takes
      effect unless a request to the device fails. */
  lemma UndisturbedUpdates(a: Agent, target: ValidSet, terms: Terms)
    requires target.n == a.model.connections.n && Agrees(a) && a.view.status == Ready
    requires MayWrite(a, terms) && a.model.mode == OCS && !Equal(target, a.model.connections)
    requires terms.delay == 0 && Accepted(P4App(a.config.nativeBatch), terms.strategy, 0, terms.transport)
    ensures var (a', reply) := ApplyTarget(a, target, terms);
            Failures(a'.view.device.log) == Failures(a.view.device.log) ==>
              reply == Updated && a'.model.connections == target && a'.view.device.table == DirectedPairs(target)
  {
    ChecksIff(a, terms);
    ApplyTargetKeeps(a, target, terms);
    UndisturbedProgram(a.config, a.view, CurrentPairs(a.model), DirectedPairs(target), terms.strategy, terms,
                       OtherError);
  }

  lemma UndisturbedProgram(c: Config, v: View, current: set<Pair>, target: set<Pair>, strategy: Strategy, terms: Terms,
                           noted: LastError)
    requires v.device.table == current && terms.delay == 0
    requires Accepted(P4App(c.nativeBatch), strategy, 0, terms.transport)
    ensures var (v', cause) := Program(c, v, current, target, strategy, terms, noted);
            Failures(v'.device.log) == Failures(v.device.log) ==> cause.None?
  {
    SendFailures(v.device, Read, {});
    var d := if c.strict then Send(v.device, Read, {}).0 else v.device;
    ReturnsIffUndisturbed(P4App(c.nativeBatch), d, current, target, strategy, 0, terms.transport);
  }

  /** From any state of agent and device, behind the gate or not: a recovery by the lease holder at the
      current revision succeeds unless a request to the device fails, opens the gate and makes everything right. */
  lemma UndisturbedRecovers(a: Agent, terms: Terms)
    requires MayRecover(a, terms)
    requires terms.delay == 0 && Accepted(P4App(a.config.nativeBatch), terms.strategy, 0, terms.transport)
    requires Failures(RecoverStep(a, terms).0.view.device.log) == Failures(a.view.device.log)
    ensures var (a', reply) := RecoverStep(a, terms);
            && reply == Recovered && !a'.view.gate && a'.view.status == Ready && a'.view.cache == READY
            && a'.view.device.table == CurrentPairs(a'.model) == CurrentPairs(a.model)
            && a'.model.revision == a.model.revision + 1
  {
    ChecksIff(a, terms);
    UndisturbedView(a.config, a.view, CurrentPairs(a.model), terms);
    RecoverViewKeeps(a.config, a.view, CurrentPairs(a.model), terms);
  }

  lemma UndisturbedView(c: Config, v: View, desired: set<Pair>, terms: Terms)
    requires terms.delay == 0 && Accepted(P4App(c.nativeBatch), terms.strategy, 0, terms.transport)
    ensures var (v', done) := RecoverView(c, v, desired, terms);
            Failures(v'.device.log) == Failures(v.device.log) ==> done
  {
    var d := Send(v.device, Read, {}).0;
    var d1 := Apply(P4App(c.nativeBatch), d, d.table, desired, terms.strategy, 0, terms.transport).0;
    SendFailures(v.device, Read, {});
    ReturnsIffUndisturbed(P4App(c.nativeBatch), d, d.table, desired, terms.strategy, 0, terms.transport);
    ApplyOutcome(P4App(c.nativeBatch), d, d.table, desired, terms.strategy, 0, terms.transport);
    SendFailures(d1, Read, {});
  }

  lemma SetModeKeeps(a: Agent, mode: Option<Mode>, terms: Terms)
    ensures var (a', reply) := SetModeStep(a, mode, terms);
            && Committed(a.model, a.view, a'.model, a'.view, reply)
            && (reply == Updated ==>
                  && terms.expected == Some(a.model.revision) && !a.view.gate && mode.Some?
                  && a'.model == Model(a.model.connections, mode.value, a.model.revision + 1))
  {
    ChecksIff(a, terms);
    if !a.view.gate && mode.Some? { CommitModeKeeps(a.config, a.model, a.view, mode.value, terms); }
  }

  /** A batch is all or nothing: it takes effect as a whole, or connections, mode and revision
      stay and -- unless the rollback itself failed -- so does the table.  A batch with a failing
      edit does not even touch the lease. */
  lemma BatchAllOrNothing(a: Agent, edits: seq<Edit>, terms: Terms)
    requires ValidEdits(a.model.connections.n, edits)
    ensures var (a', reply) := WriteStep(a, edits, terms);
            && (ApplyEdits(a.model.connections, edits).Failure? ==> a' == a && reply.Refused?)
            && Committed(a.model, a.view, a'.model, a'.view, reply)
            && (reply == Updated ==>
                  && terms.expected == Some(a.model.revision) && !a.view.gate
                  && ApplyEdits(a.model.connections, edits) == Success(a'.model.connections)
                  && a'.model.mode == a.model.mode)
  {
    var t := Target(a.model.connections, edits);
    if t.Success? { ApplyTargetKeeps(a, t.value, terms); }
  }

  lemma RecoverKeeps(a: Agent, terms: Terms)
    ensures var (a', reply) := RecoverStep(a, terms);
            && (Agrees(a) ==> Agrees(a'))
            && (reply == Recovered || reply.Refused?)
            && (reply == Recovered ==>
                  && terms.expected == Some(a.model.revision)
                  && a'.model == a.model.(revision := a.model.revision + 1)
                  && !a'.view.gate && a'.view.status == Ready && a'.view.device.table == CurrentPairs(a'.model))
            && (reply != Recovered ==> a'.model == a.model && a'.view.gate == a.view.gate)
            && a'.view.generation == a.view.generation + (if reply == Recovered then 1 else 0)
  {
    ChecksIff(a, terms);
    RecoverViewKeeps(a.config, a.view, CurrentPairs(a.model), terms);
  }

  predicate Succeeds(reply: Reply) {
    reply == Updated || reply == Recovered
  }

  lemma StepKeeps(a: Agent, e: Event)
    requires GoodEvent(a.model.connections.n, e)
    ensures var (a', reply) := Step(a, e);
            && (Agrees(a) ==> Agrees(a'))
            && a'.model.connections.n == a.model.connections.n
            && a'.model.revision == a.model.revision + (if Succeeds(reply) then 1 else 0)
            && a'.view.generation == a.view.generation + (if Succeeds(reply) then 1 else 0)
            && (Succeeds(reply) ==>
                  (e.Write? || e.SetMode? || e.RecoverDevice?) && e.terms.expected == Some(a.model.revision))
            && (a.view.gate ==> a'.view.gate || (e.RecoverDevice? && reply == Recovered))
            && (a'.view.gate ==> a.view.gate)
  {
    match e
    case LeaseCall(_) =>
    case Write(edits, terms) => BatchAllOrNothing(a, edits, terms);
    case SetMode(mode, terms) => SetModeKeeps(a, mode, terms);
    case RecoverDevice(terms) => RecoverKeeps(a, terms);
    case ReconcileDevice => ReconcileViewKeeps(a.view, CurrentPairs(a.model));
  }
}
