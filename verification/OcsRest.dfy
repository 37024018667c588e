/** What a call of the Python agent leaves behind: when the status stays "updating", when the cache
    status stays READY over a table that is wrong, and what the drift counter counts. */
module OcsRest {
  import opened DeviceTable
  import opened Transaction
  import DeviceWorker
  import opened Connections
  import opened AgentModel
  import opened OcsCore
  import opened Wrappers
  import Lease

  // ---------------------------------------------------------------- status and drift counter

  /** The two ways in which a write answers without having settled the status. */
  predicate LeavesUpdating(reply: Reply) {
    reply == Refused(ReadFailed) || reply == Refused(BackendRejected)
  }

  /** The drift counter counts the entries into DRIFTED. */
  predicate DriftCounted(v: View, v': View) {
    v'.drifts == v.drifts + if v.cache != DeviceWorker.DRIFTED && v'.cache == DeviceWorker.DRIFTED then 1 else 0
  }

  /** What a write that gets as far as the device makes of status and drift counter. */
  predicate Rests(v: View, v': View, reply: Reply) {
    DriftCounted(v, v') && (v'.status == Updating <==> LeavesUpdating(reply))
  }

  lemma ProgramRests(c: Config, v: View, current: set<Pair>, target: set<Pair>, strategy: Strategy, terms: Terms,
                     noted: LastError)
    requires !v.gate
    ensures var (v', cause) := Program(c, v, current, target, strategy, terms, noted);
            && (v'.status == Updating <==> cause.None? || LeavesUpdating(Refused(cause.value)))
            && (cause == Some(Broken) ==> v'.status == Failed && v'.cache == v.cache)
            && (cause.None? ==> v'.drifts == v.drifts) && DriftCounted(v, v')
  {
    var (v1, cause) := Precheck(c.strict, v.(status := Updating), current);
    if cause.None? {
      var outcome := Apply(P4App(c.nativeBatch), v1.device, current, target, strategy, terms.delay, terms.transport).1;
      assert outcome.Rejected? || outcome.Returned? || outcome.RolledBack? || outcome.RollbackFailed?;
    }
  }

  lemma ChangeTargetRests(c: Config, m: Model, v: View, current: set<Pair>, pairs: set<Pair>, target: ValidSet,
                          terms: Terms)
    requires !v.gate
    ensures var (m', v', reply) := ChangeTarget(c, m, v, current, pairs, target, terms); Rests(v, v', reply)
  {
    ProgramRests(c, v, current, pairs, terms.strategy, terms, OtherError);
  }

  /** A write of connections gets as far as the device. */
  predicate TargetPasses(a: Agent, target: ValidSet, terms: Terms) {
    && 0 <= terms.delay <= MAX_DELAY_US && MayWrite(a, terms)
    && a.model.mode == OCS && !Equal(target, a.model.connections)
  }

  lemma TargetRests(a: Agent, target: ValidSet, terms: Terms)
    ensures var (a', reply) := ApplyTarget(a, target, terms);
            if TargetPasses(a, target, terms) then Rests(a.view, a'.view, reply)
            else a'.view == a.view && a'.model == a.model
  {
    ChecksIff(a, terms);
    if TargetPasses(a, target, terms) {
      ChangeTargetRests(a.config, a.model, a.view, CurrentPairs(a.model), DirectedPairs(target), target, terms);
    }
  }

  lemma ChangeModeRests(c: Config, m: Model, v: View, current: set<Pair>, pairs: set<Pair>, mode: Mode, terms: Terms)
    requires !v.gate
    ensures var (m', v', reply) := ChangeMode(c, m, v, current, pairs, mode, terms); Rests(v, v', reply)
  {
    ProgramRests(c, v, current, pairs, FULL, terms, v.lastError);
  }

  /** A change of mode gets as far as the device. */
  predicate ModePasses(a: Agent, mode: Option<Mode>, terms: Terms) {
    && mode.Some? && 0 <= terms.delay <= MAX_DELAY_US && MayWrite(a, terms)
    && mode.value != a.model.mode
  }

  lemma ModeRests(a: Agent, mode: Option<Mode>, terms: Terms)
    ensures var (a', reply) := SetModeStep(a, mode, terms);
            if ModePasses(a, mode, terms) then Rests(a.view, a'.view, reply)
            else a'.view == a.view && a'.model == a.model
  {
    ChecksIff(a, terms);
    if ModePasses(a, mode, terms) {
      ChangeModeRests(a.config, a.model, a.view, CurrentPairs(a.model), PairsFor(a.model.connections, mode.value),
                      mode.value, terms);
    }
  }

  lemma RecoverRests(a: Agent, terms: Terms)
    ensures var a' := RecoverStep(a, terms).0;
            && DriftCounted(a.view, a'.view)
            && if MayRecover(a, terms) then a'.view.status != Updating else a'.view == a.view
  {
    RecoverViewKeeps(a.config, a.view, CurrentPairs(a.model), terms);
  }

  /** Outside the gate, which overrides the cache status, the drift counter counts the entries into
      DRIFTED. */
  lemma DriftsCounted(a: Agent, e: Event)
    requires GoodEvent(a.model.connections.n, e) && !a.view.gate
    ensures DriftCounted(a.view, Step(a, e).0.view)
  {
    match e
    case Write(edits, terms) =>
      var t := Target(a.model.connections, edits);
      if t.Success? { TargetRests(a, t.value, terms); }
    case SetMode(mode, terms) => ModeRests(a, mode, terms);
    case RecoverDevice(terms) => RecoverRests(a, terms);
    case _ =>
  }

  // ---------------------------------------------------------------- left at "updating"

  /** The device call of a write ends before it has begun: the strict read fails, or the adapter
      does not accept strategy or transport. */
  predicate StopsShort(c: Config, d: Device, current: set<Pair>, strategy: Strategy, terms: Terms) {
    || (c.strict && !FaultAt(d.script, |d.log|).works)
    || ((c.strict ==> d.table == current)
        && !Accepted(P4App(c.nativeBatch), strategy, terms.delay, terms.transport))
  }

  lemma ProgramStops(c: Config, v: View, current: set<Pair>, target: set<Pair>, strategy: Strategy, terms: Terms,
                     noted: LastError)
    requires !v.gate
    ensures var (v', cause) := Program(c, v, current, target, strategy, terms, noted);
            StopsShort(c, v.device, current, strategy, terms)
            <==> cause.Some? && LeavesUpdating(Refused(cause.value))
  {
    var (v1, cause) := Precheck(c.strict, v.(status := Updating), current);
    if cause.None? {
      var outcome := Apply(P4App(c.nativeBatch), v1.device, current, target, strategy, terms.delay, terms.transport).1;
      assert outcome.Rejected? <==> !Accepted(P4App(c.nativeBatch), strategy, terms.delay, terms.transport);
      assert outcome.Rejected? || outcome.Returned? || outcome.RolledBack? || outcome.RollbackFailed?;
    }
  }

  lemma ChangeTargetStops(c: Config, m: Model, v: View, current: set<Pair>, pairs: set<Pair>, target: ValidSet,
                          terms: Terms)
    requires !v.gate
    ensures StopsShort(c, v.device, current, terms.strategy, terms)
            <==> LeavesUpdating(ChangeTarget(c, m, v, current, pairs, target, terms).2)
  {
    ProgramStops(c, v, current, pairs, terms.strategy, terms, OtherError);
  }

  lemma ChangeModeStops(c: Config, m: Model, v: View, current: set<Pair>, pairs: set<Pair>, mode: Mode, terms: Terms)
    requires !v.gate
    ensures StopsShort(c, v.device, current, FULL, terms)
            <==> LeavesUpdating(ChangeMode(c, m, v, current, pairs, mode, terms).2)
  {
    ProgramStops(c, v, current, pairs, FULL, terms, v.lastError);
  }

  lemma CheckNeverLeavesUpdating(a: Agent, terms: Terms)
    ensures var cause := CheckWrite(a, terms).1;
            cause.Some? ==> !LeavesUpdating(Refused(cause.value))
  {
  }

  lemma TargetStops(a: Agent, target: ValidSet, terms: Terms)
    ensures LeavesUpdating(ApplyTarget(a, target, terms).1)
            <==> TargetPasses(a, target, terms)
                 && StopsShort(a.config, a.view.device, CurrentPairs(a.model), terms.strategy, terms)
  {
    CheckNeverLeavesUpdating(a, terms);
    if !a.view.gate {
      ChangeTargetStops(a.config, a.model, a.view, CurrentPairs(a.model), DirectedPairs(target), target, terms);
    }
  }

  lemma ModeStops(a: Agent, mode: Option<Mode>, terms: Terms)
    ensures LeavesUpdating(SetModeStep(a, mode, terms).1)
            <==> ModePasses(a, mode, terms) && StopsShort(a.config, a.view.device, CurrentPairs(a.model), FULL, terms)
  {
    CheckNeverLeavesUpdating(a, terms);
    if !a.view.gate && mode.Some? {
      ChangeModeStops(a.config, a.model, a.view, CurrentPairs(a.model), PairsFor(a.model.connections, mode.value),
                      mode.value, terms);
    }
  }

  /** Told before the call: this call will leave the status at "updating". */
  predicate WillStayUpdating(a: Agent, e: Event)
    requires GoodEvent(a.model.connections.n, e)
  {
    match e
    case Write(edits, terms) =>
      var target := Target(a.model.connections, edits);
      && target.Success? && TargetPasses(a, target.value, terms)
      && StopsShort(a.config, a.view.device, CurrentPairs(a.model), terms.strategy, terms)
    case SetMode(mode, terms) =>
      ModePasses(a, mode, terms) && StopsShort(a.config, a.view.device, CurrentPairs(a.model), FULL, terms)
    case _ => false
  }

  /** Told before the call: this call will judge the status anew.  A write or a change of mode that
      gets as far as the device does, and so does a recovery that may go ahead; reconciliation does
      unless it finds the table right, the gate open and no drift error to clear. */
  predicate SetsStatus(a: Agent, e: Event)
    requires GoodEvent(a.model.connections.n, e)
  {
    match e
    case LeaseCall(_) => false
    case Write(edits, terms) =>
      var target := Target(a.model.connections, edits);
      target.Success? && TargetPasses(a, target.value, terms)
    case SetMode(mode, terms) => ModePasses(a, mode, terms)
    case RecoverDevice(terms) => MayRecover(a, terms)
    case ReconcileDevice =>
      || !FaultAt(a.view.device.script, |a.view.device.log|).works || a.view.device.table != CurrentPairs(a.model)
      || a.view.gate || a.view.lastError == DriftDetected
  }

  /** The status is not always "ready" or "error" between calls.  From any state, a call that judges
      the status leaves "updating" behind exactly when it is a write or a change of mode that passes
      every check of the agent and would change something, and then the strict read fails or -- the
      table being what a strict agent expects -- the adapter does not accept strategy or transport.
      The other calls leave the status alone. */
  lemma LeftUpdatingIff(a: Agent, e: Event)
    requires GoodEvent(a.model.connections.n, e)
    ensures Step(a, e).0.view.status == Updating
            <==> if SetsStatus(a, e) then WillStayUpdating(a, e) else a.view.status == Updating
  {
    match e
    case LeaseCall(_) =>
    case Write(edits, terms) =>
      var t := Target(a.model.connections, edits);
      if t.Success? {
        TargetRests(a, t.value, terms);
        TargetStops(a, t.value, terms);
      }
    case SetMode(mode, terms) =>
      ModeRests(a, mode, terms);
      ModeStops(a, mode, terms);
    case RecoverDevice(terms) => RecoverRests(a, terms);
    case ReconcileDevice =>
  }

  // ---------------------------------------------------------------- READY over a wrong table

  /** The reported cache status is READY although the table is not what the agent describes. */
  predicate Deceives(m: Model, v: View) {
    v.cache == DeviceWorker.READY && v.device.table != CurrentPairs(m)
  }

  /** The device after the strict read, if there is one. */
  function AfterRead(c: Config, d: Device): Device {
    if c.strict then Send(d, Read, {}).0 else d
  }

  /** The transition is accepted, and both the update and its rollback fail, with a table left that
      is not the one before. */
  predicate FallsApart(c: Config, d: Device, current: set<Pair>, target: set<Pair>, strategy: Strategy, terms: Terms) {
    var b := P4App(c.nativeBatch);
    && (c.strict ==> FaultAt(d.script, |d.log|).works && d.table == current)
    && Accepted(b, strategy, terms.delay, terms.transport)
    && var (d1, updated, _) :=
         Update(b, AfterRead(c, d), current, target, strategy, terms.delay, terms.transport);
       var (d2, restored) := Restore(b, d1, current);
       !updated && !restored && d2.table != current
  }

  lemma ProgramDeceives(c: Config, v: View, current: set<Pair>, target: set<Pair>, strategy: Strategy, terms: Terms,
                        noted: LastError)
    requires !v.gate && v.cache == DeviceWorker.READY
    ensures var (v', cause) := Program(c, v, current, target, strategy, terms, noted);
            && (cause.None? ==> v'.device.table == target)
            && (StopsShort(c, v.device, current, strategy, terms) ==>
                  cause.Some? && v'.cache == v.cache && v'.device.table == v.device.table)
            && (!StopsShort(c, v.device, current, strategy, terms) ==>
                  (cause.Some? && v'.cache == DeviceWorker.READY && v'.device.table != current
                   <==> FallsApart(c, v.device, current, target, strategy, terms)))
            && (FallsApart(c, v.device, current, target, strategy, terms) ==> cause == Some(Broken))
  {
    var (v1, cause) := Precheck(c.strict, v.(status := Updating), current);
    if cause.None? {
      ApplyOutcome(P4App(c.nativeBatch), v1.device, current, target, strategy, terms.delay, terms.transport);
    }
  }

  /** What a write that gets as far as the device makes of the deception. */
  predicate DeceivesOn(c: Config, m: Model, v: View, m': Model, v': View, pairs: set<Pair>, strategy: Strategy,
                       terms: Terms)
  {
    Deceives(m', v')
    <==> if StopsShort(c, v.device, CurrentPairs(m), strategy, terms) then Deceives(m, v)
         else FallsApart(c, v.device, CurrentPairs(m), pairs, strategy, terms)
  }

  lemma ChangeTargetDeceives(c: Config, m: Model, v: View, current: set<Pair>, pairs: set<Pair>, target: ValidSet,
                             terms: Terms)
    requires !v.gate && v.cache == DeviceWorker.READY
    requires current == CurrentPairs(m) && m.mode == OCS && pairs == DirectedPairs(target)
    ensures var (m', v', reply) := ChangeTarget(c, m, v, current, pairs, target, terms);
            DeceivesOn(c, m, v, m', v', pairs, terms.strategy, terms)
  {
    ProgramDeceives(c, v, current, pairs, terms.strategy, terms, OtherError);
  }

  lemma ChangeModeDeceives(c: Config, m: Model, v: View, current: set<Pair>, pairs: set<Pair>, mode: Mode, terms: Terms)
    requires !v.gate && v.cache == DeviceWorker.READY
    requires current == CurrentPairs(m) && pairs == PairsFor(m.connections, mode)
    ensures var (m', v', reply) := ChangeMode(c, m, v, current, pairs, mode, terms);
            DeceivesOn(c, m, v, m', v', pairs, FULL, terms)
  {
    ProgramDeceives(c, v, current, pairs, FULL, terms, v.lastError);
  }

  lemma TargetDeceives(a: Agent, target: ValidSet, terms: Terms)
    requires TargetPasses(a, target, terms)
    ensures var a' := ApplyTarget(a, target, terms).0;
            DeceivesOn(a.config, a.model, a.view, a'.model, a'.view, DirectedPairs(target), terms.strategy, terms)
  {
    ChangeTargetDeceives(a.config, a.model, a.view, CurrentPairs(a.model), DirectedPairs(target), target, terms);
  }

  lemma ModeDeceives(a: Agent, mode: Option<Mode>, terms: Terms)
    requires ModePasses(a, mode, terms)
    ensures var a' := SetModeStep(a, mode, terms).0;
            DeceivesOn(a.config, a.model, a.view, a'.model, a'.view, PairsFor(a.model.connections, mode.value), FULL,
                       terms)
  {
    ChangeModeDeceives(a.config, a.model, a.view, CurrentPairs(a.model), PairsFor(a.model.connections, mode.value),
                       mode.value, terms);
  }

  /** Told before the call: this call will break the table and leave the cache status READY. */
  predicate WillDeceive(a: Agent, e: Event)
    requires GoodEvent(a.model.connections.n, e)
  {
    match e
    case Write(edits, terms) =>
      var target := Target(a.model.connections, edits);
      && target.Success? && TargetPasses(a, target.value, terms)
      && FallsApart(a.config, a.view.device, CurrentPairs(a.model), DirectedPairs(target.value), terms.strategy, terms)
    case SetMode(mode, terms) =>
      && ModePasses(a, mode, terms)
      && FallsApart(a.config, a.view.device, CurrentPairs(a.model), PairsFor(a.model.connections, mode.value), FULL,
                    terms)
    case _ => false
  }

  /** Told before the call: this call will judge anew whether the reported cache status is right.  A
      write that is not stopped short does, a recovery that may go ahead, and every reconciliation. */
  predicate SetsCache(a: Agent, e: Event)
    requires GoodEvent(a.model.connections.n, e)
  {
    match e
    case LeaseCall(_) => false
    case Write(edits, terms) =>
      var target := Target(a.model.connections, edits);
      && target.Success? && TargetPasses(a, target.value, terms)
      && !StopsShort(a.config, a.view.device, CurrentPairs(a.model), terms.strategy, terms)
    case SetMode(mode, terms) =>
      ModePasses(a, mode, terms) && !StopsShort(a.config, a.view.device, CurrentPairs(a.model), FULL, terms)
    case RecoverDevice(terms) => MayRecover(a, terms)
    case ReconcileDevice => true
  }

  /** What a call makes of the deception. */
  predicate DeceivesAfter(a: Agent, e: Event)
    requires GoodEvent(a.model.connections.n, e)
  {
    var a' := Step(a, e).0;
    Deceives(a'.model, a'.view) <==> if SetsCache(a, e) then WillDeceive(a, e) else Deceives(a.model, a.view)
  }

  lemma WriteDeceives(a: Agent, edits: seq<Edit>, terms: Terms)
    requires GoodEvent(a.model.connections.n, Write(edits, terms))
    ensures DeceivesAfter(a, Write(edits, terms))
  {
    var t := Target(a.model.connections, edits);
    if t.Success? {
      TargetRests(a, t.value, terms);
      if TargetPasses(a, t.value, terms) { TargetDeceives(a, t.value, terms); }
    }
  }

  lemma SetModeDeceives(a: Agent, mode: Option<Mode>, terms: Terms)
    ensures DeceivesAfter(a, SetMode(mode, terms))
  {
    ModeRests(a, mode, terms);
    if ModePasses(a, mode, terms) { ModeDeceives(a, mode, terms); }
  }

  lemma RecoverDeceives(a: Agent, terms: Terms)
    ensures DeceivesAfter(a, RecoverDevice(terms))
  {
    ChecksIff(a, terms);
    RecoverViewKeeps(a.config, a.view, CurrentPairs(a.model), terms);
  }

  /** With the in-process adapter READY is no promise about the table.  From any state, a call that
      judges the cache leaves READY over a wrong table exactly when it is a write or a change of mode
      that passes every check, would change something, finds the table right if it is strict, is
      accepted by the adapter, and then fails in the update and in the rollback, leaving other than the
      current pairs.  The other calls neither begin such a deception nor end one. */
  lemma ReadyDeceivesIff(a: Agent, e: Event)
    requires GoodEvent(a.model.connections.n, e)
    ensures var a' := Step(a, e).0;
            Deceives(a'.model, a'.view)
            <==> if SetsCache(a, e) then WillDeceive(a, e) else Deceives(a.model, a.view)
  {
    match e
    case LeaseCall(_) =>
    case Write(edits, terms) => WriteDeceives(a, edits, terms);
    case SetMode(mode, terms) => SetModeDeceives(a, mode, terms);
    case RecoverDevice(terms) => RecoverDeceives(a, terms);
    case ReconcileDevice =>
  }

  lemma ChangeModeBroken(c: Config, m: Model, v: View, current: set<Pair>, pairs: set<Pair>, mode: Mode, terms: Terms,
                         d: Device)
    requires !c.strict && !v.gate
    requires Apply(P4App(c.nativeBatch), v.device, current, pairs, FULL, terms.delay, terms.transport)
             == (d, RollbackFailed)
    ensures var (m', v', reply) := ChangeMode(c, m, v, current, pairs, mode, terms);
            m' == m && v' == v.(device := d, status := Failed) && reply == Refused(Broken)
  {
  }

  /** A change of mode whose rollback fails: the agent reports it, and keeps its cache status. */
  lemma ModeBroken(a: Agent, mode: Mode, terms: Terms, d: Device)
    requires ModePasses(a, Some(mode), terms) && !a.config.strict
    requires Apply(P4App(a.config.nativeBatch), a.view.device, CurrentPairs(a.model),
                   PairsFor(a.model.connections, mode), FULL, terms.delay, terms.transport) == (d, RollbackFailed)
    ensures SetModeStep(a, Some(mode), terms)
            == (Agent(a.config, a.model, CheckWrite(a, terms).0, a.view.(device := d, status := Failed)),
                Refused(Broken))
  {
    ChangeModeBroken(a.config, a.model, a.view, CurrentPairs(a.model), PairsFor(a.model.connections, mode), mode, terms,
                     d);
  }

  /** What follows: as long as gate, cache status and revision stand, the same operator's next write
      passes every check. */
  lemma NextWritePasses(a: Agent, a': Agent, terms: Terms)
    requires MayWrite(a, terms) && a'.control == CheckWrite(a, terms).0 && a'.config == a.config
    requires a'.view.gate == a.view.gate && a'.view.cache == a.view.cache && a'.model.revision == a.model.revision
    ensures MayWrite(a', terms)
  {
  }

  // ---------------------------------------------------------------- inputs

  const NO_CONNECTIONS: ValidSet := ConnectionSet(2, [])

  /** The agent once somebody holds the lease. */
  function Held(a: Agent): Agent {
    Step(a, LeaseCall(Lease.Event(Lease.Acquire("token", None), 0.0, 0.0))).0
  }

  function FirstTerms(transport: Transport): Terms {
    Terms(FULL, transport, 0, Some(0), "token", 0.0)
  }

  lemma ReadyToWrite(c: Config, none: ValidSet, script: seq<Fault>)
    requires c.leaseSeconds == 60.0 && FaultAt(script, 0).works && none.items == []
    ensures var start := Start(c, none, REQUIRE_MATCH, Device({}, script, []));
            start.Some? &&
            var a := Held(start.value);
            && a.config == c && a.model == Model(none, OCS, 0) && Agrees(a)
            && a.view.status == Ready && a.view.cache == DeviceWorker.READY && !a.view.gate
            && a.view.device == Send(Device({}, script, []), Read, {}).0
            && CurrentPairs(a.model) == {}
            && forall transport :: MayWrite(a, FirstTerms(transport))
  {
    assert DirectedPairs(none) == {};
  }

  /** An input on which the status stays "updating": a new agent without native batches is asked for
      debug mode by native batches. */
  lemma RejectedModeStaysUpdating()
    ensures var start := Start(Config(false, false, 60.0), NO_CONNECTIONS, REQUIRE_MATCH, Device({}, [], []));
            start.Some? &&
            var (a', reply) := Step(Held(start.value), SetMode(Some(DEBUG), FirstTerms(NATIVE_BATCH)));
            a'.view.status == Updating && reply == Refused(BackendRejected)
  {
    var c := Config(false, false, 60.0);
    ReadyToWrite(c, NO_CONNECTIONS, []);
    var a := Held(Start(c, NO_CONNECTIONS, REQUIRE_MATCH, Device({}, [], [])).value);
    ModeStops(a, Some(DEBUG), FirstTerms(NATIVE_BATCH));
    LeftUpdatingIff(a, SetMode(Some(DEBUG), FirstTerms(NATIVE_BATCH)));
  }

  /** Startup read works; the insert batch fails halfway; the first read of the rollback fails. */
  const HALFWAY: seq<Fault> := [Fault(true, {}), Fault(false, {Pair(1, 2)}), Fault(false, {})]

  /** The device call of that run. */
  lemma HalfwayFallsApart(d: Device, target: set<Pair>)
    requires d == Send(Device({}, HALFWAY, []), Read, {}).0 && Pair(1, 2) in target
    ensures var (d', outcome) := Apply(P4App(true), d, {}, target, FULL, 0, NATIVE_BATCH);
            outcome.RollbackFailed? && d'.table == {Pair(1, 2)} && d'.script == d.script && |d'.log| == 3
            && d.log <= d'.log
  {
    assert {Pair(1, 2)} * target == {Pair(1, 2)};
    var d1 := Send(d, Insert, target).0;
    assert d1.table == {Pair(1, 2)} && !Send(d, Insert, target).1;
    assert !Send(d1, Read, {}).1;
  }

  /** An input on which READY deceives, and what follows from it: the change of mode is reported
      broken and half a connection is in the table, but the cache status is READY, and the next
      write of the same operator is admitted. */
  lemma BrokenRollbackStaysReady()
    ensures var start := Start(Config(true, false, 60.0), NO_CONNECTIONS, REQUIRE_MATCH, Device({}, HALFWAY, []));
            start.Some? &&
            var (a', reply) := Step(Held(start.value), SetMode(Some(DEBUG), FirstTerms(NATIVE_BATCH)));
            && reply == Refused(Broken) && a'.view.status == Failed
            && a'.view.cache == DeviceWorker.READY && a'.view.device.table == {Pair(1, 2)}
            && CurrentPairs(a'.model) == {}
            && MayWrite(a', FirstTerms(NATIVE_BATCH))
  {
    var c := Config(true, false, 60.0);
    ReadyToWrite(c, NO_CONNECTIONS, HALFWAY);
    var a := Held(Start(c, NO_CONNECTIONS, REQUIRE_MATCH, Device({}, HALFWAY, [])).value);
    var terms := FirstTerms(NATIVE_BATCH);
    assert Pair(1, 2) in AllToAll(2);
    HalfwayFallsApart(a.view.device, AllToAll(2));
    var d := Apply(P4App(true), a.view.device, {}, AllToAll(2), FULL, 0, NATIVE_BATCH).0;
    ModeBroken(a, DEBUG, terms, d);
    NextWritePasses(a, SetModeStep(a, Some(DEBUG), terms).0, terms);
  }
}
