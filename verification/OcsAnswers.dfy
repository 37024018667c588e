/** What a call of the Python agent answers and leaves behind, told before the call from its arguments,
    the agent's state, the table and the fault script. */
module OcsAnswers {
  import opened DeviceTable
  import opened Transaction
  import opened Connections
  import opened AgentModel
  import opened Forecast
  import opened OcsCore
  import opened OcsRest
  import opened Wrappers
  import DeviceWorker

  predicate ReadWorks(d: Device) {
    FaultAt(d.script, |d.log|).works
  }

  // ---------------------------------------------------------------- the device call of a write

  /** A strict agent has read the table that it expects. */
  predicate Confirmed(c: Config, d: Device, current: set<Pair>) {
    c.strict ==> ReadWorks(d) && d.table == current
  }

  predicate WillProgram(c: Config, d: Device, current: set<Pair>, target: set<Pair>, strategy: Strategy, terms: Terms) {
    && Confirmed(c, d, current)
    && WillReturn(P4App(c.nativeBatch), AfterRead(c, d), current, target, strategy, terms.delay, terms.transport)
  }

  predicate WillRestore(c: Config, d: Device, current: set<Pair>, target: set<Pair>, strategy: Strategy, terms: Terms) {
    && Confirmed(c, d, current)
    && WillRollBack(P4App(c.nativeBatch), AfterRead(c, d), current, target, strategy, terms.delay, terms.transport)
  }

  predicate WillBreak(c: Config, d: Device, current: set<Pair>, target: set<Pair>, strategy: Strategy, terms: Terms) {
    && Confirmed(c, d, current) && Accepted(P4App(c.nativeBatch), strategy, terms.delay, terms.transport)
    && !WillProgram(c, d, current, target, strategy, terms) && !WillRestore(c, d, current, target, strategy, terms)
  }

  /** The answer to a write that gets as far as the device. */
  predicate Answered(c: Config, d: Device, current: set<Pair>, target: set<Pair>, strategy: Strategy, terms: Terms,
                     success: bool, cause: Option<Cause>)
  {
    && (success <==> WillProgram(c, d, current, target, strategy, terms))
    && (cause == Some(Restored) <==> WillRestore(c, d, current, target, strategy, terms))
    && (cause == Some(Broken) <==> WillBreak(c, d, current, target, strategy, terms))
    && (cause == Some(DriftFound) <==> c.strict && ReadWorks(d) && d.table != current)
    && (cause == Some(ReadFailed) <==> c.strict && !ReadWorks(d))
    && (cause == Some(BackendRejected) <==>
          Confirmed(c, d, current) && !Accepted(P4App(c.nativeBatch), strategy, terms.delay, terms.transport))
  }

  /** What an unsuccessful write leaves of status, error, cache status and table; `noted` is the error that
      a failure of the transition leaves. */
  predicate Settled(v: View, v': View, current: set<Pair>, cause: Cause, noted: LastError) {
    match cause
    case Restored =>
      v'.status == Ready && v'.lastError == noted && v'.cache == v.cache && v'.device.table == current
    case Broken => v'.status == Failed && v'.lastError == noted && v'.cache == v.cache
    case DriftFound =>
      && v'.status == Failed && v'.lastError == OtherError && v'.cache == DeviceWorker.DRIFTED
      && v'.device.table == v.device.table
    case _ =>
      && (cause == ReadFailed || cause == BackendRejected)
      && v'.status == Updating && v'.lastError == v.lastError && v'.cache == v.cache
      && v'.device.table == v.device.table
  }

  lemma ProgramAnswers(c: Config, v: View, current: set<Pair>, target: set<Pair>, strategy: Strategy, terms: Terms,
                       noted: LastError)
    requires !v.gate
    ensures var (v', cause) := Program(c, v, current, target, strategy, terms, noted);
            && Answered(c, v.device, current, target, strategy, terms, cause.None?, cause)
            && (cause.Some? ==> Settled(v, v', current, cause.value, noted) && v'.gate == v.gate)
            && (cause.None? ==> v'.device.table == target && v'.gate == v.gate)
  {
    var b, d := P4App(c.nativeBatch), AfterRead(c, v.device);
    OutcomeIff(b, d, current, target, strategy, terms.delay, terms.transport);
    ApplyOutcome(b, d, current, target, strategy, terms.delay, terms.transport);
    if Confirmed(c, v.device, current) {
      ConfirmedProgram(c, v, current, target, strategy, terms, noted);
      ExecuteSettles(c, v.(status := Updating, device := d), current, target, strategy, terms, noted);
    }
  }

  lemma ConfirmedProgram(c: Config, v: View, current: set<Pair>, target: set<Pair>, strategy: Strategy, terms: Terms,
                         noted: LastError)
    requires Confirmed(c, v.device, current)
    ensures Program(c, v, current, target, strategy, terms, noted)
            == Execute(c, v.(status := Updating, device := AfterRead(c, v.device)), current, target, strategy, terms,
                       noted)
  {
  }

  lemma ExecuteSettles(c: Config, v: View, current: set<Pair>, target: set<Pair>, strategy: Strategy, terms: Terms,
                       noted: LastError)
    requires !v.gate && v.status == Updating
    ensures var (v', cause) := Execute(c, v, current, target, strategy, terms, noted);
            var outcome := Apply(P4App(c.nativeBatch), v.device, current, target, strategy, terms.delay,
                                 terms.transport).1;
            && (cause.None? <==> outcome.Returned?)
            && (cause == Some(Restored) <==> outcome.RolledBack?)
            && (cause == Some(Broken) <==> outcome.RollbackFailed?)
            && (cause == Some(BackendRejected) <==> outcome.Rejected?)
            && cause != Some(DriftFound) && cause != Some(ReadFailed)
            && v'.gate == v.gate
            && (cause.Some? ==> Settled(v, v', current, cause.value, noted))
            && (cause.None? ==> v'.device.table == target)
  {
    ApplyOutcome(P4App(c.nativeBatch), v.device, current, target, strategy, terms.delay, terms.transport);
  }

  // ---------------------------------------------------------------- writes

  /** What a reply says about success and cause. */
  function CauseOf(reply: Reply): Option<Cause> {
    if reply.Refused? then Some(reply.cause) else None
  }

  /** What a successful change leaves behind, besides the model. */
  predicate Fresh(v: View, v': View, m': Model) {
    && v'.status == Ready && v'.cache == DeviceWorker.READY && !v'.gate
    && v'.device.table == CurrentPairs(m') && v'.generation == v.generation + 1
  }

  lemma ChangeTargetAnswers(c: Config, m: Model, v: View, current: set<Pair>, pairs: set<Pair>, target: ValidSet,
                            terms: Terms)
    requires !v.gate && m.mode == OCS && pairs == DirectedPairs(target)
    ensures var (m', v', reply) := ChangeTarget(c, m, v, current, pairs, target, terms);
            && Answered(c, v.device, current, pairs, terms.strategy, terms, reply == Updated, CauseOf(reply))
            && (reply == Updated || reply.Refused?)
            && (reply == Updated ==>
                  m' == Model(target, OCS, m.revision + 1) && Fresh(v, v', m') && v'.lastError == NoError)
            && (reply.Refused? ==> m' == m && Settled(v, v', current, reply.cause, OtherError) && !v'.gate)
  {
    ProgramAnswers(c, v, current, pairs, terms.strategy, terms, OtherError);
    ProgramKeeps(c, v, current, pairs, terms.strategy, terms, OtherError);
  }

  lemma ChangeModeAnswers(c: Config, m: Model, v: View, current: set<Pair>, pairs: set<Pair>, mode: Mode, terms: Terms)
    requires !v.gate && pairs == PairsFor(m.connections, mode)
    ensures var (m', v', reply) := ChangeMode(c, m, v, current, pairs, mode, terms);
            && Answered(c, v.device, current, pairs, FULL, terms, reply == Updated, CauseOf(reply))
            && (reply == Updated || reply.Refused?)
            && (reply == Updated ==>
                  m' == Model(m.connections, mode, m.revision + 1) && Fresh(v, v', m') && v'.lastError == v.lastError)
            && (reply.Refused? ==> m' == m && Settled(v, v', current, reply.cause, v.lastError) && !v'.gate)
  {
    ProgramAnswers(c, v, current, pairs, FULL, terms, v.lastError);
    ProgramKeeps(c, v, current, pairs, FULL, terms, v.lastError);
  }

  /** Same checks, but nothing would change. */
  ghost predicate ChangesNothing(a: Agent, target: ValidSet, terms: Terms) {
    && 0 <= terms.delay <= MAX_DELAY_US && MayWrite(a, terms) && a.model.mode == OCS
    && target.n == a.model.connections.n
    && SameItems(target, a.model.connections)
  }

  /** The causes that only a device call has. */
  predicate FromDevice(cause: Cause) {
    cause == Restored || cause == Broken || cause == DriftFound || cause == ReadFailed || cause == BackendRejected
  }

  lemma TargetAnswers(a: Agent, target: ValidSet, terms: Terms)
    requires target.n == a.model.connections.n
    ensures var (a', reply) := ApplyTarget(a, target, terms);
            if TargetPasses(a, target, terms) then
              && Answered(a.config, a.view.device, CurrentPairs(a.model), DirectedPairs(target), terms.strategy, terms,
                          reply == Updated, CauseOf(reply))
              && (reply == Updated ==>
                    && a'.model == Model(target, OCS, a.model.revision + 1)
                    && Fresh(a.view, a'.view, a'.model) && a'.view.lastError == NoError)
              && (reply != Updated ==>
                    && reply.Refused? && Settled(a.view, a'.view, CurrentPairs(a.model), reply.cause, OtherError)
                    && a'.model == a.model)
            else
              && a'.model == a.model && a'.view == a.view
              && (reply == Same <==> ChangesNothing(a, target, terms))
              && (reply == Same || (reply.Refused? && !FromDevice(reply.cause)))
  {
    ChecksIff(a, terms);
    EqualIff(target, a.model.connections);
    if TargetPasses(a, target, terms) {
      ChangeTargetAnswers(a.config, a.model, a.view, CurrentPairs(a.model), DirectedPairs(target), target, terms);
    }
  }

  /** This write will get as far as the device. */
  predicate WritePasses(a: Agent, edits: seq<Edit>, terms: Terms)
    requires ValidEdits(a.model.connections.n, edits)
  {
    var target := Target(a.model.connections, edits);
    target.Success? && TargetPasses(a, target.value, terms)
  }

  /** A batch is answered "updated" exactly if all its edits apply, the caller may write, the connections
      would change, a strict agent finds the table as expected, and the transition will return; and
      then connections, revision, status, cache status and table are what the batch asks for.  Every
      other answer of a device call is told before it as well, with what it leaves behind. */
  lemma WriteAnswers(a: Agent, edits: seq<Edit>, terms: Terms)
    requires GoodEvent(a.model.connections.n, Write(edits, terms))
    ensures var (a', reply) := Step(a, Write(edits, terms));
            var target := ApplyEdits(a.model.connections, edits);
            if WritePasses(a, edits, terms) then
              && Answered(a.config, a.view.device, CurrentPairs(a.model), DirectedPairs(target.value), terms.strategy,
                          terms, reply == Updated, CauseOf(reply))
              && (reply == Updated ==>
                    && a'.model == Model(target.value, OCS, a.model.revision + 1)
                    && Fresh(a.view, a'.view, a'.model) && a'.view.lastError == NoError)
              && (reply != Updated ==>
                    && reply.Refused? && Settled(a.view, a'.view, CurrentPairs(a.model), reply.cause, OtherError)
                    && a'.model == a.model)
            else
              && a'.model == a.model && a'.view == a.view
              && (reply == Same <==> target.Success? && ChangesNothing(a, target.value, terms))
              && (reply == Same || (reply.Refused? && !FromDevice(reply.cause)))
  {
    var t := Target(a.model.connections, edits);
    if t.Success? { TargetAnswers(a, t.value, terms); }
  }

  /** The same for a change of mode, which is always written in full, and which leaves the last error as it
      was, successful or not. */
  lemma ModeAnswers(a: Agent, mode: Option<Mode>, terms: Terms)
    ensures var (a', reply) := Step(a, SetMode(mode, terms));
            if ModePasses(a, mode, terms) then
              && Answered(a.config, a.view.device, CurrentPairs(a.model), PairsFor(a.model.connections, mode.value),
                          FULL, terms, reply == Updated, CauseOf(reply))
              && (reply == Updated ==>
                    && a'.model == Model(a.model.connections, mode.value, a.model.revision + 1)
                    && Fresh(a.view, a'.view, a'.model) && a'.view.lastError == a.view.lastError)
              && (reply != Updated ==>
                    && reply.Refused? && Settled(a.view, a'.view, CurrentPairs(a.model), reply.cause,
                                             a.view.lastError)
                    && a'.model == a.model)
            else
              && a'.model == a.model && a'.view == a.view
              && (reply == Same <==>
                    && mode == Some(a.model.mode) && 0 <= terms.delay <= MAX_DELAY_US && MayWrite(a, terms))
              && (reply == Same || (reply.Refused? && !FromDevice(reply.cause)))
  {
    ChecksIff(a, terms);
    if ModePasses(a, mode, terms) {
      ChangeModeAnswers(a.config, a.model, a.view, CurrentPairs(a.model), PairsFor(a.model.connections, mode.value),
                        mode.value, terms);
    }
  }

  /** A write that was rolled back leaves the way open: the next call with the same terms passes the
      checks again. */
  lemma RolledBackMayRetry(a: Agent, edits: seq<Edit>, terms: Terms)
    requires GoodEvent(a.model.connections.n, Write(edits, terms))
    requires Step(a, Write(edits, terms)).1 == Refused(Restored)
    ensures var a' := Step(a, Write(edits, terms)).0;
            && MayWrite(a', terms) && a'.view.status == Ready && a'.view.device.table == CurrentPairs(a'.model)
  {
    RestoredWrite(a, edits, terms);
    LeaseStays(a, edits, terms);
  }

  lemma RestoredWrite(a: Agent, edits: seq<Edit>, terms: Terms)
    requires GoodEvent(a.model.connections.n, Write(edits, terms))
    requires Step(a, Write(edits, terms)).1 == Refused(Restored)
    ensures var a' := Step(a, Write(edits, terms)).0;
            && MayWrite(a, terms) && a'.model == a.model && Settled(a.view, a'.view, CurrentPairs(a.model), Restored,
                                                                   OtherError)
            && !a'.view.gate
  {
    WriteAnswers(a, edits, terms);
    BatchAllOrNothing(a, edits, terms);
  }

  lemma LeaseStays(a: Agent, edits: seq<Edit>, terms: Terms)
    requires GoodEvent(a.model.connections.n, Write(edits, terms)) && HoldsLease(a.control, terms)
    ensures Step(a, Write(edits, terms)).0.control.lease == a.control.lease
  {
  }

  // ---------------------------------------------------------------- recovery

  /** The first read works, the transition from what it reads will return, and the second read works. */
  predicate WillRecover(c: Config, d: Device, desired: set<Pair>, terms: Terms) {
    var b, d1 := P4App(c.nativeBatch), Send(d, Read, {}).0;
    && ReadWorks(d)
    && WillReturn(b, d1, d1.table, desired, terms.strategy, terms.delay, terms.transport)
    && FaultAt(d.script, |d1.log| + PlanCount(d1.table, desired, terms.strategy, terms.transport) + 1).works
  }

  lemma RecoverViewIff(c: Config, v: View, desired: set<Pair>, terms: Terms)
    ensures RecoverView(c, v, desired, terms).1 <==> WillRecover(c, v.device, desired, terms)
  {
    var b, d := P4App(c.nativeBatch), Send(v.device, Read, {}).0;
    ReturnsIff(b, d, d.table, desired, terms.strategy, terms.delay, terms.transport);
    ApplyOutcome(b, d, d.table, desired, terms.strategy, terms.delay, terms.transport);
  }

  /** From any state, behind the gate or not, whatever status, cache and table: a recovery is answered
      "recovered" exactly for the lease holder at the current revision whose transition will return and
      be read back; then everything is right, and the gate is open.  Otherwise a call that was let
      through ends in "error" over an UNKNOWN cache, and one that was not changes nothing. */
  lemma RecoverAnswers(a: Agent, terms: Terms)
    ensures var (a', reply) := Step(a, RecoverDevice(terms));
            && (reply == Recovered <==>
                  MayRecover(a, terms) && WillRecover(a.config, a.view.device, CurrentPairs(a.model), terms))
            && (reply == Recovered ==>
                  && a'.model == a.model.(revision := a.model.revision + 1)
                  && Fresh(a.view, a'.view, a'.model) && a'.view.lastError == NoError)
            && (reply != Recovered ==> a'.model == a.model && a'.view.gate == a.view.gate && reply.Refused?)
            && (reply != Recovered && MayRecover(a, terms) ==>
                  reply == Refused(Broken) && a'.view.status == Failed && a'.view.lastError == OtherError
                  && a'.view.cache == DeviceWorker.UNKNOWN)
            && (!MayRecover(a, terms) ==> a'.view == a.view && reply != Refused(Broken))
  {
    ChecksIff(a, terms);
    RecoverViewIff(a.config, a.view, CurrentPairs(a.model), terms);
    RecoverViewKeeps(a.config, a.view, CurrentPairs(a.model), terms);
  }

  // ---------------------------------------------------------------- reconciliation

  /** What reconciliation makes of the reported state.  If it cannot read: UNKNOWN, and "error".  Behind
      the gate: DRIFTED and "error", whatever it reads.  Otherwise READY exactly if the table is right;
      a drift that is over is forgotten, and every other status stays. */
  lemma ReconcileAnswers(a: Agent)
    ensures var v, v' := a.view, Step(a, ReconcileDevice).0.view;
            var right := v.device.table == CurrentPairs(a.model);
            && v'.device.table == v.device.table && v'.gate == v.gate && Step(a, ReconcileDevice).0.model == a.model
            && if !ReadWorks(v.device) then
                 v'.cache == DeviceWorker.UNKNOWN && v'.status == Failed && v'.lastError == OtherError
               else if v.gate || !right then
                 && v'.cache == DeviceWorker.DRIFTED && v'.status == Failed
                 && v'.lastError == (if v.gate then OtherError else DriftDetected)
               else
                 && v'.cache == DeviceWorker.READY
                 && (v'.status, v'.lastError)
                    == if v.lastError == DriftDetected then (Ready, NoError) else (v.status, v.lastError)
  {
  }

  // ---------------------------------------------------------------- startup

  /** The agent comes up exactly if it can read and the table is right, or a mismatch is to be left alone,
      or the transition to the configured connections will return; it is ready unless it has left a
      mismatch alone, and then the gate is closed. */
  lemma StartsIff(c: Config, initial: ValidSet, policy: StartupPolicy, device: Device)
    ensures var start := Start(c, initial, policy, device);
            var d, desired := Send(device, Read, {}).0, DirectedPairs(initial);
            && (start.Some? <==>
                  && ReadWorks(device)
                  && (|| device.table == desired || policy == REQUIRE_MATCH
                      || WillReturn(P4App(c.nativeBatch), d, device.table, desired, FULL, 0, SEQUENTIAL)))
            && (start.Some? ==>
                  var v := start.value.view;
                  && start.value.model == Model(initial, OCS, 0)
                  && (v.gate <==> device.table != desired && policy == REQUIRE_MATCH)
                  && (if v.gate then
                        && v.status == Failed && v.lastError == OtherError && v.cache == DeviceWorker.DRIFTED
                        && v.device == d
                      else
                        && v.status == Ready && v.lastError == NoError && v.cache == DeviceWorker.READY
                        && v.device.table == desired))
  {
    var d := Send(device, Read, {}).0;
    ReturnsIff(P4App(c.nativeBatch), d, d.table, DirectedPairs(initial), FULL, 0, SEQUENTIAL);
    StartAgrees(c, DirectedPairs(initial), policy, device);
  }
}
