/** What a call to the Device Worker will do, told from the worker before it: whether it replaces the
    cached entries, and whether it writes to the device. */
module WorkerForecast {
  import opened DeviceTable
  import opened Transaction
  import opened DeviceWorker
  import opened Forecast

  /** The device after the strict read of an apply, if there is one. */
  function AfterPrecheck(w: Worker): Device {
    if w.strict then DeviceTable.Send(w.device, Read, {}).0 else w.device
  }

  /** The device after the first read of a recovery. */
  function AfterRead(w: Worker): Device {
    DeviceTable.Send(w.device, Read, {}).0
  }

  predicate ReadWorks(d: Device) {
    FaultAt(d.script, |d.log|).works
  }

  /** An apply gets past the worker's own checks. */
  predicate Passes(w: Worker, call: Call)
    requires call.ApplyTransition?
  {
    && w.cache == READY && call.generation == w.generation && call.expected == w.entries
    && (w.strict ==> ReadWorks(w.device) && w.device.table == w.entries)
  }

  /** A recovery's transition, which starts from the table read, returns, and its second read works. */
  predicate RecoveryReturns(w: Worker, call: Call)
    requires call.Recover?
  {
    var d := AfterRead(w);
    && ReadWorks(w.device)
    && WillReturn(w.backend, d, d.table, call.desired, call.strategy, call.delay, call.transport)
    && FaultAt(d.script, |d.log| + PlanCount(d.table, call.desired, call.strategy, call.transport)
                         + if w.backend.readback then 1 else 0).works
  }

  /** This call will replace the cached entries. */
  predicate Lands(w: Worker, call: Call) {
    match call
    case ApplyTransition(_, target, strategy, transport, delay, _) =>
      Passes(w, call) && WillReturn(w.backend, AfterPrecheck(w), w.entries, target, strategy, delay, transport)
    case Recover(_, _, _, _) => RecoveryReturns(w, call)
    case _ => false
  }

  /** The entries that it will put in their place. */
  function Landing(w: Worker, call: Call): set<Pair> {
    match call
    case ApplyTransition(_, target, _, _, _, _) => target
    case Recover(desired, _, _, _) => desired
    case _ => w.entries
  }

  /** What a recovery makes of its transition's outcome. */
  lemma ConcludedIff(w: Worker, outcome: Outcome, desired: set<Pair>)
    requires outcome.Rejected? || outcome.Returned? || outcome.RolledBack? || outcome.RollbackFailed?
    ensures var (w', reply) := ConcludeRecovery(w, outcome, desired);
            var right := outcome.Returned? && ReadWorks(w.device) && w.device.table == desired;
            && (right <==> reply.Reply? && reply.success)
            && (right ==> w'.entries == desired == w'.device.table && w'.cache == READY)
            && (!right ==> w'.entries == w.entries)
  {
  }

  lemma RecoveryReturnsIff(w: Worker, call: Call)
    requires call.Recover?
    ensures var (w', reply) := Step(w, call);
            && (RecoveryReturns(w, call) <==> reply.Reply? && reply.success)
            && (RecoveryReturns(w, call) ==> w'.entries == call.desired == w'.device.table && w'.cache == READY)
            && (!RecoveryReturns(w, call) ==> w'.entries == w.entries)
  {
    var d := AfterRead(w);
    if ReadWorks(w.device) {
      var (d1, outcome) := Apply(w.backend, d, d.table, call.desired, call.strategy, call.delay, call.transport);
      ReturnsIff(w.backend, d, d.table, call.desired, call.strategy, call.delay, call.transport);
      ApplyOutcome(w.backend, d, d.table, call.desired, call.strategy, call.delay, call.transport);
      ConcludedIff(w.(device := d1), outcome, call.desired);
    }
  }

  /** The cached entries become those of a call that lands, and otherwise stay. */
  lemma EntriesChangeIff(w: Worker, call: Call)
    ensures Step(w, call).0.entries == if Lands(w, call) then Landing(w, call) else w.entries
  {
    match call
    case ApplyTransition(_, target, strategy, transport, delay, _) =>
      ReturnsIff(w.backend, AfterPrecheck(w), w.entries, target, strategy, delay, transport);
    case Recover(_, _, _, _) => RecoveryReturnsIff(w, call);
    case _ =>
  }

  // ---------------------------------------------------------------- the cache status

  /** What reconciliation makes of the cache: from any worker, READY exactly if table, cached entries and
      the desired set agree, DRIFTED otherwise, and nothing at all if the read fails. */
  lemma ReconcileJudges(w: Worker, desired: set<Pair>)
    ensures var (w', reply) := Step(w, Reconcile(desired));
            && w'.entries == w.entries && w'.generation == w.generation && w'.device.table == w.device.table
            && if !ReadWorks(w.device) then reply.RpcError? && w'.cache == w.cache && w'.drifts == w.drifts
               else
                 && reply.Reply? && reply.success && reply.observed == w.device.table
                 && (w'.cache == READY <==> w.device.table == w.entries == desired)
                 && (w'.cache == DRIFTED <==> !(w.device.table == w.entries == desired))
  {
  }

  /** An apply meets a worker that is READY at the expected generation and entries. */
  predicate Guarded(w: Worker, call: Call)
    requires call.ApplyTransition?
  {
    w.cache == READY && call.generation == w.generation && call.expected == w.entries
  }

  /** Told before the call: the cache status will be READY. */
  predicate EndsReady(w: Worker, call: Call) {
    match call
    case ReadEntries => w.cache == READY
    case ApplyTransition(_, target, strategy, transport, delay, _) =>
      if !Guarded(w, call) || (w.strict && !ReadWorks(w.device)) then w.cache == READY
      else
        && Passes(w, call)
        && (|| WillReturn(w.backend, AfterPrecheck(w), w.entries, target, strategy, delay, transport)
            || WillRollBack(w.backend, AfterPrecheck(w), w.entries, target, strategy, delay, transport))
    case Reconcile(desired) =>
      if ReadWorks(w.device) then w.device.table == w.entries == desired else w.cache == READY
    case Recover(_, _, _, _) => RecoveryReturns(w, call)
  }

  /** Told before the call: the cache status will be DRIFTED. */
  predicate EndsDrifted(w: Worker, call: Call) {
    match call
    case ReadEntries => w.cache == DRIFTED
    case ApplyTransition(_, _, _, _, _, _) =>
      if !Guarded(w, call) then w.cache == DRIFTED
      else w.strict && ReadWorks(w.device) && w.device.table != w.entries
    case Reconcile(desired) =>
      if ReadWorks(w.device) then !(w.device.table == w.entries == desired) else w.cache == DRIFTED
    case Recover(desired, strategy, transport, delay) =>
      ReadWorks(w.device) && WillRollBack(w.backend, AfterRead(w), w.device.table, desired, strategy, delay, transport)
  }

  lemma ApplyCache(w: Worker, call: Call)
    requires call.ApplyTransition?
    ensures var w' := Step(w, call).0;
            (w'.cache == READY <==> EndsReady(w, call)) && (w'.cache == DRIFTED <==> EndsDrifted(w, call))
  {
    if Passes(w, call) {
      var d := AfterPrecheck(w);
      OutcomeIff(w.backend, d, w.entries, call.target, call.strategy, call.delay, call.transport);
      assert Step(w, call) == Transition(w.(device := d), call);
    }
  }

  lemma RecoverCache(w: Worker, call: Call)
    requires call.Recover?
    ensures var w' := Step(w, call).0;
            (w'.cache == READY <==> EndsReady(w, call)) && (w'.cache == DRIFTED <==> EndsDrifted(w, call))
  {
    var d := AfterRead(w);
    if ReadWorks(w.device) {
      var (d1, outcome) := Apply(w.backend, d, d.table, call.desired, call.strategy, call.delay, call.transport);
      OutcomeIff(w.backend, d, d.table, call.desired, call.strategy, call.delay, call.transport);
      RecoveryReturnsIff(w, call);
      ConcludedCache(w.(device := d1), outcome, call.desired);
    }
  }

  lemma ConcludedCache(w: Worker, outcome: Outcome, desired: set<Pair>)
    ensures var (w', reply) := ConcludeRecovery(w, outcome, desired);
            (w'.cache == READY <==> reply.Reply? && reply.success) && (w'.cache == DRIFTED <==> outcome.RolledBack?)
  {
  }

  /** The cache status after any call, told from the worker before it; what is neither READY nor DRIFTED
      is UNKNOWN.  From any worker: a transition or recovery whose rollback fails makes it UNKNOWN. */
  lemma CacheAfterIff(w: Worker, call: Call)
    ensures var w' := Step(w, call).0;
            (w'.cache == READY <==> EndsReady(w, call)) && (w'.cache == DRIFTED <==> EndsDrifted(w, call))
  {
    match call
    case ReadEntries =>
    case ApplyTransition(_, _, _, _, _, _) => ApplyCache(w, call);
    case Reconcile(desired) => ReconcileJudges(w, desired);
    case Recover(_, _, _, _) => RecoverCache(w, call);
  }

  /** What an apply answers, told from the worker before it.  It fails on its preconditions exactly if the
      cache, the generation, the entries or the table that a strict worker reads are not as expected;
      past them it succeeds, has restored, or has not, exactly as the transition will. */
  lemma ApplyRepliesIff(w: Worker, call: Call)
    requires call.ApplyTransition?
    ensures var reply := Step(w, call).1;
            var restores := Passes(w, call) && WillRollBack(w.backend, AfterPrecheck(w), w.entries, call.target,
                                                            call.strategy, call.delay, call.transport);
            && (reply.RpcError? <==> Guarded(w, call) && w.strict && !ReadWorks(w.device))
            && (reply.Reply? ==>
                  && (reply.success <==> Lands(w, call))
                  && (reply.success <==> reply.code == NoCode)
                  && (reply.code == ABORTED <==> restores)
                  && (reply.code == INTERNAL <==> Passes(w, call) && !Lands(w, call) && !restores)
                  && (reply.code == ABORTED ==> reply.restored) && (reply.code == INTERNAL ==> !reply.restored))
  {
    if Passes(w, call) {
      var d := AfterPrecheck(w);
      OutcomeIff(w.backend, d, w.entries, call.target, call.strategy, call.delay, call.transport);
      assert Step(w, call) == Transition(w.(device := d), call);
    }
  }

  /** What a recovery answers; whatever goes wrong, it answers. */
  lemma RecoverRepliesIff(w: Worker, call: Call)
    requires call.Recover?
    ensures var reply := Step(w, call).1;
            && reply.Reply? && (reply.success <==> RecoveryReturns(w, call))
            && (reply.success <==> reply.code == NoCode)
            && (reply.code == ABORTED <==> EndsDrifted(w, call))
            && (!reply.success ==> (reply.restored <==> reply.code == ABORTED) && reply.code != FAILED_PRECONDITION)
  {
    var d := AfterRead(w);
    RecoveryReturnsIff(w, call);
    if ReadWorks(w.device) {
      var (d1, outcome) := Apply(w.backend, d, d.table, call.desired, call.strategy, call.delay, call.transport);
      OutcomeIff(w.backend, d, d.table, call.desired, call.strategy, call.delay, call.transport);
      ConcludedReplies(w.(device := d1), outcome, call.desired);
    }
  }

  lemma ConcludedReplies(w: Worker, outcome: Outcome, desired: set<Pair>)
    ensures var reply := ConcludeRecovery(w, outcome, desired).1;
            && reply.Reply? && (reply.success <==> reply.code == NoCode)
            && (reply.code == ABORTED <==> outcome.RolledBack?)
            && (!reply.success ==> (reply.restored <==> reply.code == ABORTED) && reply.code != FAILED_PRECONDITION)
  {
  }

  /** After an edit from outside: a recovery, a reconciliation that can read, and a strict apply that gets
      to read make READY a promise about the table again, whatever the worker believed before. */
  lemma CallsHeal(w: Worker, call: Call)
    requires || call.Recover? || (call.Reconcile? && ReadWorks(w.device))
             || (call.ApplyTransition? && w.strict && Guarded(w, call) && ReadWorks(w.device))
    ensures Truthful(Step(w, call).0)
  {
    match call
    case ApplyTransition(_, _, _, _, _, _) => if w.device.table == w.entries { StepKeeps(w, call); }
    case Reconcile(desired) => ReconcileJudges(w, desired);
    case Recover(_, _, _, _) => RecoverHeals(w, call);
  }

  lemma RecoverHeals(w: Worker, call: Call)
    requires call.Recover?
    ensures Truthful(Step(w, call).0)
  {
    RecoverCache(w, call);
    RecoveryReturnsIff(w, call);
  }

  // ---------------------------------------------------------------- writing

  /** This call will send the device a write request. */
  predicate Disturbs(w: Worker, call: Call) {
    match call
    case ApplyTransition(_, target, strategy, transport, delay, _) =>
      Passes(w, call) && WillWrite(w.backend, AfterPrecheck(w), w.entries, target, strategy, delay, transport)
    case Recover(desired, strategy, transport, delay) =>
      ReadWorks(w.device) && WillWrite(w.backend, AfterRead(w), w.device.table, desired, strategy, delay, transport)
    case _ => false
  }

  lemma ApplyDisturbsIff(w: Worker, call: Call)
    requires call.ApplyTransition?
    ensures Traced(w.device, Step(w, call).0.device, !Disturbs(w, call))
  {
    var d := AfterPrecheck(w);
    assert Traced(w.device, d, true);
    if Passes(w, call) {
      assert Step(w, call) == Transition(w.(device := d), call);
      var quiet := !WillWrite(w.backend, d, w.entries, call.target, call.strategy, call.delay, call.transport);
      WritesIff(w.backend, d, w.entries, call.target, call.strategy, call.delay, call.transport);
      TracedOn(w.device, d, Apply(w.backend, d, w.entries, call.target, call.strategy, call.delay, call.transport).0,
               true, quiet);
    }
  }

  lemma RecoverDisturbsIff(w: Worker, call: Call)
    requires call.Recover?
    ensures Traced(w.device, Step(w, call).0.device, !Disturbs(w, call))
  {
    var d := AfterRead(w);
    assert Traced(w.device, d, true);
    if ReadWorks(w.device) {
      var quiet := !WillWrite(w.backend, d, d.table, call.desired, call.strategy, call.delay, call.transport);
      var (d1, outcome) := Apply(w.backend, d, d.table, call.desired, call.strategy, call.delay, call.transport);
      WritesIff(w.backend, d, d.table, call.desired, call.strategy, call.delay, call.transport);
      TracedOn(w.device, d, d1, true, quiet);
      if outcome.Returned? { TracedOn(w.device, d1, Verify(d1, call.desired).0, quiet, true); }
    }
  }

  /** A call writes to the device exactly if it disturbs it; otherwise the table stays what it is. */
  lemma DisturbsIff(w: Worker, call: Call)
    ensures Traced(w.device, Step(w, call).0.device, !Disturbs(w, call))
  {
    match call
    case ReadEntries =>
    case ApplyTransition(_, _, _, _, _, _) => ApplyDisturbsIff(w, call);
    case Reconcile(_) =>
    case Recover(_, _, _, _) => RecoverDisturbsIff(w, call);
  }

  // ---------------------------------------------------------------- progress

  /** From any worker, whatever its cache and its table: an accepted recovery whose pause can be taken
      succeeds unless a request to the device fails, and makes cache and table right again. */
  lemma UndisturbedRecovery(w: Worker, call: Call)
    requires call.Recover? && Accepted(w.backend, call.strategy, call.delay, call.transport)
    requires Pauses(w.backend, call.delay)
    requires Failures(Step(w, call).0.device.log) == Failures(w.device.log)
    ensures var (w', reply) := Step(w, call);
            && reply == Reply(true, true, NoCode, call.desired, w.generation + 1, READY)
            && w'.entries == w'.device.table == call.desired && w'.cache == READY
            && w'.generation == w.generation + 1
  {
    var d := AfterRead(w);
    var (d1, outcome) := Apply(w.backend, d, d.table, call.desired, call.strategy, call.delay, call.transport);
    SendFailures(w.device, Read, {});
    ReturnsIffUndisturbed(w.backend, d, d.table, call.desired, call.strategy, call.delay, call.transport);
    ApplyOutcome(w.backend, d, d.table, call.desired, call.strategy, call.delay, call.transport);
    SendFailures(d1, Read, {});
  }
}
