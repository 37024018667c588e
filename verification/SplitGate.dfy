/** The startup gate of the Go agent over whole runs, when requests of an earlier agent may still be
    under way. */
module SplitGate {
  import opened DeviceTable
  import opened Transaction
  import opened Connections
  import opened AgentModel
  import opened GoCore
  import opened Split
  import opened SplitSafety
  import opened SplitRuns
  import opened SplitStatus
  import opened WorkerForecast
  import Forecast
  import opened Wrappers
  import DeviceWorker

  predicate Recovers(phase: Phase) {
    phase.Recovering? || (phase.Holding? && phase.job.RecoverState?)
  }

  predicate Asks(e: Event) {
    e.Acquire? && e.job.RecoverState?
  }

  /** The gate is closed, nobody is recovering, and every request under way either is a reconciliation
      or was left over at startup. */
  ghost predicate Gated(s: System, left: set<nat>) {
    && s.agent.core.gate
    && (forall id | id in s.ops :: !Recovers(s.ops[id]))
    && (forall id | id in s.net.requests && id !in left :: s.net.requests[id].Reconcile?)
  }

  /** The worker carries out a request left over, one that writes to the device. */
  predicate LeftoverWrites(s: System, e: Event, left: set<nat>) {
    && e.Execute? && e.id in left && e.id in s.net.requests
    && Disturbs(s.worker, s.net.requests[e.id])
  }

  lemma GatedPrepare(s: System, id: nat, left: set<nat>)
    requires Safe(s) && id in s.ops && s.ops[id].Holding? && Gated(s, left)
    ensures var s' := Step(s, Prepare(id)).0; Gated(s', left) && s'.worker == s.worker
  {
    assert !Recovers(s.ops[id]);
  }

  lemma GatedAdmit(s: System, id: nat, now: real, left: set<nat>)
    requires Safe(s) && id in s.ops && Gated(s, left)
    ensures var s' := AdmitStep(s, id, s.ops[id], now).0; Gated(s', left) && s'.worker == s.worker
  {
    assert !Recovers(s.ops[id]);
    if s.ops[id].Prepared? {
      AdmissionMeans(s.config, s.agent.core, s.agent.control, s.agent.client, s.ops[id].target, s.ops[id].change,
                     s.ops[id].terms, now);
    }
  }

  lemma GatedFinish(s: System, id: nat, heard: bool, left: set<nat>)
    requires Safe(s) && id in s.ops && s.ops[id].Called() && Gated(s, left)
    ensures var s' := FinishStep(s, id, s.ops[id], heard).0; Gated(s', left) && s'.worker == s.worker
  {
    assert PhaseFits(s.agent.core, s.ops[id]);
    assert !Recovers(s.ops[id]);
    OnlyOp(s, id);
  }

  lemma GatedExecute(s: System, id: nat, left: set<nat>)
    requires id in s.net.requests && Gated(s, left)
    ensures var s' := ExecuteStep(s, id, s.net.requests[id]);
            && Gated(s', left)
            && Forecast.Traced(s.worker.device, s'.worker.device, !LeftoverWrites(s, Execute(id), left))
  {
    DisturbsIff(s.worker, s.net.requests[id]);
    assert id !in left ==> s.net.requests[id].Reconcile?;
  }

  /** Behind the gate, and as long as nobody asks for a recovery, an event keeps the gate closed, and
      sends the device a write request exactly if it carries out a leftover request that writes. */
  lemma GatedStep(s: System, e: Event, left: set<nat>)
    requires Safe(s) && Gated(s, left) && !Asks(e)
    ensures var s' := Step(s, e).0;
            && Gated(s', left) && s'.agent.core.model == s.agent.core.model
            && s.worker.device.log <= s'.worker.device.log
            && (OnlyReads(s'.worker.device.log, |s.worker.device.log|) <==> !LeftoverWrites(s, e, left))
            && (!LeftoverWrites(s, e, left) && !e.OutsideEdit? ==> s'.worker.device.table == s.worker.device.table)
  {
    StepMoves(s, e);
    match e
    case Prepare(id) =>
      if id in s.ops && s.ops[id].Holding? { GatedPrepare(s, id, left); }
    case Admit(id, now) => if id in s.ops { GatedAdmit(s, id, now, left); }
    case Finish(id, heard) => if id in s.ops && s.ops[id].Called() { GatedFinish(s, id, heard, left); }
    case Execute(id) => if id in s.net.requests { GatedExecute(s, id, left); }
    case _ =>
  }

  // ---------------------------------------------------------------- over runs

  predicate NobodyAsks(r: Run, i: nat)
    requires i <= |r.events|
  {
    forall k | 0 <= k < i :: !Asks(r.events[k])
  }

  predicate NoLeftoverWrites(r: Run, i: nat, left: set<nat>)
    requires i <= |r.events| && i < |r.states|
  {
    forall k | 0 <= k < i :: !LeftoverWrites(r.states[k], r.events[k], left)
  }

  predicate NoOutsideEdits(r: Run, i: nat)
    requires i <= |r.events|
  {
    forall k | 0 <= k < i :: !r.events[k].OutsideEdit?
  }

  lemma GatedMoves(r: Run, k: nat, left: set<nat>)
    requires SafeRun(r) && k < |r.events| && Gated(r.states[k], left) && !Asks(r.events[k])
    ensures var s, s', e := r.states[k], r.states[k + 1], r.events[k];
            && Gated(s', left) && s'.agent.core.model == s.agent.core.model
            && s.worker.device.log <= s'.worker.device.log
            && (OnlyReads(s'.worker.device.log, |s.worker.device.log|) <==> !LeftoverWrites(s, e, left))
            && (!LeftoverWrites(s, e, left) && !e.OutsideEdit? ==> s'.worker.device.table == s.worker.device.table)
  {
    StaysSafe(r, k);
    assert StepsAt(r, k);
    GatedStep(r.states[k], r.events[k], left);
  }

  /** After a REQUIRE_MATCH mismatch, as long as nobody asks for a recovery: the gate stays closed, the
      reported cache status is never READY, no write is admitted, and the device receives a write
      request exactly if a request left over at startup is carried out and writes.  Without that the
      table is what outside edits make of it. */
  lemma {:induction false} OnlyLeftoversWrite(r: Run, i: nat, left: set<nat>)
    requires SafeRun(r) && Gated(r.states[0], left) && i < |r.states| && NobodyAsks(r, i)
    ensures var s, s' := r.states[0], r.states[i];
            && Gated(s', left) && ReportedCache(s'.agent.core, s'.agent.client) != DeviceWorker.READY
            && s'.agent.core.model == s.agent.core.model
            && s.worker.device.log <= s'.worker.device.log
            && (OnlyReads(s'.worker.device.log, |s.worker.device.log|) <==> NoLeftoverWrites(r, i, left))
            && (NoLeftoverWrites(r, i, left) && NoOutsideEdits(r, i) ==>
                  s'.worker.device.table == s.worker.device.table)
  {
    if i > 0 {
      OnlyLeftoversWrite(r, i - 1, left);
      GatedMoves(r, i - 1, left);
      OnlyReadsOn(r.states[0].worker.device.log, r.states[i - 1].worker.device.log, r.states[i].worker.device.log);
      assert NoLeftoverWrites(r, i, left)
        <==> NoLeftoverWrites(r, i - 1, left) && !LeftoverWrites(r.states[i - 1], r.events[i - 1], left);
    }
  }

  /** With nothing but reconciliations left over, nothing but reads reaches the device. */
  lemma NoWriteBeforeRecovery(r: Run, i: nat)
    requires SafeRun(r) && Gated(r.states[0], {}) && i < |r.states| && NobodyAsks(r, i)
    ensures var s, s' := r.states[0], r.states[i];
            && Gated(s', {}) && OnlyReads(s'.worker.device.log, |s.worker.device.log|)
            && (NoOutsideEdits(r, i) ==> s'.worker.device.table == s.worker.device.table)
  {
    OnlyLeftoversWrite(r, i, {});
  }

  /** The requests under way that are no reconciliations. */
  function Leftovers(requests: map<nat, DeviceWorker.Call>): set<nat> {
    set id | id in requests && !requests[id].Reconcile?
  }

  /** An agent that comes up against other entries starts behind the gate, whatever is left over from
      before, and has written nothing. */
  lemma StartsGated(c: Config, initial: ValidSet, w: DeviceWorker.Worker, requests: map<nat, DeviceWorker.Call>,
                    s: System)
    requires Bounded(requests, w.generation)
    requires Boot(c, initial, REQUIRE_MATCH, w, requests) == Some(s) && w.entries != DirectedPairs(initial)
    ensures Safe(s) && Gated(s, Leftovers(requests)) && s.worker == w
  {
    BootIsSafe(c, initial, REQUIRE_MATCH, w, requests);
  }

  // ---------------------------------------------------------------- an input

  /** For any configured connections at all: the agent starts behind the gate, nobody asks for a
      recovery, and a request of the agent before it is carried out and writes into the table. */
  lemma LeftoverWritesBehindGate(initial: ValidSet) returns (r: Run)
    requires DirectedPairs(initial) != {}
    ensures IsRun(r)
            && Boot(SETTINGS, initial, REQUIRE_MATCH, BatchingWorker(), map[7 := LEFTOVER]) == Some(r.states[0])
    ensures r.events == [Execute(7)] && r.states[0].agent.core.gate && Final(r).agent.core.gate
    ensures !OnlyReads(Final(r).worker.device.log, 0)
    ensures r.states[0].worker.device.table == {} && Final(r).worker.device.table == {Pair(1, 2)}
  {
    var s := Boot(SETTINGS, initial, REQUIRE_MATCH, BatchingWorker(), map[7 := LEFTOVER]).value;
    r := Run([s], [], []);
    LeftoverLands();
    DeviceWorker.SwapKeepsTruth(s.worker, LEFTOVER);
    EntriesChangeIff(s.worker, LEFTOVER);
    DisturbsIff(s.worker, LEFTOVER);
    ReturnsUpdated(s.worker);
    ExtendIsRun(r, Execute(7));
    r := Extend(r, Execute(7));
  }

  lemma ReturnsUpdated(w: DeviceWorker.Worker)
    requires w == BatchingWorker()
    ensures var (w', reply) := DeviceWorker.Step(w, LEFTOVER);
            reply.Reply? && reply.success && Disturbs(w, LEFTOVER)
  {
    LeftoverLands();
    Forecast.ReturnsIff(w.backend, w.device, {}, {Pair(1, 2)}, FULL, 0, NATIVE_BATCH);
    assert Pair(1, 2) in Added(FULL, {}, {Pair(1, 2)});
  }
}
