/** When the Go agent says "ready" although its client's cache status is not READY. */
module SplitStatus {
  import opened DeviceTable
  import opened Transaction
  import opened Connections
  import opened AgentModel
  import opened GoCore
  import opened Split
  import opened SplitSafety
  import opened SplitRuns
  import opened Wrappers
  import DeviceWorker
  import Lease
  import opened WorkerForecast

  /** Reported "ready" over a cache that is drifted or unknown. */
  predicate Unconfirmed(core: Core, client: Client) {
    core.status == Ready && client.cache != DeviceWorker.READY
  }

  predicate UnconfirmedAt(s: System) {
    Unconfirmed(s.agent.core, s.agent.client)
  }

  /** A reply that reports a failure with the old entries restored. */
  predicate FailedAndRestored(reply: DeviceWorker.Reply) {
    reply.Reply? && !reply.success && reply.restored && reply.code != DeviceWorker.FAILED_PRECONDITION
  }

  /** Of all the ways in which a call can end, exactly one leaves "ready" over a cache that is not
      READY: a recovery whose reply says failed and restored. */
  lemma EndsUnconfirmedIff(w: DeviceWorker.Worker, core: Core, client: Client, phase: Phase, reply: DeviceWorker.Reply)
    requires ReplyFits(w, client, phase, reply) && PhaseFits(core, phase)
    ensures var (core', answer) := FinishCore(core, phase, reply);
            && (Unconfirmed(core', Capture(client, reply)) <==> phase.Recovering? && FailedAndRestored(reply))
            && (phase.Recovering? ==> (answer == Restored <==> FailedAndRestored(reply)))
  {
  }

  /** The other way is startup: the agent compares only the worker's cached entries with its own, so
      it comes up "ready" against a worker that has marked itself drifted or unknown. */
  lemma BootsUnconfirmedIff(c: Config, initial: ValidSet, policy: StartupPolicy, w: DeviceWorker.Worker,
                            requests: map<nat, DeviceWorker.Call>)
    ensures var r := Boot(c, initial, policy, w, requests);
            r.Some? && UnconfirmedAt(r.value) <==> w.entries == DirectedPairs(initial) && w.cache != DeviceWorker.READY
  {
    var call := DeviceWorker.ApplyTransition(w.entries, DirectedPairs(initial), FULL, SEQUENTIAL, 0, w.generation);
    DeviceWorker.CompareAndSwap(w, call);
  }

  // ---------------------------------------------------------------- over runs

  /** An event that ends a recovery which the client hears to have failed and restored. */
  predicate EndsRestored(s: System, e: Event) {
    Ends(s, e) && s.ops[e.id].Recovering? && FailedAndRestored(Heard(s, e.id, e.heard))
  }

  /** An event after which the status is decided anew: a call ends, or one is admitted. */
  predicate Resets(s: System, e: Event) {
    Ends(s, e) || (e.Admit? && Step(s, e).0.agent.core.status == Updating)
  }

  lemma QuietStep(s: System, e: Event)
    requires !Resets(s, e)
    ensures var s' := Step(s, e).0;
            s'.agent.core.status == s.agent.core.status && s'.agent.client == s.agent.client
  {
    match e
    case Admit(id, now) =>
      if id in s.ops && s.ops[id].Prepared? {
        AdmissionMeans(s.config, s.agent.core, s.agent.control, s.agent.client, s.ops[id].target, s.ops[id].change,
                       s.ops[id].terms, now);
      }
    case _ =>
  }

  lemma ResettingStep(s: System, e: Event)
    requires Safe(s) && Resets(s, e)
    ensures UnconfirmedAt(Step(s, e).0) <==> EndsRestored(s, e)
  {
    if Ends(s, e) {
      var phase, reply := s.ops[e.id], Heard(s, e.id, e.heard);
      assert PhaseFits(s.agent.core, phase);
      assert ReplyFits(s.worker, s.agent.client, phase, reply);
      EndsUnconfirmedIff(s.worker, s.agent.core, s.agent.client, phase, reply);
    }
  }

  /** State k is where "ready" over a cache that is not READY comes from. */
  predicate Origin(r: Run, k: nat)
    requires k < |r.states| && |r.states| == |r.events| + 1
  {
    if k == 0 then UnconfirmedAt(r.states[0]) else EndsRestored(r.states[k - 1], r.events[k - 1])
  }

  ghost predicate QuietBetween(r: Run, k: nat, i: nat)
    requires i < |r.states| && |r.states| == |r.events| + 1
  {
    forall j | k <= j < i :: !Resets(r.states[j], r.events[j])
  }

  lemma UnconfirmedMoves(r: Run, i: nat)
    requires SafeRun(r) && i < |r.events|
    ensures UnconfirmedAt(r.states[i + 1])
            <==> if Resets(r.states[i], r.events[i]) then Origin(r, i + 1) else UnconfirmedAt(r.states[i])
  {
    StaysSafe(r, i);
    assert StepsAt(r, i);
    if Resets(r.states[i], r.events[i]) {
      ResettingStep(r.states[i], r.events[i]);
    } else {
      QuietStep(r.states[i], r.events[i]);
    }
  }

  /** In every run: the agent is "ready" over a cache that is not READY exactly when it came up that
      way or a recovery failed and restored, and since then no call has ended and none has been
      admitted. */
  lemma {:induction false} ReadyUnconfirmedIff(r: Run, i: nat)
    requires SafeRun(r) && i < |r.states|
    ensures UnconfirmedAt(r.states[i]) <==> exists k: nat :: k <= i && Origin(r, k) && QuietBetween(r, k, i)
  {
    if i == 0 {
      assert UnconfirmedAt(r.states[0]) ==> Origin(r, 0) && QuietBetween(r, 0, 0);
    } else {
      ReadyUnconfirmedIff(r, i - 1);
      UnconfirmedMoves(r, i - 1);
      if Resets(r.states[i - 1], r.events[i - 1]) {
        assert Origin(r, i) ==> QuietBetween(r, i, i);
        forall k: nat | k < i ensures !QuietBetween(r, k, i) {
        }
      } else {
        StillQuiet(r, i);
      }
    }
  }

  /** One more quiet event keeps the origins there are, and makes no new one. */
  lemma StillQuiet(r: Run, i: nat)
    requires SafeRun(r) && 0 < i < |r.states| && !Resets(r.states[i - 1], r.events[i - 1])
    ensures (exists k: nat :: k <= i - 1 && Origin(r, k) && QuietBetween(r, k, i - 1))
            <==> exists k: nat :: k <= i && Origin(r, k) && QuietBetween(r, k, i)
  {
    assert !Origin(r, i);
    forall k: nat | k <= i - 1 ensures QuietBetween(r, k, i - 1) <==> QuietBetween(r, k, i) {
      if QuietBetween(r, k, i) { assert forall j | k <= j < i - 1 :: !Resets(r.states[j], r.events[j]); }
    }
  }

  // ---------------------------------------------------------------- out of date

  /** Why the agreement asks for equal generations.  From a state in which it holds, a request that is
      carried out leaves a "ready" agent with a READY client describing other entries than the
      worker's exactly when the request lands with other entries. */
  lemma GoesStaleIff(s: System, id: nat)
    requires Safe(s) && id in s.net.requests && s.agent.core.status == Ready
    requires s.agent.client == Client(s.worker.generation, DeviceWorker.READY)
    ensures var s', call := ExecuteStep(s, id, s.net.requests[id]), s.net.requests[id];
            && s'.agent == s.agent
            && (s'.worker.entries != CurrentPairs(s'.agent.core.model)
                <==> Lands(s.worker, call)
                     && Landing(s.worker, call) != CurrentPairs(s.agent.core.model))
  {
    EntriesChangeIff(s.worker, s.net.requests[id]);
  }

  // ---------------------------------------------------------------- recovery

  /** The state after an admitted recovery has been sent. */
  lemma AdmittedRecovery(s: System, id: nat, now: real)
    requires id in s.ops && s.ops[id].Holding? && s.ops[id].job.RecoverState?
    requires id in Step(s, Admit(id, now)).0.ops
    ensures var s1 := Step(s, Admit(id, now)).0;
            var call := DeviceWorker.Recover(CurrentPairs(s.agent.core.model), FULL, SEQUENTIAL, 0);
            && s1.ops[id].Recovering? && s1.ops[id].call == call
            && id in s1.net.requests && s1.net.requests[id] == call
            && s1.worker == s.worker && s1.agent.core.model == s.agent.core.model
  {
  }

  lemma HeardRecovery(s: System, id: nat, reply: DeviceWorker.Reply)
    requires id in s.ops && s.ops[id].Recovering? && id in s.net.replies && s.net.replies[id] == reply
    requires Succeeded(reply)
    ensures var (s', note) := Step(s, Finish(id, true));
            && note == Done(Recovered) && s'.agent.core.status == Ready && !s'.agent.core.gate
            && CurrentPairs(s'.agent.core.model) == CurrentPairs(s.agent.core.model)
            && s'.agent.client == Client(reply.generation, reply.cache) && s'.worker == s.worker
  {
  }

  /** From any state whatever -- gate closed, table edited, cache unknown, generations apart -- a recovery
      by the lease holder at the current revision, whose request and reply get through, succeeds unless a
      request to the device fails.  It opens the gate and brings agent, client, worker and table together
      again. */
  lemma UndisturbedRecoveryCompletes(r: Run, id: nat, now: real)
    requires IsRun(r) && r.events == [Admit(id, now), Execute(id), Finish(id, true)]
    requires id in r.states[0].ops && r.states[0].ops[id].Holding? && r.states[0].ops[id].job.RecoverState?
    requires var s := r.states[0];
             MayRecover(s.agent.core, s.agent.control, RecoverTerms(s.ops[id].job.expected, s.ops[id].job.token), now)
    requires Failures(r.states[2].worker.device.log) == Failures(r.states[0].worker.device.log)
    ensures var s, s' := r.states[0], r.states[3];
            && r.notes[2] == Done(Recovered) && s'.agent.core.status == Ready && !s'.agent.core.gate
            && s'.agent.client == Client(s'.worker.generation, DeviceWorker.READY)
            && s'.worker.cache == DeviceWorker.READY
            && s'.worker.entries == s'.worker.device.table == CurrentPairs(s'.agent.core.model)
            && CurrentPairs(s'.agent.core.model) == CurrentPairs(s.agent.core.model)
  {
    assert StepsAt(r, 0) && StepsAt(r, 1) && StepsAt(r, 2);
    RecoverAdmitsIff(r.states[0].config, r.states[0].agent.core, r.states[0].agent.control,
                     RecoverTerms(r.states[0].ops[id].job.expected, r.states[0].ops[id].job.token), now);
    AdmittedRecovery(r.states[0], id, now);
    var w, call := r.states[1].worker, r.states[1].ops[id].call;
    Executed(r.states[1], id);
    UndisturbedRecovery(w, call);
    HeardRecovery(r.states[2], id, DeviceWorker.Step(w, call).1);
  }

  // ---------------------------------------------------------------- inputs

  const NO_CONNECTIONS: ValidSet := ConnectionSet(2, [])

  const SETTINGS := Config(P4App(false), 60.0)

  /** A worker that has just started over an empty table. */
  function FreshWorker(script: seq<Fault>): DeviceWorker.Worker {
    DeviceWorker.Worker(P4App(false), false, Device({}, script, []), {}, 1, DeviceWorker.READY, 0)
  }

  /** The same worker after somebody else has put an entry into the table and a reconciliation has
      noticed. */
  function DriftedWorker(): DeviceWorker.Worker {
    var w := FreshWorker([]);
    DeviceWorker.Step(w.(device := w.device.(table := {Pair(1, 2)})), DeviceWorker.Reconcile({})).0
  }

  /** An input of the first kind: REQUIRE_MATCH against the drifted worker comes up "ready" with the
      gate open, over a table that is not the one described. */
  lemma BootsReadyOverDrift()
    ensures var r := Boot(SETTINGS, NO_CONNECTIONS, REQUIRE_MATCH, DriftedWorker(), map[]);
            && r.Some? && UnconfirmedAt(r.value) && !r.value.agent.core.gate
            && r.value.agent.client.cache == DeviceWorker.DRIFTED
            && r.value.worker.device.table != CurrentPairs(r.value.agent.core.model)
  {
    assert DirectedPairs(NO_CONNECTIONS) == {};
    assert Pair(1, 2) in DriftedWorker().device.table;
  }

  /** A run with one more event. */
  function Extend(r: Run, e: Event): Run
    requires r.states != []
  {
    var (s, note) := Step(Final(r), e);
    Run(r.states + [s], r.events + [e], r.notes + [note])
  }

  lemma ExtendIsRun(r: Run, e: Event)
    requires IsRun(r)
    ensures IsRun(Extend(r, e)) && Final(Extend(r, e)) == Step(Final(r), e).0
    ensures Extend(r, e).states[0] == r.states[0]
  {
    var longer := Extend(r, e);
    forall k: nat | k < |longer.events| ensures StepsAt(longer, k) {
      if k < |r.events| { assert StepsAt(r, k); }
    }
  }

  const RECOVERY := DeviceWorker.Recover({}, FULL, SEQUENTIAL, 0)

  /** In a recovery to no entries, the second request is the read-back of the update. */
  lemma ReadBackFails()
    ensures DeviceWorker.RecoveryRollsBack(FreshWorker(OnlyFails(1)), RECOVERY)
  {
    var w := FreshWorker(OnlyFails(1));
    var d := DeviceTable.Send(w.device, Read, {}).0;
    assert d.table == {} && |d.log| == 1;
    assert Update(w.backend, d, {}, {}, FULL, 0, SEQUENTIAL) == (DeviceTable.Send(d, Read, {}).0, false, 0);
    var d1 := DeviceTable.Send(d, Read, {}).0;
    assert d1.table == {} && |d1.log| == 2;
    var d2 := DeviceTable.Send(d1, Read, {}).0;
    assert FaultAt(d1.script, 2).works && FaultAt(d2.script, 3).works;
    assert d2.table - {} == {} && {} - d2.table == {};
  }

  /** An agent that holds the lease and has asked for a recovery. */
  lemma AskForRecovery() returns (r: Run)
    ensures IsRun(r)
    ensures Boot(SETTINGS, NO_CONNECTIONS, REQUIRE_MATCH, FreshWorker(OnlyFails(1)), map[]) == Some(r.states[0])
    ensures var s := Final(r);
            && s.worker == FreshWorker(OnlyFails(1)) && 0 in s.ops && s.ops[0].Recovering?
            && 0 in s.net.requests && s.net.requests[0] == s.ops[0].call == RECOVERY
  {
    assert DirectedPairs(NO_CONNECTIONS) == {};
    var s0 := Boot(SETTINGS, NO_CONNECTIONS, REQUIRE_MATCH, FreshWorker(OnlyFails(1)), map[]).value;
    var acquire := LeaseCall(Lease.Event(Lease.Acquire("token", None), 0.0, 0.0));
    var job := RecoverState(Some(0), "token");
    r := Run([s0], [], []);
    ExtendIsRun(r, acquire);
    r := Extend(r, acquire);
    assert Final(r).agent.control.lease == Lease.Lease("token", 1, 60.0);
    ExtendIsRun(r, Acquire(0, job));
    r := Extend(r, Acquire(0, job));
    assert Final(r).ops == map[0 := Holding(job)];
    ExtendIsRun(r, Admit(0, 0.0));
    r := Extend(r, Admit(0, 0.0));
  }

  /** An input of the second kind: a recovery whose read-back fails and whose rollback works. */
  lemma RecoversToUnconfirmed() returns (r: Run)
    ensures IsRun(r)
    ensures Boot(SETTINGS, NO_CONNECTIONS, REQUIRE_MATCH, FreshWorker(OnlyFails(1)), map[]) == Some(r.states[0])
    ensures UnconfirmedAt(Final(r)) && Final(r).agent.client.cache == DeviceWorker.DRIFTED
  {
    r := AskForRecovery();
    ReadBackFails();
    DeviceWorker.RestoredRecoveryIff(FreshWorker(OnlyFails(1)), RECOVERY);
    Executed(Final(r), 0);
    ExtendIsRun(r, Execute(0));
    r := Extend(r, Execute(0));
    ExtendIsRun(r, Finish(0, true));
    r := Extend(r, Finish(0, true));
  }

  /** A request that an earlier agent had sent before it went away. */
  const LEFTOVER := DeviceWorker.ApplyTransition({}, {Pair(1, 2)}, FULL, NATIVE_BATCH, 0, 1)

  function BatchingWorker(): DeviceWorker.Worker {
    FreshWorker([]).(backend := P4App(true))
  }

  lemma LeftoverLands()
    ensures Lands(BatchingWorker(), LEFTOVER)
  {
    var d, target := BatchingWorker().device, {Pair(1, 2)};
    assert target - d.table == target;
    var d1 := DeviceTable.Send(d, Insert, target).0;
    assert DeviceTable.Send(d, Insert, target).1 && d1.table == target;
    assert DeviceTable.Send(d1, Read, {}).1;
    assert Update(P4App(true), d, {}, target, FULL, 0, NATIVE_BATCH).1;
  }

  /** An input on which a "ready" agent with a READY client is out of date: the new agent comes up in
      agreement, and then a request of the old one is carried out. */
  lemma LeftoverGoesUnseen() returns (r: Run)
    ensures IsRun(r)
    ensures Boot(SETTINGS, NO_CONNECTIONS, REQUIRE_MATCH, BatchingWorker(), map[7 := LEFTOVER]) == Some(r.states[0])
    ensures var s := Final(r);
            && s.agent.core.status == Ready && s.agent.client == Client(1, DeviceWorker.READY)
            && s.worker.generation == 2 && s.worker.entries == {Pair(1, 2)} != CurrentPairs(s.agent.core.model)
  {
    assert DirectedPairs(NO_CONNECTIONS) == {};
    var s := Boot(SETTINGS, NO_CONNECTIONS, REQUIRE_MATCH, BatchingWorker(), map[7 := LEFTOVER]).value;
    r := Run([s], [], []);
    LeftoverLands();
    EntriesChangeIff(s.worker, LEFTOVER);
    DeviceWorker.StepKeeps(s.worker, LEFTOVER);
    assert Pair(1, 2) in DeviceWorker.Step(s.worker, LEFTOVER).0.entries;
    ExtendIsRun(r, Execute(7));
    r := Extend(r, Execute(7));
  }
}
