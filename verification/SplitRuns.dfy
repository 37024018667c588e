/** Whole runs of the split system: agreement between agent and worker, serial commits, revisions,
    the startup gate and the lease. */
module SplitRuns {
  import opened DeviceTable
  import opened Transaction
  import opened Connections
  import opened AgentModel
  import opened GoCore
  import opened Split
  import opened SplitSafety
  import opened Wrappers
  import DeviceWorker
  import Lease
  import Counters

  /** A run: the states it goes through, its events, and what they answer. */
  datatype Run = Run(states: seq<System>, events: seq<Event>, notes: seq<Note>)

  ghost predicate StepsAt(r: Run, k: nat)
    requires k < |r.events| && |r.states| == |r.events| + 1 && |r.notes| == |r.events|
  {
    (r.states[k + 1], r.notes[k]) == Step(r.states[k], r.events[k])
  }

  ghost predicate IsRun(r: Run) {
    && |r.states| == |r.events| + 1 && |r.notes| == |r.events|
    && forall k: nat | k < |r.events| :: StepsAt(r, k)
  }

  /** A run from a safe state; StaysSafe shows that every state of it is safe. */
  ghost predicate SafeRun(r: Run) {
    IsRun(r) && Safe(r.states[0])
  }

  function Final(r: Run): System
    requires r.states != []
  {
    r.states[|r.states| - 1]
  }

  function ModelAt(r: Run, i: nat): Model
    requires i < |r.states|
  {
    r.states[i].agent.core.model
  }

  function Successes(r: Run, i: nat): nat
    requires i <= |r.notes|
  {
    if i == 0 then 0 else Successes(r, i - 1) + if Succeeds(r.notes[i - 1]) then 1 else 0
  }

  lemma SafeStep(r: Run, k: nat)
    requires IsRun(r) && k < |r.events| && Safe(r.states[k])
    ensures Safe(r.states[k + 1])
  {
    assert StepsAt(r, k);
    StepKeeps(r.states[k], r.events[k]);
  }

  lemma {:induction false} StaysSafe(r: Run, i: nat)
    requires SafeRun(r) && i < |r.states|
    ensures Safe(r.states[i])
  {
    if i > 0 {
      StaysSafe(r, i - 1);
      SafeStep(r, i - 1);
    }
  }

  lemma BootIsSafe(c: Config, initial: ValidSet, policy: StartupPolicy, w: DeviceWorker.Worker,
                   requests: map<nat, DeviceWorker.Call>)
    requires Bounded(requests, w.generation)
    ensures var r := Boot(c, initial, policy, w, requests);
            r.Some? ==>
              && Safe(r.value) && r.value.agent.core.model == Model(initial, OCS, 0)
              && r.value.agent.control == Control(Lease.START, 0) && r.value.config == c
              && (r.value.agent.core.gate ==>
                    r.value.worker == w && r.value.net.requests == requests && r.value.ops == map[])
              && (r.value.agent.core.gate <==> w.entries != DirectedPairs(initial) && policy == REQUIRE_MATCH)
  {
    var call := DeviceWorker.ApplyTransition(w.entries, DirectedPairs(initial), FULL, SEQUENTIAL, 0, w.generation);
    DeviceWorker.StepKeeps(w, call);
    DeviceWorker.CompareAndSwap(w, call);
  }

  /** The main result.  After any run of an agent that came up against a worker in any state -- with
      lost requests, lost replies, requests carried out after their callers gave up, failing
      devices and competing callers -- a ready agent whose client is READY and has seen the
      worker's generation describes the worker's entries exactly, and, if nobody has edited the
      table from outside, the table of a READY worker as well. */
  lemma ReadyAgrees(c: Config, initial: ValidSet, policy: StartupPolicy, w: DeviceWorker.Worker,
                    requests: map<nat, DeviceWorker.Call>, r: Run)
    requires IsRun(r) && Bounded(requests, w.generation)
    requires Boot(c, initial, policy, w, requests) == Some(r.states[0])
    ensures var a, w' := Final(r).agent, Final(r).worker;
            && a.client.generation <= w'.generation && Bounded(Final(r).net.requests, a.client.generation)
            && |Final(r).ops| <= 1
            && (a.core.status == Ready && a.client == Client(w'.generation, DeviceWorker.READY) ==>
                  && w'.entries == CurrentPairs(a.core.model)
                  && (!Final(r).edited && w'.cache == DeviceWorker.READY ==>
                        w'.device.table == CurrentPairs(a.core.model)))
  {
    BootIsSafe(c, initial, policy, w, requests);
    StaysSafe(r, |r.events|);
  }

  // ---------------------------------------------------------------- revisions

  lemma MovesAt(r: Run, i: nat)
    requires SafeRun(r) && i < |r.events|
    ensures Moved(r.states[i], r.events[i], r.states[i + 1], r.notes[i])
  {
    StaysSafe(r, i);
    assert StepsAt(r, i);
    StepMoves(r.states[i], r.events[i]);
  }

  lemma RevisionMoves(r: Run, i: nat)
    requires SafeRun(r) && i < |r.events|
    ensures ModelAt(r, i + 1).revision == ModelAt(r, i).revision + (if Succeeds(r.notes[i]) then 1 else 0)
  {
    MovesAt(r, i);
  }

  lemma RevisionGrows(r: Run, i: nat, j: nat)
    requires SafeRun(r) && i <= j < |r.states|
    ensures ModelAt(r, i).revision <= ModelAt(r, j).revision
  {
    var revisions := seq(j + 1, k requires 0 <= k <= j => ModelAt(r, k).revision);
    forall k | i <= k < j ensures revisions[k] <= revisions[k + 1] { RevisionMoves(r, k); }
    Counters.Climbs(revisions, i, j);
  }

  /** The revision counts the "updated" and "recovered" answers. */
  lemma {:induction false} RevisionCounts(r: Run, i: nat)
    requires SafeRun(r) && i < |r.states|
    ensures ModelAt(r, i).revision == ModelAt(r, 0).revision + Successes(r, i)
  {
    if i > 0 {
      RevisionCounts(r, i - 1);
      RevisionMoves(r, i - 1);
    }
  }

  /** The revision expected by the call that event i ends. */
  function ExpectedAt(r: Run, i: nat): Option<nat>
    requires i < |r.events| && i < |r.states|
  {
    var before, e := r.states[i], r.events[i];
    if Ends(before, e) && !before.ops[e.id].Reconciling? then before.ops[e.id].terms.expected else None
  }

  lemma SuccessExpected(r: Run, i: nat)
    requires SafeRun(r) && i < |r.events| && Succeeds(r.notes[i])
    ensures ExpectedAt(r, i) == Some(ModelAt(r, i).revision)
    ensures ModelAt(r, i + 1).revision == ModelAt(r, i).revision + 1
  {
    MovesAt(r, i);
  }

  /** Every expected revision is consumed at most once, whoever the callers are. */
  lemma RevisionUsedOnce(r: Run, i: nat, j: nat)
    requires SafeRun(r) && i < j < |r.events| && Succeeds(r.notes[i]) && Succeeds(r.notes[j])
    ensures ExpectedAt(r, i).Some? && ExpectedAt(r, j).Some? && ExpectedAt(r, i).value < ExpectedAt(r, j).value
  {
    SuccessExpected(r, i);
    SuccessExpected(r, j);
    RevisionGrows(r, i + 1, j);
  }

  // ---------------------------------------------------------------- serial commits

  function PhaseAt(r: Run, k: nat, id: nat): Option<Phase>
    requires k < |r.states|
  {
    var ops := r.states[k].ops;
    if id in ops then Some(ops[id]) else None
  }

  /** An admitted write or recovery, waiting for the worker. */
  predicate UnderWay(phase: Option<Phase>) {
    phase.Some? && (phase.value.Writing? || phase.value.Recovering?)
  }

  lemma PhaseStays(r: Run, k: nat, id: nat)
    requires SafeRun(r) && k < |r.events| && UnderWay(PhaseAt(r, k, id)) && PhaseAt(r, k + 1, id).Some?
    ensures PhaseAt(r, k + 1, id) == PhaseAt(r, k, id)
  {
    StaysSafe(r, k);
    assert StepsAt(r, k);
    PhaseKept(r.states[k], r.events[k], id);
  }

  lemma PhasePins(r: Run, k: nat, id: nat)
    requires SafeRun(r) && k < |r.states| && UnderWay(PhaseAt(r, k, id))
    ensures ModelAt(r, k) == PhaseAt(r, k, id).value.before
  {
    StaysSafe(r, k);
    assert PhaseFits(r.states[k].agent.core, r.states[k].ops[id]);
  }

  /** Although the mutex is free while the worker is at work, connections, mode and revision stay
      as they were at admission until the call ends -- under every interleaving with lease calls,
      other callers, late requests and outside edits. */
  lemma NothingMovesMeanwhile(r: Run, i: nat, j: nat, id: nat)
    requires SafeRun(r) && i <= j < |r.states|
    requires forall k | i <= k <= j :: PhaseAt(r, k, id).Some?
    requires UnderWay(PhaseAt(r, i, id))
    ensures PhaseAt(r, j, id) == PhaseAt(r, i, id)
    ensures ModelAt(r, j) == ModelAt(r, i) == PhaseAt(r, i, id).value.before
  {
    var phases := seq(j + 1, k requires 0 <= k <= j => PhaseAt(r, k, id));
    forall k | i <= k < j && phases[k] == phases[i] ensures phases[k + 1] == phases[i] { PhaseStays(r, k, id); }
    Counters.Stays(phases, i, j);
    PhasePins(r, i, id);
    PhasePins(r, j, id);
  }

  lemma ModelAfterEnd(r: Run, j: nat, id: nat)
    requires SafeRun(r) && j < |r.events|
    requires r.events[j].Finish? && r.events[j].id == id && r.notes[j] == Done(Updated)
    ensures PhaseAt(r, j, id).Some? && PhaseAt(r, j, id).value.Writing?
    ensures var phase := PhaseAt(r, j, id).value;
            ModelAt(r, j + 1) == Model(phase.target, phase.mode, phase.before.revision + 1)
  {
    MovesAt(r, j);
  }

  /** A write admitted at event i and committed at event j replaces exactly the model of event i,
      at exactly its revision. */
  lemma CommitsWhatWasAdmitted(r: Run, i: nat, j: nat, id: nat)
    requires SafeRun(r) && i < j < |r.events|
    requires r.events[i].Admit? && r.events[i].id == id && UnderWay(PhaseAt(r, i + 1, id))
    requires forall k | i < k <= j :: PhaseAt(r, k, id).Some?
    requires r.events[j].Finish? && r.events[j].id == id && r.notes[j] == Done(Updated)
    ensures var phase := PhaseAt(r, i + 1, id).value;
            && phase.Writing?
            && ModelAt(r, j) == ModelAt(r, i)
            && ModelAt(r, j + 1) == Model(phase.target, phase.mode, ModelAt(r, i).revision + 1)
  {
    NothingMovesMeanwhile(r, i + 1, j, id);
    ModelAfterEnd(r, j, id);
    MovesAt(r, i);
  }

  // ---------------------------------------------------------------- the startup gate

  /** Only a successful recovery lifts the gate; until then the reported cache status is never
      READY, whatever reconciliation observes. */
  lemma {:induction false} GateLiftedOnlyByRecovery(r: Run, i: nat)
    requires SafeRun(r) && r.states[0].agent.core.gate && i < |r.states|
    requires forall k | 0 <= k < i :: r.notes[k] != Done(Recovered)
    ensures var a := r.states[i].agent;
            a.core.gate && ReportedCache(a.core, a.client) != DeviceWorker.READY
  {
    if i > 0 {
      GateLiftedOnlyByRecovery(r, i - 1);
      MovesAt(r, i - 1);
    }
  }

  // ---------------------------------------------------------------- the lease

  function TokenCheck(token: string, now: real): Lease.Event {
    Lease.Event(Lease.Check(token), now, now)
  }

  /** The lease event that an event amounts to, if it gets that far. */
  function LeaseEvents(s: System, e: Event): seq<Lease.Event> {
    match e
    case LeaseCall(call) => [call]
    case Admit(id, now) =>
      if id !in s.ops then []
      else
        (match s.ops[id]
         case Prepared(_, _, terms) =>
           if Accepted(s.config.backend, terms.strategy, terms.delay, terms.transport) then
             [TokenCheck(terms.token, now)]
           else []
         case Holding(RecoverState(_, token)) => [TokenCheck(token, now)]
         case _ => [])
    case _ => []
  }

  function LeaseHistory(r: Run, i: nat): seq<Lease.Event>
    requires i <= |r.events| && i < |r.states|
  {
    if i == 0 then [] else LeaseHistory(r, i - 1) + LeaseEvents(r.states[i - 1], r.events[i - 1])
  }

  lemma LeaseOfStep(s: System, e: Event)
    ensures var s' := Step(s, e).0;
            && s'.config == s.config
            && |LeaseEvents(s, e)| <= 1
            && s'.agent.control.lease
               == (if LeaseEvents(s, e) == [] then s.agent.control.lease
                   else Lease.Step(s.config.leaseSeconds, s.agent.control.lease, LeaseEvents(s, e)[0]).0)
  {
  }

  lemma LeaseStepRefines(s: System, e: Event, history: seq<Lease.Event>)
    requires s.agent.control.lease == Lease.After(s.config.leaseSeconds, history)
    ensures var s' := Step(s, e).0;
            && s'.config == s.config
            && s'.agent.control.lease == Lease.After(s.config.leaseSeconds, history + LeaseEvents(s, e))
  {
    LeaseOfStep(s, e);
    var more := LeaseEvents(s, e);
    if more == [] {
      assert history + more == history;
    } else {
      assert (history + more)[..|history|] == history && (history + more)[|history|] == more[0];
    }
  }

  /** The agent's lease is the lease of module Lease after the lease events so far. */
  predicate LeaseFollows(s: System, maximum: real, history: seq<Lease.Event>) {
    s.config.leaseSeconds == maximum && s.agent.control.lease == Lease.After(maximum, history)
  }

  lemma LeaseMoves(r: Run, k: nat, maximum: real)
    requires IsRun(r) && k < |r.events| && LeaseFollowsAt(r, maximum, k)
    ensures LeaseFollowsAt(r, maximum, k + 1)
  {
    assert StepsAt(r, k);
    LeaseStepRefines(r.states[k], r.events[k], LeaseHistory(r, k));
  }

  predicate LeaseFollowsAt(r: Run, maximum: real, k: nat)
    requires k <= |r.events| && k < |r.states|
  {
    LeaseFollows(r.states[k], maximum, LeaseHistory(r, k))
  }

  /** In every run the lease follows module Lease, so fencing and expiry hold for every run. */
  lemma {:induction false} LeaseRefines(r: Run, i: nat, maximum: real)
    requires IsRun(r) && r.states[0].agent.control.lease == Lease.START && i < |r.states|
    requires r.states[0].config.leaseSeconds == maximum
    ensures LeaseFollowsAt(r, maximum, i)
  {
    if i > 0 {
      LeaseRefines(r, i - 1, maximum);
      LeaseMoves(r, i - 1, maximum);
    }
  }

  lemma OnlyTheLatestChecks(maximum: real, history: seq<Lease.Event>, check: Lease.Event)
    requires check.action.Check? && Lease.Step(maximum, Lease.After(maximum, history), check).1 == Lease.Accepted
    ensures check.action.token == Lease.LastGranted(maximum, history) != ""
  {
    assert (history + [check])[..|history|] == history;
    Lease.OnlyTheLatestIsLive(maximum, history + [check], |history|);
  }

  /** A write or recovery is admitted only for the holder of the latest granted lease. */
  lemma OnlyTheHolderIsAdmitted(r: Run, i: nat)
    requires IsRun(r) && r.states[0].agent.control.lease == Lease.START
    requires i < |r.events| && r.events[i].Admit? && PhaseAt(r, i, r.events[i].id).Some?
    requires !UnderWay(PhaseAt(r, i, r.events[i].id)) && UnderWay(PhaseAt(r, i + 1, r.events[i].id))
    ensures PhaseAt(r, i + 1, r.events[i].id).value.terms.token
            == Lease.LastGranted(r.states[0].config.leaseSeconds, LeaseHistory(r, i)) != ""
  {
    LeaseRefines(r, i, r.states[0].config.leaseSeconds);
    assert LeaseFollowsAt(r, r.states[0].config.leaseSeconds, i);
    assert StepsAt(r, i);
    AdmittedHolds(r.states[i], r.events[i].id, r.events[i].now);
    OnlyTheLatestChecks(r.states[0].config.leaseSeconds, LeaseHistory(r, i), LeaseEvents(r.states[i], r.events[i])[0]);
  }

  lemma AdmittedHolds(s: System, id: nat, now: real)
    requires id in s.ops
    requires var s' := Step(s, Admit(id, now)).0;
             id in s'.ops && !UnderWay(Some(s.ops[id])) && UnderWay(Some(s'.ops[id]))
    ensures var terms := Step(s, Admit(id, now)).0.ops[id].terms;
            && LeaseEvents(s, Admit(id, now)) == [TokenCheck(terms.token, now)]
            && Lease.Step(s.config.leaseSeconds, s.agent.control.lease, TokenCheck(terms.token, now)).1
               == Lease.Accepted
  {
  }

  // ---------------------------------------------------------------- request ids

  /** The call gets as far as the checks, which is where it is given its request id. */
  predicate Numbered(s: System, e: Event) {
    e.Admit? && LeaseEvents(s, e) != []
  }

  lemma NumberMoves(r: Run, k: nat)
    requires IsRun(r) && k < |r.events|
    ensures r.states[k + 1].agent.control.requests
            == r.states[k].agent.control.requests + if Numbered(r.states[k], r.events[k]) then 1 else 0
  {
    assert StepsAt(r, k);
    NumbersCounted(r.states[k], r.events[k]);
  }

  lemma NumbersCounted(s: System, e: Event)
    ensures Step(s, e).0.agent.control.requests
            == s.agent.control.requests + if Numbered(s, e) then 1 else 0
  {
  }

  /** No two calls have the same request id, and later calls have larger ones. */
  lemma RequestIdsIncrease(r: Run, i: nat, j: nat)
    requires IsRun(r) && i < j < |r.events|
    requires Numbered(r.states[i], r.events[i]) && Numbered(r.states[j], r.events[j])
    ensures r.states[i].agent.control.requests < r.states[i + 1].agent.control.requests
            < r.states[j + 1].agent.control.requests
  {
    var ids := seq(j + 2, k requires 0 <= k <= j + 1 => r.states[k].agent.control.requests);
    forall k | i <= k < j + 1 ensures ids[k] <= ids[k + 1] { NumberMoves(r, k); }
    Counters.Climbs(ids, i + 1, j);
    NumberMoves(r, i);
    NumberMoves(r, j);
  }

  // ---------------------------------------------------------------- the client

  /** The client learns only from the ends of calls. */
  lemma ClientMoves(r: Run, k: nat)
    requires SafeRun(r) && k < |r.events|
    ensures var s, e := r.states[k], r.events[k];
            && r.states[k + 1].agent.client
               == (if Ends(s, e) then Capture(s.agent.client, Heard(s, e.id, e.heard)) else s.agent.client)
            && (Ends(s, e) ==> s.agent.client.generation <= r.states[k + 1].agent.client.generation)
  {
    StaysSafe(r, k);
    assert StepsAt(r, k);
    var s, e := r.states[k], r.events[k];
    if Ends(s, e) {
      assert ReplyFits(s.worker, s.agent.client, s.ops[e.id], Heard(s, e.id, e.heard));
    } else {
      ClientWaits(s, e);
    }
  }

  lemma ClientWaits(s: System, e: Event)
    requires !Ends(s, e)
    ensures Step(s, e).0.agent.client == s.agent.client
  {
  }

  /** The generation that the client remembers never goes back, whatever order requests are carried
      out in and however replies are lost. */
  lemma ClientNeverGoesBack(r: Run, i: nat, j: nat)
    requires SafeRun(r) && i <= j < |r.states|
    ensures r.states[i].agent.client.generation <= r.states[j].agent.client.generation
  {
    var generations := seq(j + 1, k requires 0 <= k <= j => r.states[k].agent.client.generation);
    forall k | i <= k < j ensures generations[k] <= generations[k + 1] { ClientMoves(r, k); }
    Counters.Climbs(generations, i, j);
  }

  /** The end of a call whose reply never came. */
  predicate EndsUnheard(s: System, e: Event) {
    Ends(s, e) && Heard(s, e.id, e.heard).RpcError?
  }

  lemma {:induction false} SilenceLasts(r: Run, k: nat, j: nat)
    requires SafeRun(r) && k < j < |r.states| && EndsUnheard(r.states[k], r.events[k])
    requires forall m | k < m < j :: Ends(r.states[m], r.events[m]) ==> EndsUnheard(r.states[m], r.events[m])
    ensures r.states[j].agent.client.cache == DeviceWorker.UNKNOWN
    decreases j
  {
    if j > k + 1 { SilenceLasts(r, k, j - 1); }
    ClientMoves(r, j - 1);
  }

  /** After a reply has been lost, no write is admitted until some later call ends with a reply. */
  lemma SilenceClosesWrites(r: Run, k: nat, j: nat)
    requires SafeRun(r) && k < j < |r.events| && EndsUnheard(r.states[k], r.events[k])
    requires forall m | k < m < j :: Ends(r.states[m], r.events[m]) ==> EndsUnheard(r.states[m], r.events[m])
    requires r.events[j].Admit? && r.events[j].id in r.states[j].ops && r.states[j].ops[r.events[j].id].Prepared?
    ensures r.events[j].id !in r.states[j + 1].ops
    ensures r.states[j + 1].worker == r.states[j].worker
    ensures r.states[j + 1].net.requests == r.states[j].net.requests
  {
    SilenceLasts(r, k, j);
    assert StepsAt(r, j);
    var s, phase := r.states[j], r.states[j].ops[r.events[j].id];
    AdmissionMeans(s.config, s.agent.core, s.agent.control, s.agent.client, phase.target, phase.change, phase.terms,
                   r.events[j].now);
  }

  // ---------------------------------------------------------------- progress

  /** The state after an admitted write has been sent. */
  lemma AdmittedWrite(s: System, id: nat, now: real)
    requires id in s.ops && s.ops[id].Prepared?
    requires id in Step(s, Admit(id, now)).0.ops
    ensures var s1, phase := Step(s, Admit(id, now)).0, s.ops[id];
            var mode := if phase.change.Some? then phase.change.value else s.agent.core.model.mode;
            var call := ApplyCall(s.agent.client, CurrentPairs(s.agent.core.model), PairsFor(phase.target, mode),
                                  phase.terms);
            && s1.ops[id] == Writing(phase.target, mode, phase.terms, s.agent.core.model, call)
            && id in s1.net.requests && s1.net.requests[id] == call
            && s1.worker == s.worker && s1.agent.client == s.agent.client
            && Accepted(s.config.backend, phase.terms.strategy, phase.terms.delay, phase.terms.transport)
  {
    AdmissionMeans(s.config, s.agent.core, s.agent.control, s.agent.client, s.ops[id].target, s.ops[id].change,
                   s.ops[id].terms, now);
  }

  /** A heard success commits the write. */
  lemma HeardSuccess(s: System, id: nat, reply: DeviceWorker.Reply)
    requires id in s.ops && s.ops[id].Writing? && id in s.net.replies && s.net.replies[id] == reply && Succeeded(reply)
    ensures var (s', note) := Step(s, Finish(id, true));
            && note == Done(Updated) && s'.agent.core.status == Ready
            && s'.agent.core.model.connections == s.ops[id].target && s'.agent.core.model.mode == s.ops[id].mode
            && s'.agent.client == Client(reply.generation, reply.cache) && s'.worker == s.worker
  {
  }

  /** A request that gets through is answered. */
  lemma Executed(s: System, id: nat)
    requires id in s.net.requests && id in s.ops && s.ops[id].Called()
    ensures var (w, reply) := DeviceWorker.Step(s.worker, s.net.requests[id]);
            var s' := Step(s, Execute(id)).0;
            && s'.worker == w && s'.ops == s.ops && s'.agent == s.agent
            && id in s'.net.replies && s'.net.replies[id] == reply
  {
  }

  lemma FirstLeg(r: Run, id: nat, now: real)
    requires IsRun(r) && |r.events| == 3 && r.events[0] == Admit(id, now)
    requires id in r.states[0].ops && r.states[0].ops[id].Prepared? && id in r.states[1].ops
    ensures var s, s1, phase := r.states[0], r.states[1], r.states[0].ops[id];
            && s1.ops[id].Writing? && s1.ops[id].target == phase.target
            && id in s1.net.requests && s1.net.requests[id] == s1.ops[id].call
            && s1.ops[id].call == ApplyCall(s.agent.client, CurrentPairs(s.agent.core.model),
                                            PairsFor(phase.target, s1.ops[id].mode), phase.terms)
            && s1.worker == s.worker
            && Accepted(s.config.backend, phase.terms.strategy, phase.terms.delay, phase.terms.transport)
  {
    assert StepsAt(r, 0);
    AdmittedWrite(r.states[0], id, now);
  }

  lemma LastLegs(r: Run, id: nat, reply: DeviceWorker.Reply, w: DeviceWorker.Worker)
    requires IsRun(r) && |r.events| == 3 && r.events[1] == Execute(id) && r.events[2] == Finish(id, true)
    requires id in r.states[1].ops && r.states[1].ops[id].Writing?
    requires id in r.states[1].net.requests
    requires (w, reply) == DeviceWorker.Step(r.states[1].worker, r.states[1].net.requests[id])
    ensures r.states[2].worker == w
    ensures Succeeded(reply) ==>
              && r.notes[2] == Done(Updated) && r.states[3].agent.core.status == Ready
              && r.states[3].agent.core.model.connections == r.states[1].ops[id].target
              && r.states[3].agent.core.model.mode == r.states[1].ops[id].mode
              && r.states[3].agent.client == Client(reply.generation, reply.cache) && r.states[3].worker == w
  {
    assert StepsAt(r, 1) && StepsAt(r, 2);
    Executed(r.states[1], id);
    if Succeeded(reply) { HeardSuccess(r.states[2], id, reply); }
  }

  /** The checks let this write through, and it would change something. */
  ghost predicate WillBeAdmitted(s: System, phase: Phase, now: real)
    requires phase.Prepared?
  {
    && Accepted(s.config.backend, phase.terms.strategy, phase.terms.delay, phase.terms.transport)
    && MayWrite(s.agent.core, s.agent.control, s.agent.client, phase.change, phase.terms, now)
    && !(SameItems(phase.target, s.agent.core.model.connections)
         && (phase.change.None? || phase.change.value == s.agent.core.model.mode))
  }

  lemma AdmittedStays(s: System, id: nat, now: real)
    requires Safe(s) && id in s.ops && s.ops[id].Prepared? && WillBeAdmitted(s, s.ops[id], now)
    ensures id in Step(s, Admit(id, now)).0.ops
  {
    var phase := s.ops[id];
    assert PhaseFits(s.agent.core, phase);
    AdmitsIff(s.config, s.agent.core, s.agent.control, s.agent.client, phase.target, phase.change, phase.terms, now);
  }

  /** A prepared write of the lease holder, at the current revision and outside the gate, by an up-to-date,
      ready agent is committed when its request and reply get through, unless a request to the device
      fails. */
  lemma UndisturbedWriteCommits(r: Run, id: nat, now: real)
    requires IsRun(r) && Safe(r.states[0]) && r.events == [Admit(id, now), Execute(id), Finish(id, true)]
    requires var s := r.states[0];
             && !s.edited && id in s.ops && s.ops[id].Prepared?
             && s.agent.core.status == Ready && s.agent.client == Client(s.worker.generation, DeviceWorker.READY)
             && s.worker.cache == DeviceWorker.READY && s.worker.backend == s.config.backend
             && (s.ops[id].terms.delay == 0 || s.config.backend.sleeps)
             && WillBeAdmitted(s, s.ops[id], now)
    requires Failures(r.states[2].worker.device.log) == Failures(r.states[0].worker.device.log)
    ensures var s, s' := r.states[0], r.states[3];
            && r.notes[2] == Done(Updated) && s'.agent.core.status == Ready
            && s'.agent.core.model.connections == s.ops[id].target
            && s'.agent.client == Client(s'.worker.generation, DeviceWorker.READY)
            && s'.worker.device.table == CurrentPairs(s'.agent.core.model)
  {
    assert StepsAt(r, 0);
    AdmittedStays(r.states[0], id, now);
    FirstLeg(r, id, now);
    var w, call := r.states[1].worker, r.states[1].ops[id].call;
    var (w', reply) := DeviceWorker.Step(w, call);
    LastLegs(r, id, reply, w');
    DeviceWorker.UndisturbedSwap(w, call);
    DeviceWorker.SwapKeepsTruth(w, call);
  }
}
