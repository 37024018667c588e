/** What every event of the split system keeps. */
module SplitSafety {
  import opened Transaction
  import opened AgentModel
  import opened GoCore
  import opened Split
  import opened Wrappers
  import DeviceWorker

  /** The commit channel has room for one token, so at most one call is in its critical part. */
  predicate Exclusive(s: System) {
    s.tokens == |s.ops| <= 1
  }

  /** Delayed transitions were sent with a generation that the client has already seen. */
  ghost predicate Bounded(requests: map<nat, DeviceWorker.Call>, generation: nat) {
    forall id | id in requests && requests[id].ApplyTransition? :: requests[id].generation <= generation
  }

  /** A waiting reply is newer than the client's state and fits the call it answers. */
  predicate ReplyFits(w: DeviceWorker.Worker, client: Client, phase: Phase, r: DeviceWorker.Reply) {
    && phase.Called() && DeviceWorker.ReplyMeans(w, phase.call, r)
    && (r.Reply? ==> client.generation <= r.generation <= w.generation)
  }

  ghost predicate NetFits(s: System) {
    && s.agent.client.generation <= s.worker.generation
    && Bounded(s.net.requests, s.agent.client.generation)
    && (forall id | id in s.net.requests && id in s.ops ::
          s.ops[id].Called() && s.net.requests[id] == s.ops[id].call)
    && (forall id | id in s.net.replies ::
          id in s.ops && ReplyFits(s.worker, s.agent.client, s.ops[id], s.net.replies[id]))
  }

  /** The holder's view of the model is still the model. */
  predicate PhaseFits(core: Core, phase: Phase) {
    match phase
    case Holding(job) => GoodJob(core.model.connections.n, job)
    case Prepared(target, _, _) => target.n == core.model.connections.n
    case Writing(target, mode, terms, before, call) =>
      && core.model == before && !core.gate && core.status == Updating
      && target.n == before.connections.n && terms.expected == Some(before.revision)
      && call.ApplyTransition? && call.expected == CurrentPairs(before) && call.target == PairsFor(target, mode)
    case Recovering(terms, before, call) =>
      && core.model == before && core.status == Updating && terms.expected == Some(before.revision)
      && call.Recover? && call.desired == CurrentPairs(before)
    case Reconciling(call) => call.Reconcile? && call.desired == CurrentPairs(core.model)
  }

  ghost predicate OpsFit(s: System) {
    forall id | id in s.ops :: PhaseFits(s.agent.core, s.ops[id])
  }

  /** Ready is a promise about the worker's entries, valid as long as the client is up to date. */
  predicate Agrees(core: Core, client: Client, w: DeviceWorker.Worker) {
    core.status == Ready && client.cache == DeviceWorker.READY && client.generation == w.generation ==>
      w.entries == CurrentPairs(core.model)
  }

  ghost predicate Safe(s: System) {
    && Exclusive(s) && NetFits(s) && OpsFit(s)
    && Agrees(s.agent.core, s.agent.client, s.worker)
    && (s.edited || DeviceWorker.Truthful(s.worker))
  }

  lemma OnlyOp(s: System, id: nat)
    requires Exclusive(s) && id in s.ops
    ensures s.tokens == 1 && s.ops.Keys == {id} && s.ops - {id} == map[]
  {
    var others := s.ops.Keys - {id};
    assert |s.ops.Keys| == |s.ops| == 1;
    assert |others| == 0;
  }

  // ---------------------------------------------------------------- event by event

  lemma ReleaseKeeps(s: System, id: nat, agent: Agent)
    requires Safe(s) && id in s.ops
    requires s.agent.client.generation <= agent.client.generation <= s.worker.generation
    requires Agrees(agent.core, agent.client, s.worker)
    ensures Safe(Release(s, id, agent))
  {
    OnlyOp(s, id);
    assert forall other | other in s.net.replies :: other in s.ops;
  }

  lemma AdvanceKeeps(s: System, id: nat, phase: Phase)
    requires Safe(s) && id in s.ops && !s.ops[id].Called()
    requires PhaseFits(s.agent.core, phase) && !phase.Called()
    ensures Safe(Advance(s, id, phase))
  {
    OnlyOp(s, id);
    assert id !in s.net.requests;
    assert forall other | other in s.net.replies :: other in s.ops;
  }

  lemma DispatchKeeps(s: System, id: nat, agent: Agent, phase: Phase)
    requires Safe(s) && id in s.ops && !s.ops[id].Called()
    requires agent.client == s.agent.client && phase.Called()
    requires phase.call.ApplyTransition? ==> phase.call.generation <= agent.client.generation
    requires PhaseFits(agent.core, phase) && Agrees(agent.core, agent.client, s.worker)
    ensures Safe(Dispatch(s, id, agent, phase))
  {
    OnlyOp(s, id);
    assert s.ops[id := phase].Keys == {id};
    assert forall other | other in s.net.replies :: other in s.ops;
  }

  lemma AcquireKeeps(s: System, id: nat, job: Job)
    requires Safe(s)
    ensures Safe(AcquireStep(s, id, job))
  {
    if s.tokens == 0 {
      assert s.ops == map[];
    }
  }

  lemma PrepareKeeps(s: System, id: nat)
    requires Safe(s)
    ensures Safe(Step(s, Prepare(id)).0)
  {
    if id in s.ops && s.ops[id].Holding? {
      var m := s.agent.core.model;
      assert PhaseFits(s.agent.core, s.ops[id]);
      match s.ops[id].job
      case Assign(target, terms) => AdvanceKeeps(s, id, Prepared(target, None, terms));
      case Operations(edits, expected, token) =>
        var folded := FoldBatch(m, edits);
        if folded.None? {
          ReleaseKeeps(s, id, s.agent);
        } else {
          AdvanceKeeps(s, id, Prepared(folded.value, None, BatchTerms(expected, token)));
        }
      case ChangeMode(mode, terms) =>
        AdvanceKeeps(s, id, Prepared(m.connections, Some(mode), terms.(strategy := FULL)));
      case RecoverState(_, _) =>
      case ReconcileState =>
        DispatchKeeps(s, id, s.agent, Reconciling(DeviceWorker.Reconcile(CurrentPairs(m))));
    }
  }

  lemma AdmitWriteKeeps(s: System, id: nat, now: real)
    requires Safe(s) && id in s.ops && s.ops[id].Prepared?
    ensures Safe(AdmitStep(s, id, s.ops[id], now).0)
  {
    var a, phase := s.agent, s.ops[id];
    assert PhaseFits(a.core, phase);
    var (core, k, plan) :=
      AdmitWrite(s.config, a.core, a.control, a.client, phase.target, phase.change, phase.terms, now);
    AdmissionMeans(s.config, a.core, a.control, a.client, phase.target, phase.change, phase.terms, now);
    match plan
    case Declined(_) => ReleaseKeeps(s, id, Agent(core, k, a.client));
    case Admitted(t, m, call) =>
      DispatchKeeps(s, id, Agent(core, k, a.client), Writing(t, m, phase.terms, a.core.model, call));
  }

  lemma AdmitRecoverKeeps(s: System, id: nat, now: real)
    requires Safe(s) && id in s.ops && s.ops[id].Holding? && s.ops[id].job.RecoverState?
    ensures Safe(AdmitStep(s, id, s.ops[id], now).0)
  {
    var a, job := s.agent, s.ops[id].job;
    var terms := RecoverTerms(job.expected, job.token);
    var (core, k, cause) := AdmitRecover(s.config, a.core, a.control, terms, now);
    if cause.Some? {
      ReleaseKeeps(s, id, Agent(core, k, a.client));
    } else {
      var call := DeviceWorker.Recover(CurrentPairs(a.core.model), FULL, SEQUENTIAL, 0);
      DispatchKeeps(s, id, Agent(core, k, a.client), Recovering(terms, a.core.model, call));
    }
  }

  lemma AdmitKeeps(s: System, id: nat, now: real)
    requires Safe(s) && id in s.ops
    ensures Safe(AdmitStep(s, id, s.ops[id], now).0)
  {
    match s.ops[id]
    case Prepared(_, _, _) => AdmitWriteKeeps(s, id, now);
    case Holding(job) => if job.RecoverState? { AdmitRecoverKeeps(s, id, now); }
    case _ =>
  }

  /** However late a request arrives, the worker's answer to it breaks nothing. */
  lemma ExecuteKeeps(s: System, id: nat)
    requires Safe(s) && id in s.net.requests
    ensures Safe(ExecuteStep(s, id, s.net.requests[id]))
  {
    var call := s.net.requests[id];
    var (w, reply) := DeviceWorker.Step(s.worker, call);
    DeviceWorker.StepKeeps(s.worker, call);
    DeviceWorker.ReplyTells(s.worker, call);
    var s' := ExecuteStep(s, id, call);
    forall other | other in s'.net.replies
      ensures other in s'.ops && ReplyFits(w, s'.agent.client, s'.ops[other], s'.net.replies[other])
    {
      if other in s.net.replies {
        DeviceWorker.ReplyStays(s.worker, w, s.ops[other].call, s.net.replies[other]);
      }
    }
  }

  /** Whenever a request changes the worker's entries, the worker's generation leaves the client's
      behind -- which is why the agreement asks for equal generations: right after a late
      transition a "ready" agent may be out of date, and its generation shows it. */
  lemma ChangesShow(s: System, id: nat)
    requires Safe(s) && id in s.net.requests
    ensures var s' := ExecuteStep(s, id, s.net.requests[id]);
            s'.worker.entries != s.worker.entries ==> s'.agent.client.generation < s'.worker.generation
  {
    DeviceWorker.StepKeeps(s.worker, s.net.requests[id]);
  }

  lemma FinishKeeps(s: System, id: nat, heard: bool)
    requires Safe(s) && id in s.ops && s.ops[id].Called()
    ensures Safe(FinishStep(s, id, s.ops[id], heard).0)
  {
    var phase, reply := s.ops[id], Heard(s, id, heard);
    assert PhaseFits(s.agent.core, phase);
    assert ReplyFits(s.worker, s.agent.client, phase, reply);
    var (core, answer) := FinishCore(s.agent.core, phase, reply);
    FinishAgrees(s.worker, s.agent.core, s.agent.client, phase, reply);
    ReleaseKeeps(s, id, Agent(core, s.agent.control, Capture(s.agent.client, reply)));
  }

  /** The heart of the agreement: each way in which a call can end. */
  lemma FinishAgrees(w: DeviceWorker.Worker, core: Core, client: Client, phase: Phase, reply: DeviceWorker.Reply)
    requires ReplyFits(w, client, phase, reply) && PhaseFits(core, phase)
    ensures var (core', answer) := FinishCore(core, phase, reply);
            && Agrees(core', Capture(client, reply), w)
            && core'.model.connections.n == core.model.connections.n
  {
  }

  lemma StepKeeps(s: System, e: Event)
    requires Safe(s)
    ensures Safe(Step(s, e).0)
  {
    match e
    case LeaseCall(_) =>
    case Acquire(id, job) => AcquireKeeps(s, id, job);
    case Prepare(id) => PrepareKeeps(s, id);
    case Admit(id, now) => if id in s.ops { AdmitKeeps(s, id, now); }
    case Execute(id) => if id in s.net.requests { ExecuteKeeps(s, id); }
    case Lose(id) =>
    case Finish(id, heard) => if id in s.ops && s.ops[id].Called() { FinishKeeps(s, id, heard); }
    case OutsideEdit(_) =>
  }

  /** A call under way is not touched by any event but its own end. */
  lemma PhaseKept(s: System, e: Event, id: nat)
    requires Safe(s) && id in s.ops && (s.ops[id].Writing? || s.ops[id].Recovering?)
    ensures var s' := Step(s, e).0; id in s'.ops ==> s'.ops[id] == s.ops[id]
  {
    OnlyOp(s, id);
  }

  // ---------------------------------------------------------------- model and gate

  predicate Succeeds(note: Note) {
    note == Done(Updated) || note == Done(Recovered)
  }

  /** The call that an event brings to its end. */
  predicate Ends(s: System, e: Event) {
    e.Finish? && e.id in s.ops && s.ops[e.id].Called()
  }

  /** The model moves only with an "updated" or "recovered" answer, one revision at a time, from
      the revision that the call expected and the model that it was admitted with. */
  predicate Moved(s: System, e: Event, s': System, note: Note) {
    var m, m' := s.agent.core.model, s'.agent.core.model;
    && m'.connections.n == m.connections.n
    && (!Succeeds(note) ==> m' == m)
    && (Succeeds(note) ==>
          && Ends(s, e) && !s.ops[e.id].Reconciling?
          && m'.revision == m.revision + 1 && s.ops[e.id].terms.expected == Some(m.revision))
    && (note == Done(Updated) ==>
          && s.ops[e.id].Writing? && !s.agent.core.gate && s.ops[e.id].before == m
          && m'.connections == s.ops[e.id].target && m'.mode == s.ops[e.id].mode)
    && (note == Done(Recovered) ==>
          s.ops[e.id].Recovering? && m'.connections == m.connections && m'.mode == m.mode)
    && s'.agent.core.gate == (s.agent.core.gate && note != Done(Recovered))
  }

  lemma AdmitMoves(s: System, id: nat, now: real)
    requires id in s.ops
    ensures var (s', note) := AdmitStep(s, id, s.ops[id], now); Moved(s, Admit(id, now), s', note)
  {
    match s.ops[id]
    case Prepared(target, change, terms) =>
      AdmissionMeans(s.config, s.agent.core, s.agent.control, s.agent.client, target, change, terms, now);
    case _ =>
  }

  lemma FinishMoves(s: System, id: nat, heard: bool)
    requires Safe(s) && id in s.ops && s.ops[id].Called()
    ensures var (s', note) := FinishStep(s, id, s.ops[id], heard); Moved(s, Finish(id, heard), s', note)
  {
    assert PhaseFits(s.agent.core, s.ops[id]);
  }

  lemma PrepareMoves(s: System, id: nat)
    ensures var (s', note) := Step(s, Prepare(id)); Moved(s, Prepare(id), s', note)
  {
  }

  lemma QuietMoves(s: System, e: Event)
    requires e.LeaseCall? || e.Acquire? || e.Execute? || e.Lose? || e.OutsideEdit?
    ensures var (s', note) := Step(s, e); Moved(s, e, s', note)
  {
  }

  lemma StepMoves(s: System, e: Event)
    requires Safe(s)
    ensures var (s', note) := Step(s, e); Moved(s, e, s', note)
  {
    match e
    case Prepare(id) => PrepareMoves(s, id);
    case Admit(id, now) => if id in s.ops { AdmitMoves(s, id, now); }
    case Finish(id, heard) => if id in s.ops && s.ops[id].Called() { FinishMoves(s, id, heard); }
    case _ => QuietMoves(s, e);
  }
}
