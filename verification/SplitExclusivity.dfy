/** Port exclusivity over whole runs of the Go agent and the Device Worker, in "ocs" mode. */
module SplitExclusivity {
  import opened Connections
  import opened AgentModel
  import opened GoCore
  import opened Split
  import opened SplitSafety
  import opened SplitRuns
  import opened Exclusivity
  import opened WorkerExclusivity
  import opened Wrappers
  import DeviceWorker

  /** A call that leaves the agent in "ocs" mode. */
  predicate OcsPhase(phase: Phase) {
    match phase
    case Holding(job) => job.ChangeMode? ==> job.mode == OCS
    case Prepared(_, change, _) => change != Some(DEBUG)
    case Writing(_, mode, _, _, _) => mode == OCS
    case _ => true
  }

  ghost predicate ExclusiveRequests(requests: map<nat, DeviceWorker.Call>) {
    forall id | id in requests :: ExclusiveCall(requests[id])
  }

  /** Nothing under way, from this agent or the one before, asks for two peers of a port. */
  ghost predicate OcsOnly(s: System) {
    && s.agent.core.model.mode == OCS && !s.edited && PortExclusive(s.worker.device.table)
    && (forall id | id in s.ops :: OcsPhase(s.ops[id]))
    && ExclusiveRequests(s.net.requests)
  }

  /** An event that neither asks for debug mode nor edits the table from outside. */
  predicate OcsEvent(e: Event) {
    !e.OutsideEdit? && (e.Acquire? && e.job.ChangeMode? ==> e.job.mode == OCS)
  }

  lemma PrepareKeepsOcs(s: System, id: nat)
    requires Safe(s) && OcsOnly(s)
    ensures OcsOnly(Step(s, Prepare(id)).0)
  {
    SetsAreExclusive(s.agent.core.model.connections);
    if id in s.ops { assert OcsPhase(s.ops[id]); }
  }

  lemma AdmitKeepsOcs(s: System, id: nat, now: real)
    requires Safe(s) && OcsOnly(s)
    ensures OcsOnly(Step(s, Admit(id, now)).0)
  {
    SetsAreExclusive(s.agent.core.model.connections);
    if id in s.ops {
      assert OcsPhase(s.ops[id]);
      if s.ops[id].Prepared? {
        SetsAreExclusive(s.ops[id].target);
        AdmissionMeans(s.config, s.agent.core, s.agent.control, s.agent.client, s.ops[id].target, s.ops[id].change,
                       s.ops[id].terms, now);
      }
    }
  }

  lemma FinishKeepsOcs(s: System, id: nat, heard: bool)
    requires Safe(s) && OcsOnly(s)
    ensures OcsOnly(Step(s, Finish(id, heard)).0)
  {
    if id in s.ops {
      assert OcsPhase(s.ops[id]);
      OnlyOp(s, id);
    }
  }

  lemma ExecuteKeepsOcs(s: System, id: nat)
    requires Safe(s) && OcsOnly(s)
    ensures var s' := Step(s, Execute(id)).0;
            OcsOnly(s') && KeptExclusive(s.worker.device, s'.worker.device)
  {
    if id in s.net.requests { StepKeepsExclusive(s.worker, s.net.requests[id]); }
  }

  lemma StepKeepsOcs(s: System, e: Event)
    requires Safe(s) && OcsOnly(s) && OcsEvent(e)
    ensures var s' := Step(s, e).0; OcsOnly(s') && KeptExclusive(s.worker.device, s'.worker.device)
  {
    match e
    case Prepare(id) => PrepareKeepsOcs(s, id);
    case Admit(id, now) => AdmitKeepsOcs(s, id, now);
    case Finish(id, heard) => FinishKeepsOcs(s, id, heard);
    case Execute(id) => ExecuteKeepsOcs(s, id);
    case _ =>
  }

  lemma MovesKeepOcs(r: Run, k: nat)
    requires SafeRun(r) && k < |r.events| && OcsOnly(r.states[k]) && OcsEvent(r.events[k])
    ensures OcsOnly(r.states[k + 1])
            && KeptExclusive(r.states[k].worker.device, r.states[k + 1].worker.device)
  {
    StaysSafe(r, k);
    assert StepsAt(r, k);
    StepKeepsOcs(r.states[k], r.events[k]);
  }

  /** In every run without debug mode and outside edits, from an exclusive table: no port ever has two
      peers, at any instant of any request, whatever is lost, late or failing. */
  lemma {:induction false} NoPortEverHasTwoPeers(r: Run, i: nat)
    requires SafeRun(r) && OcsOnly(r.states[0]) && i < |r.states|
    requires forall k | 0 <= k < i :: OcsEvent(r.events[k])
    ensures OcsOnly(r.states[i]) && KeptExclusive(r.states[0].worker.device, r.states[i].worker.device)
  {
    if i > 0 {
      NoPortEverHasTwoPeers(r, i - 1);
      MovesKeepOcs(r, i - 1);
      KeptOn(r.states[0].worker.device, r.states[i - 1].worker.device, r.states[i].worker.device);
    }
  }
}
