/** Port exclusivity over whole runs of the Device Worker and of the Go agent with it. */
module WorkerExclusivity {
  import opened Transaction
  import opened DeviceWorker
  import opened Connections
  import opened Exclusivity
  import opened WorkerForecast

  /** A call that asks for nothing but one peer per port. */
  predicate ExclusiveCall(call: Call) {
    match call
    case ApplyTransition(_, target, _, _, _, _) => PortExclusive(target)
    case Recover(desired, _, _, _) => PortExclusive(desired)
    case _ => true
  }

  lemma ApplyKeepsExclusive(w: Worker, call: Call)
    requires call.ApplyTransition? && Truthful(w) && PortExclusive(w.device.table) && PortExclusive(call.target)
    ensures KeptExclusive(w.device, Step(w, call).0.device)
  {
    var d := AfterPrecheck(w);
    ReadKeeps(w.device);
    if Passes(w, call) {
      TransitionStaysExclusive(w.backend, d, w.entries, call.target, call.strategy, call.delay, call.transport);
      if w.strict {
        KeptOn(w.device, d,
               Apply(w.backend, d, w.entries, call.target, call.strategy, call.delay, call.transport).0);
      }
    }
  }

  lemma RecoverKeepsExclusive(w: Worker, call: Call)
    requires call.Recover? && PortExclusive(w.device.table) && PortExclusive(call.desired)
    ensures KeptExclusive(w.device, Step(w, call).0.device)
  {
    var d := AfterRead(w);
    ReadKeeps(w.device);
    if ReadWorks(w.device) {
      var (d1, outcome) := Apply(w.backend, d, d.table, call.desired, call.strategy, call.delay, call.transport);
      TransitionStaysExclusive(w.backend, d, d.table, call.desired, call.strategy, call.delay, call.transport);
      KeptOn(w.device, d, d1);
      ReadKeeps(d1);
      if outcome.Returned? { KeptOn(w.device, d1, Verify(d1, call.desired).0); }
    }
  }

  /** A call to a truthful worker keeps every port to one peer at every instant, whatever fails. */
  lemma StepKeepsExclusive(w: Worker, call: Call)
    requires Truthful(w) && PortExclusive(w.device.table) && ExclusiveCall(call)
    ensures KeptExclusive(w.device, Step(w, call).0.device)
  {
    match call
    case ReadEntries =>
    case ApplyTransition(_, _, _, _, _, _) => ApplyKeepsExclusive(w, call);
    case Reconcile(_) => ReadKeeps(w.device);
    case Recover(_, _, _, _) => RecoverKeepsExclusive(w, call);
  }

  /** Over every run of calls, from every truthful worker over an exclusive table: no port ever has two
      peers, also after failed rollbacks and recoveries from whatever they left. */
  lemma {:induction false} RunKeepsExclusive(w: Worker, calls: seq<Call>)
    requires Truthful(w) && PortExclusive(w.device.table)
    requires forall i | 0 <= i < |calls| :: ExclusiveCall(calls[i])
    ensures Truthful(After(w, calls)) && KeptExclusive(w.device, After(w, calls).device)
    decreases |calls|
  {
    if calls != [] {
      var k := |calls| - 1;
      var before := After(w, calls[..k]);
      RunKeepsExclusive(w, calls[..k]);
      StepKeeps(before, calls[k]);
      StepKeepsExclusive(before, calls[k]);
      KeptOn(w.device, before.device, Step(before, calls[k]).0.device);
    }
  }
}
