/** The Device Worker service as an object over a P4Runtime adapter.  Every method is one locked
    call and is proved to be the corresponding step of module DeviceWorker. */
module WorkerService {
  import opened DeviceTable
  import opened Transaction
  import opened DeviceWorker
  import P4App

  class DeviceBackendService {
    const backend: P4App.P4AppBackend
    const strict: bool
    var entries: set<Pair>
    var generation: nat
    var cacheStatus: CacheStatus
    var driftCount: nat

    /** A service that starts from the table it has just read. */
    constructor (backend: P4App.P4AppBackend, strict: bool, observed: set<Pair>)
      requires observed == backend.switch.table
      ensures this.backend == backend && this.strict == strict
      ensures Fresh(State()) && State().device == backend.switch.State()
    {
      this.backend := backend;
      this.strict := strict;
      this.entries := observed;
      this.generation := 1;
      this.cacheStatus := READY;
      this.driftCount := 0;
    }

    /** Construction with its startup read; null when the read raises. */
    static method Create(backend: P4App.P4AppBackend, strict: bool) returns (service: DeviceBackendService?)
      modifies backend.switch
      ensures (service == null) <==> !Send(old(backend.switch.State()), Read, {}).1
      ensures backend.switch.State() == Send(old(backend.switch.State()), Read, {}).0
      ensures service != null ==>
                && fresh(service) && service.backend == backend && service.strict == strict
                && Fresh(service.State()) && service.State().device == backend.switch.State()
    {
      var ok, observed := backend.switch.Fetch();
      if !ok {
        return null;
      }
      service := new DeviceBackendService(backend, strict, observed);
    }

    function State(): Worker
      reads this, backend.switch
    {
      Worker(backend.Kind(), strict, backend.switch.State(), entries, generation, cacheStatus, driftCount)
    }

    function Fill(success: bool, restored: bool, code: Code, observed: set<Pair>): Reply
      reads this
    {
      Reply(success, restored, code, observed, generation, cacheStatus)
    }

    method MarkDrift()
      modifies this`driftCount, this`cacheStatus
      ensures State() == DeviceWorker.MarkDrift(old(State()))
    {
      if cacheStatus != DRIFTED {
        driftCount := driftCount + 1;
      }
      cacheStatus := DRIFTED;
    }

    method ReadEntries() returns (reply: Reply)
      ensures (State(), reply) == Step(old(State()), Call.ReadEntries)
    {
      reply := Fill(true, true, NoCode, entries);
    }

    method Conclude(outcome: Outcome, target: set<Pair>) returns (reply: Reply)
      modifies this
      ensures (State(), reply) == DeviceWorker.Conclude(old(State()), outcome, target)
    {
      match outcome {
        case Returned(_) =>
          entries := target;
          generation := generation + 1;
          cacheStatus := READY;
          reply := Fill(true, true, NoCode, entries);
        case RolledBack =>
          cacheStatus := READY;
          reply := Fill(false, true, ABORTED, entries);
        case _ =>
          cacheStatus := UNKNOWN;
          reply := Fill(false, false, INTERNAL, entries);
      }
    }

    /** The guarded backend call of ApplyTransition; the cached entries are the previous set. */
    method Transition(target: set<Pair>, strategy: Strategy, transport: Transport, delay: int,
                      expectedGeneration: nat) returns (reply: Reply)
      modifies this, backend.switch
      ensures (State(), reply)
              == DeviceWorker.Transition(old(State()),
                                         Call.ApplyTransition(old(entries), target, strategy, transport, delay,
                                                              expectedGeneration))
    {
      var outcome := backend.Apply(entries, target, strategy, delay, transport);
      reply := Conclude(outcome, target);
    }

    method ApplyTransition(expected: set<Pair>, target: set<Pair>, strategy: Strategy, transport: Transport,
                           delay: int, expectedGeneration: nat) returns (reply: Reply)
      modifies this, backend.switch
      ensures (State(), reply)
              == Step(old(State()), Call.ApplyTransition(expected, target, strategy, transport, delay,
                                                         expectedGeneration))
    {
      if cacheStatus != READY {
        return Fill(false, false, FAILED_PRECONDITION, entries);
      }
      if expectedGeneration != generation {
        return Fill(false, true, FAILED_PRECONDITION, entries);
      }
      if expected != entries {
        return Fill(false, true, FAILED_PRECONDITION, entries);
      }
      var previous := entries;
      if strict {
        var ok, observed := backend.switch.Fetch();
        if !ok {
          return RpcError;
        }
        if observed != previous {
          MarkDrift();
          return Fill(false, false, FAILED_PRECONDITION, observed);
        }
      }
      reply := Transition(target, strategy, transport, delay, expectedGeneration);
    }

    method Reconcile(desired: set<Pair>) returns (reply: Reply)
      modifies this, backend.switch
      ensures (State(), reply) == Step(old(State()), Call.Reconcile(desired))
    {
      var ok, observed := backend.switch.Fetch();
      if !ok {
        return RpcError;
      }
      if observed == entries && desired == entries {
        cacheStatus := READY;
      } else {
        MarkDrift();
      }
      reply := Fill(true, true, NoCode, observed);
    }

    method Confirm(desired: set<Pair>) returns (reply: Reply)
      modifies this, backend.switch
      ensures (State(), reply) == DeviceWorker.Confirm(old(State()), desired)
    {
      var read, verified := backend.switch.Fetch();
      if !read || verified != desired {
        cacheStatus := UNKNOWN;
        return Fill(false, false, INTERNAL, entries);
      }
      entries := desired;
      generation := generation + 1;
      cacheStatus := READY;
      reply := Fill(true, true, NoCode, entries);
    }

    method ConcludeRecovery(outcome: Outcome, desired: set<Pair>) returns (reply: Reply)
      modifies this, backend.switch
      ensures (State(), reply) == DeviceWorker.ConcludeRecovery(old(State()), outcome, desired)
    {
      match outcome {
        case Returned(_) =>
          reply := Confirm(desired);
        case RolledBack =>
          MarkDrift();
          reply := Fill(false, true, ABORTED, entries);
        case _ =>
          cacheStatus := UNKNOWN;
          reply := Fill(false, false, INTERNAL, entries);
      }
    }

    method RecoverFrom(observed: set<Pair>, desired: set<Pair>, strategy: Strategy, transport: Transport, delay: int)
      returns (reply: Reply)
      requires observed == backend.switch.table
      modifies this, backend.switch
      ensures (State(), reply) == DeviceWorker.RecoverFrom(old(State()), desired, strategy, transport, delay)
    {
      var outcome := backend.Apply(observed, desired, strategy, delay, transport);
      reply := ConcludeRecovery(outcome, desired);
    }

    method Recover(desired: set<Pair>, strategy: Strategy, transport: Transport, delay: int) returns (reply: Reply)
      modifies this, backend.switch
      ensures (State(), reply) == Step(old(State()), Call.Recover(desired, strategy, transport, delay))
    {
      var ok, observed := backend.switch.Fetch();
      if !ok {
        cacheStatus := UNKNOWN;
        return Fill(false, false, INTERNAL, entries);
      }
      reply := RecoverFrom(observed, desired, strategy, transport, delay);
    }
  }
}
