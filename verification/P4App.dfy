/** The P4Runtime adapter: the transition of module Transaction, carried out on a switch. */
module P4App {
  import opened DeviceTable
  import opened Transaction

  class P4AppBackend {
    const switch: Switch
    const nativeBatch: bool

    constructor (switch: Switch, nativeBatch: bool)
      ensures this.switch == switch && this.nativeBatch == nativeBatch
    {
      this.switch := switch;
      this.nativeBatch := nativeBatch;
    }

    function Kind(): Backend {
      P4App(nativeBatch)
    }

    /** One phase: a single native request, or one request per entry in sorted order until one
        of them fails. */
    method WritePairs(op: Operation, pairs: set<Pair>, transport: Transport) returns (ok: bool, requests: nat)
      requires op != Read
      modifies switch
      ensures (switch.State(), ok, requests) == Transaction.WritePairs(old(switch.State()), op, pairs, transport)
    {
      ghost var start := switch.State();
      if transport == NATIVE_BATCH {
        if pairs == {} {
          return true, 0;
        }
        ok := switch.Write(op, pairs);
        return ok, 1;
      }
      var ordered := Sorted(pairs);
      var i := 0;
      ok := true;
      while i < |ordered|
        invariant 0 <= i <= |ordered|
        invariant SendAll(start, op, ordered) == SendAll(switch.State(), op, ordered[i..])
      {
        ok := switch.Write(op, {ordered[i]});
        if !ok {
          return false, |ordered|;
        }
        i := i + 1;
      }
      return true, |ordered|;
    }

    method Restore(previous: set<Pair>) returns (ok: bool)
      modifies switch
      ensures (switch.State(), ok) == Transaction.Restore(Kind(), old(switch.State()), previous)
    {
      var current: set<Pair>;
      ok, current := switch.Fetch();
      if !ok { return; }
      var n: nat;
      ok, n := WritePairs(Delete, current - previous, SEQUENTIAL);
      if !ok { return; }
      ok, n := WritePairs(Insert, previous - current, SEQUENTIAL);
      if !ok { return; }
      var restored: set<Pair>;
      ok, restored := switch.Fetch();
      ok := ok && restored == previous;
    }

    /** The guarded part of a transition; false stands for any exception raised inside it. */
    method Update(previous: set<Pair>, target: set<Pair>, strategy: Strategy, delay: int, transport: Transport)
      returns (ok: bool, requests: nat)
      modifies switch
      ensures (switch.State(), ok, requests)
              == Transaction.Update(Kind(), old(switch.State()), previous, target, strategy, delay, transport)
    {
      ok, requests := WritePairs(Delete, Removed(strategy, previous, target), transport);
      if !ok || delay > 0 {
        return false, requests;
      }
      var installed: bool, n: nat;
      installed, n := WritePairs(Insert, Added(strategy, previous, target), transport);
      requests := requests + n;
      if !installed {
        return false, requests;
      }
      var observed: set<Pair>;
      ok, observed := switch.Fetch();
      ok := ok && observed == target;
    }

    method Apply(previous: set<Pair>, target: set<Pair>, strategy: Strategy, delay: int, transport: Transport)
      returns (outcome: Outcome)
      modifies switch
      ensures (switch.State(), outcome)
              == Transaction.Apply(Kind(), old(switch.State()), previous, target, strategy, delay, transport)
      ensures outcome.Rejected? ==> switch.State() == old(switch.State())
      ensures outcome.Returned? ==> switch.table == target
      ensures outcome.RolledBack? ==> switch.table == previous
      ensures old(switch.table) == previous ==> Confined(switch.log, |old(switch.log)|, previous, target)
    {
      ApplyOutcome(Kind(), switch.State(), previous, target, strategy, delay, transport);
      if switch.table == previous {
        NeverMixed(Kind(), switch.State(), previous, target, strategy, delay, transport);
      }
      if delay < 0 || delay > MAX_DELAY_US {
        return Rejected(BadDelay);
      }
      if strategy != FULL && strategy != DELTA {
        return Rejected(BadStrategy);
      }
      if !(transport == SEQUENTIAL || (transport == NATIVE_BATCH && nativeBatch)) {
        return Rejected(BadTransport);
      }
      var ok, requests := Update(previous, target, strategy, delay, transport);
      if ok {
        return Returned(Timing(|Removed(strategy, previous, target)|, |Added(strategy, previous, target)|,
                               |Kept(strategy, previous, target)|, requests, |target|));
      }
      var restored := Restore(previous);
      return if restored then RolledBack else RollbackFailed;
    }
  }
}
