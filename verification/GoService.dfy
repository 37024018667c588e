/** The Go agent and its client as objects.  Every method is one section under the agent's mutex, or
    one use of the client's, and is proved to be the corresponding function of module GoCore. */
module GoService {
  import opened DeviceTable
  import opened Transaction
  import opened Connections
  import opened AgentModel
  import opened GoCore
  import opened Wrappers
  import DeviceWorker
  import Lease

  /** The wire form of a pair set: its pairs in ascending order. */
  method PairsToProto(pairs: set<Pair>) returns (result: seq<Pair>)
    ensures Elements(result) == pairs && |result| == |pairs|
    ensures forall i, j | 0 <= i < j < |result| :: Earlier(result[i], result[j])
  {
    SortedLists(pairs);
    var ordered := Sorted(pairs);
    result := [];
    for i := 0 to |ordered|
      invariant result == ordered[..i]
    {
      result := result + [ordered[i]];
    }
    assert ordered[..|ordered|] == ordered;
  }

  /** Any list, in any order and with repetitions, back into a set. */
  method PairsFromProto(pairs: seq<Pair>) returns (result: set<Pair>)
    ensures result == Elements(pairs)
  {
    result := {};
    for i := 0 to |pairs|
      invariant result == Elements(pairs[..i])
    {
      assert pairs[..i + 1] == pairs[..i] + [pairs[i]];
      result := result + {pairs[i]};
    }
    assert pairs[..|pairs|] == pairs;
  }

  /** What the worker unpacks is what the client packed. */
  method RoundTrip(pairs: set<Pair>) returns (unpacked: set<Pair>)
    ensures unpacked == pairs
  {
    var packed := PairsToProto(pairs);
    unpacked := PairsFromProto(packed);
  }

  class BackendClient {
    var generation: nat
    var cacheStatus: DeviceWorker.CacheStatus

    constructor (generation: nat, cacheStatus: DeviceWorker.CacheStatus)
      ensures State() == Client(generation, cacheStatus)
    {
      this.generation := generation;
      this.cacheStatus := cacheStatus;
    }

    function State(): Client
      reads this
    {
      Client(generation, cacheStatus)
    }

    method CaptureState(reply: DeviceWorker.Reply)
      requires reply.Reply?
      modifies this
      ensures State() == Capture(old(State()), reply)
    {
      generation := reply.generation;
      cacheStatus := reply.cache;
    }

    method MarkUnknown()
      modifies this`cacheStatus
      ensures State() == Capture(old(State()), DeviceWorker.RpcError)
    {
      cacheStatus := DeviceWorker.UNKNOWN;
    }

    /** The end of every RPC. */
    method Receive(reply: DeviceWorker.Reply) returns (success: bool)
      modifies this
      ensures State() == Capture(old(State()), reply) && success == Succeeded(reply)
    {
      if reply.RpcError? {
        MarkUnknown();
        return false;
      }
      CaptureState(reply);
      return reply.success;
    }

    /** The beginning of an ApplyTransition RPC. */
    method ApplyRequest(previous: set<Pair>, target: set<Pair>, terms: Terms) returns (call: DeviceWorker.Call)
      ensures call == ApplyCall(State(), previous, target, terms)
    {
      call := DeviceWorker.ApplyTransition(previous, target, terms.strategy, terms.transport, terms.delay, generation);
    }
  }

  class Agent {
    const backend: Backend
    const leaseSeconds: real
    const client: BackendClient

    var connections: ValidSet
    var mode: Mode
    var revision: nat
    var status: Status
    var lastError: LastError
    var startupRecoveryRequired: bool

    var leaseToken: string
    var leaseEpoch: nat
    var leaseExpires: real
    var requestID: nat

    constructor (backend: Backend, leaseSeconds: real, client: BackendClient, initial: ValidSet)
      ensures this.client == client && Settings() == Config(backend, leaseSeconds)
      ensures CoreState() == Core(Model(initial, OCS, 0), Updating, NoError, false)
      ensures ControlState() == Control(Lease.START, 0)
    {
      this.backend := backend;
      this.leaseSeconds := leaseSeconds;
      this.client := client;
      connections, mode, revision := initial, OCS, 0;
      status, lastError, startupRecoveryRequired := Updating, NoError, false;
      leaseToken, leaseEpoch, leaseExpires, requestID := "", 0, 0.0, 0;
    }

    function Settings(): Config {
      Config(backend, leaseSeconds)
    }

    function ModelState(): Model
      reads this
    {
      Model(connections, mode, revision)
    }

    function CoreState(): Core
      reads this
    {
      Core(ModelState(), status, lastError, startupRecoveryRequired)
    }

    function ControlState(): Control
      reads this
    {
      Control(Lease.Lease(leaseToken, leaseEpoch, leaseExpires), requestID)
    }

    /** The judgement on the startup read; false when a transition is needed first. */
    method StartFrom(observed: set<Pair>, policy: StartupPolicy) returns (settled: bool)
      requires CoreState() == Core(Model(connections, OCS, 0), Updating, NoError, false)
      modifies this`status, this`lastError, this`startupRecoveryRequired
      ensures settled == GoCore.StartFrom(connections, observed, policy).Some?
      ensures settled ==> GoCore.StartFrom(connections, observed, policy) == Some(CoreState())
      ensures !settled ==> CoreState() == old(CoreState())
    {
      var desired := CollectDirectedPairs(connections);
      if observed == desired {
        status := Ready;
        return true;
      }
      if policy == REQUIRE_MATCH {
        status := Failed;
        lastError := OtherError;
        startupRecoveryRequired := true;
        return true;
      }
      return false;
    }

    method ReportedCacheStatus() returns (cache: DeviceWorker.CacheStatus)
      ensures cache == ReportedCache(CoreState(), client.State())
      ensures startupRecoveryRequired ==> cache != DeviceWorker.READY
    {
      cache := client.cacheStatus;
      if startupRecoveryRequired {
        cache := DeviceWorker.DRIFTED;
      }
    }

    method CurrentPairsLocked() returns (pairs: set<Pair>)
      ensures pairs == CurrentPairs(ModelState())
    {
      if mode == DEBUG {
        return AllToAll(connections.n);
      }
      pairs := CollectDirectedPairs(connections);
    }

    // -------------------------------------------------------------- lease

    method ExpireLease(now: real)
      modifies this`leaseToken, this`leaseExpires
      ensures ControlState() == old(ControlState()).(lease := Lease.Expire(old(ControlState()).lease, now))
    {
      if leaseToken != "" && now >= leaseExpires {
        leaseToken := "";
        leaseExpires := 0.0;
      }
    }

    /** Requested seconds are a whole number; zero asks for the configured maximum. */
    method LeaseDurationFor(requested: nat) returns (duration: real)
      ensures Lease.Duration(leaseSeconds, Some(requested as real)) == Some(duration)
    {
      if requested == 0 {
        return leaseSeconds;
      }
      duration := requested as real;
      if duration > leaseSeconds {
        return leaseSeconds;
      }
    }

    method AcquireControl(token: string, requested: nat, now: real, stamp: real) returns (answer: Lease.Answer)
      modifies this`leaseToken, this`leaseEpoch, this`leaseExpires
      ensures requestID == old(requestID)
      ensures (ControlState().lease, answer)
              == Lease.Step(leaseSeconds, old(ControlState()).lease,
                            Lease.Event(Lease.Acquire(token, Some(requested as real)), now, stamp))
    {
      ExpireLease(now);
      if leaseToken != "" {
        return Lease.Held;
      }
      leaseEpoch := leaseEpoch + 1;
      leaseToken := token;
      var duration := LeaseDurationFor(requested);
      leaseExpires := stamp + duration;
      return Lease.Granted;
    }

    method RenewControl(token: string, requested: nat, now: real, stamp: real) returns (answer: Lease.Answer)
      modifies this`leaseToken, this`leaseExpires
      ensures (ControlState().lease, answer)
              == Lease.Step(leaseSeconds, old(ControlState()).lease,
                            Lease.Event(Lease.Renew(token, Some(requested as real)), now, stamp))
    {
      ExpireLease(now);
      if token == "" || token != leaseToken {
        return Lease.Refused;
      }
      var duration := LeaseDurationFor(requested);
      leaseExpires := stamp + duration;
      return Lease.Granted;
    }

    method ReleaseControl(token: string, now: real) returns (answer: Lease.Answer)
      modifies this`leaseToken, this`leaseExpires
      ensures (ControlState().lease, answer)
              == Lease.Step(leaseSeconds, old(ControlState()).lease, Lease.Event(Lease.Release(token), now, now))
    {
      ExpireLease(now);
      if token == "" || token != leaseToken {
        return Lease.Refused;
      }
      leaseToken := "";
      leaseExpires := 0.0;
      return Lease.Accepted;
    }

    // -------------------------------------------------------------- sections of a write

    /** The reading section and the fold of a batch: nothing is changed whatever fails. */
    method FoldOperations(edits: seq<Edit>) returns (target: Option<ConnectionSet>)
      ensures mode != OCS ==> target == None
      ensures mode == OCS ==> target == match ApplyEdits(connections, edits)
                                        case Success(t) => Some(t)
                                        case Failure(_) => None
    {
      if mode != OCS {
        return None;
      }
      var folded: ConnectionSet := connections;
      var i := 0;
      while i < |edits|
        invariant 0 <= i <= |edits|
        invariant ApplyEdits(connections, edits) == ApplyEdits(folded, edits[i..])
      {
        var r := ApplyEdit(folded, edits[i]);
        if r.Failure? {
          return None;
        }
        folded := r.value;
        i := i + 1;
      }
      return Some(folded);
    }

    method CheckControl(terms: Terms, now: real) returns (cause: Option<Refusal>)
      modifies this`requestID, this`leaseToken, this`leaseExpires
      ensures (ControlState(), cause) == GoCore.CheckControl(Settings(), revision, old(ControlState()), terms, now)
    {
      requestID := requestID + 1;
      ExpireLease(now);
      if terms.token == "" || terms.token != leaseToken {
        return Some(LeaseRefused);
      }
      if terms.expected.None? {
        return Some(RevisionMissing);
      }
      if terms.expected.value != revision {
        return Some(RevisionConflict);
      }
      return None;
    }

    method CheckState(modeChange: bool) returns (cause: Option<Refusal>)
      ensures cause == GoCore.CheckState(CoreState(), client.State(), modeChange)
    {
      if startupRecoveryRequired {
        return Some(GateClosed);
      }
      if client.cacheStatus != DeviceWorker.READY {
        return Some(CacheNotReady);
      }
      if !modeChange && mode != OCS {
        return Some(WrongMode);
      }
      return None;
    }

    /** From the comparison with the current state to the prepared RPC. */
    method Plan(target: ValidSet, targetMode: Mode, terms: Terms) returns (plan: Admission)
      requires target.n == connections.n
      ensures plan == GoCore.Plan(ModelState(), client.State(), target, targetMode, terms)
    {
      if Equal(target, connections) && targetMode == mode {
        return Declined(Same);
      }
      var previousPairs := CurrentPairsLocked();
      var targetPairs := CollectDirectedPairs(target);
      if targetMode == DEBUG {
        targetPairs := AllToAll(connections.n);
      }
      var call := client.ApplyRequest(previousPairs, targetPairs, terms);
      return Admitted(target, targetMode, call);
    }

    method AdmitWrite(target: ValidSet, change: Option<Mode>, terms: Terms, now: real) returns (plan: Admission)
      requires target.n == connections.n
      modifies this`requestID, this`leaseToken, this`leaseExpires, this`status
      ensures (CoreState(), ControlState(), plan)
              == GoCore.AdmitWrite(Settings(), old(CoreState()), old(ControlState()), client.State(), target,
                                   change, terms, now)
    {
      if !Accepted(backend, terms.strategy, terms.delay, terms.transport) {
        return Declined(Refused(Unexecutable));
      }
      var cause := CheckControl(terms, now);
      if cause.Some? {
        return Declined(Refused(cause.value));
      }
      cause := CheckState(change.Some?);
      if cause.Some? {
        return Declined(Refused(cause.value));
      }
      plan := Plan(target, if change.Some? then change.value else mode, terms);
      if plan.Admitted? {
        status := Updating;
      }
    }

    method BackendError(reply: DeviceWorker.Reply) returns (answer: Answer)
      modifies this`status, this`lastError
      ensures (CoreState(), answer) == GoCore.BackendError(old(CoreState()), reply)
    {
      if reply.Reply? {
        if reply.code == DeviceWorker.FAILED_PRECONDITION {
          status := Failed;
          lastError := OtherError;
          return Disagreed;
        }
        status := Ready;
        answer := Restored;
        if !reply.restored {
          status := Failed;
          answer := Broken;
        }
        lastError := OtherError;
        return;
      }
      status := Failed;
      lastError := OtherError;
      return Unavailable;
    }

    /** After the RPC, whatever became of it: first the client's section, then the agent's. */
    method CommitWrite(target: ValidSet, targetMode: Mode, reply: DeviceWorker.Reply) returns (answer: Answer)
      modifies this`connections, this`mode, this`revision, this`status, this`lastError, client
      ensures client.State() == Capture(old(client.State()), reply)
      ensures (CoreState(), answer) == GoCore.CommitWrite(old(CoreState()), target, targetMode, reply)
    {
      var success := client.Receive(reply);
      if !success {
        answer := BackendError(reply);
        return;
      }
      connections := target;
      mode := targetMode;
      revision := revision + 1;
      status := Ready;
      lastError := NoError;
      return Updated;
    }

    // -------------------------------------------------------------- recovery and reconciliation

    method AdmitRecover(terms: Terms, now: real) returns (cause: Option<Refusal>)
      modifies this`requestID, this`leaseToken, this`leaseExpires, this`status
      ensures (CoreState(), ControlState(), cause)
              == GoCore.AdmitRecover(Settings(), old(CoreState()), old(ControlState()), terms, now)
    {
      cause := CheckControl(terms, now);
      if cause.None? {
        status := Updating;
      }
    }

    method CommitRecover(reply: DeviceWorker.Reply) returns (answer: Answer)
      modifies this`revision, this`status, this`lastError, this`startupRecoveryRequired, client
      ensures client.State() == Capture(old(client.State()), reply)
      ensures (CoreState(), answer) == GoCore.CommitRecover(old(CoreState()), reply)
    {
      var success := client.Receive(reply);
      if !success {
        answer := BackendError(reply);
        return;
      }
      revision := revision + 1;
      status := Ready;
      lastError := NoError;
      startupRecoveryRequired := false;
      return Recovered;
    }

    method FinishReconcile(desired: set<Pair>, reply: DeviceWorker.Reply) returns (answer: Answer)
      modifies this`status, this`lastError, client
      ensures client.State() == Capture(old(client.State()), reply)
      ensures (CoreState(), answer) == GoCore.FinishReconcile(old(CoreState()), desired, reply)
    {
      var _ := client.Receive(reply);
      if reply.RpcError? {
        status := Failed;
        lastError := OtherError;
        return Unavailable;
      }
      if reply.cache != DeviceWorker.READY || reply.observed != desired {
        status := Failed;
        lastError := DriftDetected;
      } else if !startupRecoveryRequired && lastError == DriftDetected {
        status := Ready;
        lastError := NoError;
      }
      return Reconciled;
    }
  }
}
