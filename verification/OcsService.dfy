/** The Python agent as an object over a P4Runtime adapter.  Every method is one call made under
    the agent's lock and is proved to be the corresponding step of module OcsCore. */
module OcsService {
  import opened DeviceTable
  import opened Transaction
  import opened Connections
  import opened AgentModel
  import opened OcsCore
  import opened Wrappers
  import DeviceWorker
  import Lease
  import P4App

  class OcsAgent {
    const backend: P4App.P4AppBackend
    const strict: bool
    const leaseSeconds: real

    var connections: ValidSet
    var mode: Mode
    var revision: nat

    var leaseToken: string
    var leaseEpoch: nat
    var leaseExpires: real
    var requestId: nat

    var status: Status
    var lastError: LastError
    var startupRecoveryRequired: bool
    var deviceGeneration: nat
    var cacheStatus: DeviceWorker.CacheStatus
    var driftCount: nat

    /** The fields before the startup read has been evaluated. */
    constructor (backend: P4App.P4AppBackend, strict: bool, leaseSeconds: real, initial: ValidSet)
      ensures this.backend == backend && ConfigState() == Config(backend.nativeBatch, strict, leaseSeconds)
      ensures ModelState() == Model(initial, OCS, 0) && ControlState() == Control(Lease.START, 0)
      ensures ViewState() == View(Updating, NoError, false, 0, DeviceWorker.UNKNOWN, 0, backend.switch.State())
    {
      this.backend := backend;
      this.strict := strict;
      this.leaseSeconds := leaseSeconds;
      connections, mode, revision := initial, OCS, 0;
      leaseToken, leaseEpoch, leaseExpires, requestId := "", 0, 0.0, 0;
      status, lastError, startupRecoveryRequired := Updating, NoError, false;
      deviceGeneration, cacheStatus, driftCount := 0, DeviceWorker.UNKNOWN, 0;
    }

    function ConfigState(): Config {
      Config(backend.nativeBatch, strict, leaseSeconds)
    }

    function ModelState(): Model
      reads this
    {
      Model(connections, mode, revision)
    }

    function ControlState(): Control
      reads this
    {
      Control(Lease.Lease(leaseToken, leaseEpoch, leaseExpires), requestId)
    }

    function ViewState(): View
      reads this, backend.switch
    {
      View(status, lastError, startupRecoveryRequired, deviceGeneration, cacheStatus, driftCount,
           backend.switch.State())
    }

    function State(): Agent
      reads this, backend.switch
    {
      Agent(ConfigState(), ModelState(), ControlState(), ViewState())
    }

    method StartFrom(observed: set<Pair>, desired: set<Pair>, policy: StartupPolicy) returns (ok: bool)
      modifies this`status, this`cacheStatus, this`startupRecoveryRequired, this`lastError, this`deviceGeneration,
               backend.switch
      ensures var r := OcsCore.StartFrom(ConfigState(), old(ViewState()), observed, desired, policy);
              if ok then r == Some(ViewState()) else r == None
    {
      if observed == desired {
        status := Ready;
      } else if policy == REQUIRE_MATCH {
        status := Failed;
        cacheStatus := DeviceWorker.DRIFTED;
        startupRecoveryRequired := true;
        lastError := OtherError;
      } else {
        var outcome := backend.Apply(observed, desired, FULL, 0, SEQUENTIAL);
        if !outcome.Returned? {
          return false;
        }
        status := Ready;
      }
      CaptureBackendState(true);
      return true;
    }

    /** Construction with its startup read; null when it raises. */
    static method Create(backend: P4App.P4AppBackend, strict: bool, leaseSeconds: real, initial: ValidSet,
                         policy: StartupPolicy) returns (agent: OcsAgent?)
      modifies backend.switch
      ensures var r := Start(Config(backend.nativeBatch, strict, leaseSeconds), initial, policy,
                            old(backend.switch.State()));
              if agent == null then r.None? else r == Some(agent.State()) && agent.backend == backend && fresh(agent)
    {
      var a := new OcsAgent(backend, strict, leaseSeconds, initial);
      var desired := CollectDirectedPairs(initial);
      var read, observed := backend.switch.Fetch();
      if !read {
        return null;
      }
      var ok := a.StartFrom(observed, desired, policy);
      return if ok then a else null;
    }

    method CaptureBackendState(success: bool)
      modifies this`deviceGeneration, this`cacheStatus
      ensures ViewState() == Capture(old(ViewState()), success)
    {
      if success {
        deviceGeneration := deviceGeneration + 1;
        cacheStatus := DeviceWorker.READY;
      }
      if startupRecoveryRequired {
        cacheStatus := DeviceWorker.DRIFTED;
      }
    }

    method CurrentDevicePairs() returns (pairs: set<Pair>)
      ensures pairs == CurrentPairs(ModelState())
    {
      if mode == OCS {
        pairs := CollectDirectedPairs(connections);
      } else {
        pairs := AllToAll(connections.n);
      }
    }

    // -------------------------------------------------------------- lease

    method ExpireLease(now: real)
      modifies this`leaseToken, this`leaseExpires
      ensures ControlState() == old(ControlState()).(lease := Lease.Expire(old(ControlState()).lease, now))
    {
      if leaseToken != "" && now >= leaseExpires {
        leaseToken := "";
        leaseExpires := 0.0;
      }
    }

    method AcquireControl(token: string, requested: Option<real>, now: real, stamp: real) returns (answer: Lease.Answer)
      modifies this`leaseToken, this`leaseEpoch, this`leaseExpires
      ensures (State(), LeaseReply(answer))
              == Step(old(State()), LeaseCall(Lease.Event(Lease.Acquire(token, requested), now, stamp)))
    {
      ExpireLease(now);
      if leaseToken != "" {
        return Lease.Held;
      }
      var duration := Lease.Duration(leaseSeconds, requested);
      if duration.None? {
        return Lease.BadDuration;
      }
      leaseEpoch := leaseEpoch + 1;
      leaseToken := token;
      leaseExpires := stamp + duration.value;
      return Lease.Granted;
    }

    method RenewControl(token: string, requested: Option<real>, now: real, stamp: real) returns (answer: Lease.Answer)
      modifies this`leaseToken, this`leaseExpires
      ensures (State(), LeaseReply(answer))
              == Step(old(State()), LeaseCall(Lease.Event(Lease.Renew(token, requested), now, stamp)))
    {
      ExpireLease(now);
      if token == "" || token != leaseToken {
        return Lease.Refused;
      }
      var duration := Lease.Duration(leaseSeconds, requested);
      if duration.None? {
        return Lease.BadDuration;
      }
      leaseExpires := stamp + duration.value;
      return Lease.Granted;
    }

    method ReleaseControl(token: string, now: real) returns (answer: Lease.Answer)
      modifies this`leaseToken, this`leaseExpires
      ensures (State(), LeaseReply(answer))
              == Step(old(State()), LeaseCall(Lease.Event(Lease.Release(token), now, now)))
    {
      ExpireLease(now);
      if token == "" || token != leaseToken {
        return Lease.Refused;
      }
      leaseToken := "";
      leaseExpires := 0.0;
      return Lease.Accepted;
    }

    // -------------------------------------------------------------- preconditions

    method CheckControl(terms: Terms) returns (cause: Option<Cause>)
      modifies this`requestId, this`leaseToken, this`leaseExpires
      ensures (ControlState(), cause) == OcsCore.CheckControl(old(State()), terms)
    {
      requestId := requestId + 1;
      ExpireLease(terms.now);
      if terms.token == "" || terms.token != leaseToken {
        return Some(LeaseRefused);
      }
      if terms.expected.None? {
        return Some(RevisionMissing);
      }
      if terms.expected.value < 0 {
        return Some(Invalid);
      }
      if terms.expected.value != revision {
        return Some(RevisionConflict);
      }
      return None;
    }

    method CheckWrite(terms: Terms) returns (cause: Option<Cause>)
      modifies this`requestId, this`leaseToken, this`leaseExpires
      ensures (ControlState(), cause) == OcsCore.CheckWrite(old(State()), terms)
    {
      cause := CheckControl(terms);
      if cause.Some? {
        return;
      }
      if startupRecoveryRequired {
        return Some(GateClosed);
      }
      if cacheStatus != DeviceWorker.READY {
        return Some(CacheNotReady);
      }
    }

    // -------------------------------------------------------------- writes

    method Precheck(current: set<Pair>) returns (cause: Option<Cause>)
      modifies this`status, this`lastError, this`cacheStatus, this`driftCount, this`deviceGeneration, backend.switch
      ensures (ViewState(), cause) == OcsCore.Precheck(strict, old(ViewState()), current)
    {
      if !strict {
        return None;
      }
      var ok, observed := backend.switch.Fetch();
      if !ok {
        return Some(ReadFailed);
      }
      if observed != current {
        if cacheStatus != DeviceWorker.DRIFTED {
          driftCount := driftCount + 1;
        }
        cacheStatus := DeviceWorker.DRIFTED;
        CaptureBackendState(false);
        status := Failed;
        lastError := OtherError;
        return Some(DriftFound);
      }
      return None;
    }

    method Settle(outcome: Outcome, noted: LastError) returns (cause: Option<Cause>)
      modifies this`status, this`lastError, this`cacheStatus, this`deviceGeneration
      ensures (ViewState(), cause) == OcsCore.Settle(old(ViewState()), outcome, noted)
    {
      match outcome {
        case Rejected(_) =>
          return Some(BackendRejected);
        case Returned(_) =>
          return None;
        case RolledBack =>
          CaptureBackendState(false);
          status := Ready;
          lastError := noted;
          return Some(Restored);
        case RollbackFailed =>
          CaptureBackendState(false);
          status := Failed;
          lastError := noted;
          return Some(Broken);
      }
    }

    method Execute(current: set<Pair>, target: set<Pair>, strategy: Strategy, terms: Terms, noted: LastError)
      returns (cause: Option<Cause>)
      modifies this`status, this`lastError, this`cacheStatus, this`deviceGeneration, backend.switch
      ensures (ViewState(), cause)
              == OcsCore.Execute(ConfigState(), old(ViewState()), current, target, strategy, terms, noted)
    {
      var outcome := backend.Apply(current, target, strategy, terms.delay, terms.transport);
      cause := Settle(outcome, noted);
    }

    method Program(current: set<Pair>, target: set<Pair>, strategy: Strategy, terms: Terms, noted: LastError)
      returns (cause: Option<Cause>)
      modifies this`status, this`lastError, this`cacheStatus, this`driftCount, this`deviceGeneration, backend.switch
      ensures (ViewState(), cause)
              == OcsCore.Program(ConfigState(), old(ViewState()), current, target, strategy, terms, noted)
    {
      status := Updating;
      cause := Precheck(current);
      if cause.None? {
        cause := Execute(current, target, strategy, terms, noted);
      }
    }

    method RecordTarget(target: ValidSet) returns (reply: Reply)
      modifies this`connections, this`revision, this`status, this`lastError, this`cacheStatus, this`deviceGeneration
      ensures (ModelState(), ViewState(), reply) == OcsCore.RecordTarget(old(ModelState()), old(ViewState()), target)
    {
      connections := target;
      revision := revision + 1;
      CaptureBackendState(true);
      status := Ready;
      lastError := NoError;
      return Updated;
    }

    method ChangeTarget(previousPairs: set<Pair>, targetPairs: set<Pair>, target: ValidSet, terms: Terms)
      returns (reply: Reply)
      modifies this`connections, this`revision, this`status, this`lastError, this`cacheStatus, this`driftCount,
               this`deviceGeneration, backend.switch
      ensures (ModelState(), ViewState(), reply)
              == OcsCore.ChangeTarget(ConfigState(), old(ModelState()), old(ViewState()), previousPairs, targetPairs,
                                      target, terms)
    {
      var cause := Program(previousPairs, targetPairs, terms.strategy, terms, OtherError);
      if cause.Some? {
        return Refused(cause.value);
      }
      reply := RecordTarget(target);
    }

    method CommitTarget(target: ValidSet, terms: Terms) returns (reply: Reply)
      modifies this`connections, this`revision, this`status, this`lastError, this`cacheStatus, this`driftCount,
               this`deviceGeneration, backend.switch
      ensures (ModelState(), ViewState(), reply)
              == OcsCore.CommitTarget(ConfigState(), old(ModelState()), old(ViewState()), target, terms)
    {
      if mode != OCS {
        return Refused(WrongMode);
      }
      if Equal(target, connections) {
        return Same;
      }
      var previousPairs := CurrentDevicePairs();
      var targetPairs := CollectDirectedPairs(target);
      reply := ChangeTarget(previousPairs, targetPairs, target, terms);
    }

    method ApplyTarget(target: ValidSet, terms: Terms) returns (reply: Reply)
      modifies this, backend.switch
      ensures (State(), reply) == OcsCore.ApplyTarget(old(State()), target, terms)
    {
      if !(0 <= terms.delay <= MAX_DELAY_US) {
        return Refused(Invalid);
      }
      var cause := CheckWrite(terms);
      if cause.Some? {
        return Refused(cause.value);
      }
      reply := CommitTarget(target, terms);
    }

    /** The batch loop: the target is folded from the current set before anything is checked, and
        the first failing edit raises. */
    method ApplyConnectionOperations(edits: seq<Edit>, terms: Terms) returns (reply: Reply)
      requires ValidEdits(connections.n, edits)
      modifies this, backend.switch
      ensures (State(), reply) == Step(old(State()), Write(edits, terms))
    {
      var target: ConnectionSet := connections;
      var i := 0;
      while i < |edits|
        invariant 0 <= i <= |edits|
        invariant State() == old(State())
        invariant ApplyEdits(connections, edits) == ApplyEdits(target, edits[i..])
      {
        var r := ApplyEdit(target, edits[i]);
        if r.Failure? {
          return Refused(Invalid);
        }
        target := r.value;
        i := i + 1;
      }
      reply := ApplyTarget(Target(connections, edits).value, terms);
    }

    method RecordMode(target: Mode) returns (reply: Reply)
      modifies this`mode, this`revision, this`status, this`cacheStatus, this`deviceGeneration
      ensures (ModelState(), ViewState(), reply) == OcsCore.RecordMode(old(ModelState()), old(ViewState()), target)
    {
      mode := target;
      status := Ready;
      revision := revision + 1;
      CaptureBackendState(true);
      return Updated;
    }

    method ChangeMode(previousPairs: set<Pair>, targetPairs: set<Pair>, target: Mode, terms: Terms)
      returns (reply: Reply)
      modifies this`mode, this`revision, this`status, this`lastError, this`cacheStatus, this`driftCount,
               this`deviceGeneration, backend.switch
      ensures (ModelState(), ViewState(), reply)
              == OcsCore.ChangeMode(ConfigState(), old(ModelState()), old(ViewState()), previousPairs, targetPairs,
                                    target, terms)
    {
      var cause := Program(previousPairs, targetPairs, FULL, terms, lastError);
      if cause.Some? {
        return Refused(cause.value);
      }
      reply := RecordMode(target);
    }

    method CommitMode(target: Mode, terms: Terms) returns (reply: Reply)
      modifies this`mode, this`revision, this`status, this`lastError, this`cacheStatus, this`driftCount,
               this`deviceGeneration, backend.switch
      ensures (ModelState(), ViewState(), reply)
              == OcsCore.CommitMode(ConfigState(), old(ModelState()), old(ViewState()), target, terms)
    {
      if target == mode {
        return Same;
      }
      var previousPairs := CurrentDevicePairs();
      var targetPairs := PairsFor(connections, target);
      reply := ChangeMode(previousPairs, targetPairs, target, terms);
    }

    method SetMode(target: Option<Mode>, terms: Terms) returns (reply: Reply)
      modifies this, backend.switch
      ensures (State(), reply) == SetModeStep(old(State()), target, terms)
    {
      if target.None? || !(0 <= terms.delay <= MAX_DELAY_US) {
        return Refused(Invalid);
      }
      var cause := CheckWrite(terms);
      if cause.Some? {
        return Refused(cause.value);
      }
      reply := CommitMode(target.value, terms);
    }

    // -------------------------------------------------------------- recovery and reconciliation

    method Reprogram(observed: set<Pair>, desired: set<Pair>, terms: Terms) returns (done: bool)
      requires observed == backend.switch.table
      modifies backend.switch
      ensures (backend.switch.State(), done)
              == OcsCore.Reprogram(ConfigState(), old(backend.switch.State()), desired, terms)
    {
      var outcome := backend.Apply(observed, desired, terms.strategy, terms.delay, terms.transport);
      if !outcome.Returned? {
        return false;
      }
      var read, verified := backend.switch.Fetch();
      return read && verified == desired;
    }

    method RecoverView(desired: set<Pair>, terms: Terms) returns (done: bool)
      modifies this`status, this`lastError, this`startupRecoveryRequired, this`cacheStatus, this`deviceGeneration,
               backend.switch
      ensures (ViewState(), done) == OcsCore.RecoverView(ConfigState(), old(ViewState()), desired, terms)
    {
      status := Updating;
      var read, observed := backend.switch.Fetch();
      done := false;
      if read {
        done := Reprogram(observed, desired, terms);
      }
      if !done {
        cacheStatus := DeviceWorker.UNKNOWN;
        status := Failed;
        lastError := OtherError;
        return false;
      }
      startupRecoveryRequired := false;
      CaptureBackendState(true);
      status := Ready;
      lastError := NoError;
    }

    method RecoverModel(desired: set<Pair>, terms: Terms) returns (reply: Reply)
      modifies this`revision, this`status, this`lastError, this`startupRecoveryRequired, this`cacheStatus,
               this`deviceGeneration, backend.switch
      ensures (ModelState(), ViewState(), reply)
              == OcsCore.RecoverModel(ConfigState(), old(ModelState()), old(ViewState()), desired, terms)
    {
      var done := RecoverView(desired, terms);
      if !done {
        return Refused(Broken);
      }
      revision := revision + 1;
      return Recovered;
    }

    method RecoverDeviceState(terms: Terms) returns (reply: Reply)
      modifies this, backend.switch
      ensures (State(), reply) == RecoverStep(old(State()), terms)
    {
      var cause := CheckControl(terms);
      if cause.Some? {
        return Refused(cause.value);
      }
      var desired := CurrentDevicePairs();
      reply := RecoverModel(desired, terms);
    }

    method Judge(observed: set<Pair>, desired: set<Pair>)
      modifies this`status, this`lastError, this`cacheStatus, this`driftCount
      ensures ViewState() == OcsCore.Judge(old(ViewState()), observed, desired)
    {
      if observed == desired {
        cacheStatus := DeviceWorker.READY;
      } else {
        if cacheStatus != DeviceWorker.DRIFTED {
          driftCount := driftCount + 1;
        }
        cacheStatus := DeviceWorker.DRIFTED;
      }
      if startupRecoveryRequired {
        status := Failed;
        cacheStatus := DeviceWorker.DRIFTED;
        lastError := OtherError;
      } else if observed != desired {
        status := Failed;
        lastError := DriftDetected;
      } else if lastError == DriftDetected {
        status := Ready;
        lastError := NoError;
      }
    }

    method ReconcileDeviceState()
      modifies this`status, this`lastError, this`cacheStatus, this`driftCount, backend.switch
      ensures State() == Step(old(State()), ReconcileDevice).0
    {
      var desired := CurrentDevicePairs();
      var read, observed := backend.switch.Fetch();
      if read {
        Judge(observed, desired);
      } else {
        cacheStatus := DeviceWorker.UNKNOWN;
        status := Failed;
        lastError := OtherError;
      }
    }
  }
}
