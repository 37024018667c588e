/** Whole runs of the Python agent: agreement with the device, serial revisions, the startup gate
    and the lease. */
module OcsRuns {
  import opened DeviceTable
  import opened Transaction
  import DeviceWorker
  import opened Connections
  import opened AgentModel
  import opened OcsCore
  import opened Wrappers
  import Lease
  import Counters

  predicate GoodEvents(n: nat, events: seq<Event>) {
    forall i | 0 <= i < |events| :: GoodEvent(n, events[i])
  }

  function After(a: Agent, events: seq<Event>): (r: Agent)
    requires GoodEvents(a.model.connections.n, events)
    ensures r.model.connections.n == a.model.connections.n
  {
    if events == [] then a
    else
      var before := After(a, events[..|events| - 1]);
      StepKeeps(before, events[|events| - 1]);
      Step(before, events[|events| - 1]).0
  }

  function ReplyAt(a: Agent, events: seq<Event>, i: nat): Reply
    requires GoodEvents(a.model.connections.n, events) && i < |events|
  {
    Step(After(a, events[..i]), events[i]).1
  }

  function Successes(a: Agent, events: seq<Event>): nat
    requires GoodEvents(a.model.connections.n, events)
  {
    if events == [] then 0
    else
      var k := |events| - 1;
      Successes(a, events[..k]) + if Succeeds(ReplyAt(a, events, k)) then 1 else 0
  }

  /** Agreement and counting: from any start, after any calls and with any failures, a ready agent
      describes the device table exactly -- in both modes -- and the revision and the device
      generation count the "updated" and "recovered" replies. */
  lemma {:induction false} RunInvariants(c: Config, initial: ValidSet, policy: StartupPolicy, device: Device, a: Agent,
                                         events: seq<Event>)
    requires Start(c, initial, policy, device) == Some(a)
    requires GoodEvents(initial.n, events)
    ensures var a' := After(a, events);
            && (a'.view.status == Ready ==> a'.view.device.table == CurrentPairs(a'.model))
            && (a'.view.gate ==> a'.view.status == Failed && a'.view.cache != DeviceWorker.READY)
            && a'.model.revision == Successes(a, events) && a'.view.generation == 1 + Successes(a, events)
    decreases |events|
  {
    if events == [] {
      StartAgrees(c, DirectedPairs(initial), policy, device);
    } else {
      var k := |events| - 1;
      RunInvariants(c, initial, policy, device, a, events[..k]);
      StepKeeps(After(a, events[..k]), events[k]);
    }
  }

  function RevisionAt(a: Agent, events: seq<Event>, i: nat): nat
    requires GoodEvents(a.model.connections.n, events) && i <= |events|
  {
    After(a, events[..i]).model.revision
  }

  lemma RevisionAfterStep(a: Agent, events: seq<Event>, k: nat)
    requires GoodEvents(a.model.connections.n, events) && k < |events|
    ensures RevisionAt(a, events, k + 1)
            == RevisionAt(a, events, k) + (if Succeeds(ReplyAt(a, events, k)) then 1 else 0)
  {
    assert events[..k + 1][..k] == events[..k];
    StepKeeps(After(a, events[..k]), events[k]);
  }

  lemma RevisionNeverFalls(a: Agent, events: seq<Event>, k: nat)
    requires GoodEvents(a.model.connections.n, events) && k < |events|
    ensures RevisionAt(a, events, k) <= RevisionAt(a, events, k + 1)
  {
    RevisionAfterStep(a, events, k);
  }

  lemma RevisionGrows(a: Agent, events: seq<Event>, i: nat, j: nat)
    requires GoodEvents(a.model.connections.n, events) && i <= j <= |events|
    ensures RevisionAt(a, events, i) <= RevisionAt(a, events, j)
  {
    var revisions := seq(j + 1, k requires 0 <= k <= j => RevisionAt(a, events, k));
    forall k | i <= k < j ensures revisions[k] <= revisions[k + 1] {
      RevisionNeverFalls(a, events, k);
    }
    Counters.Climbs(revisions, i, j);
  }

  /** Every expected revision is consumed at most once: of two successful changes the later one
      named a larger revision. */
  lemma RevisionUsedOnce(a: Agent, events: seq<Event>, i: nat, j: nat)
    requires GoodEvents(a.model.connections.n, events) && i < j < |events|
    requires Succeeds(ReplyAt(a, events, i)) && Succeeds(ReplyAt(a, events, j))
    ensures !events[i].LeaseCall? && !events[i].ReconcileDevice? && !events[j].LeaseCall? && !events[j].ReconcileDevice?
    ensures events[i].terms.expected.Some? && events[j].terms.expected.Some?
            && events[i].terms.expected.value < events[j].terms.expected.value
  {
    StepKeeps(After(a, events[..i]), events[i]);
    StepKeeps(After(a, events[..j]), events[j]);
    RevisionAfterStep(a, events, i);
    RevisionGrows(a, events, i + 1, j);
  }

  // ---------------------------------------------------------------- request ids

  /** The call gets as far as the checks, which is where it is given its request id. */
  predicate Numbered(a: Agent, e: Event)
    requires GoodEvent(a.model.connections.n, e)
  {
    !e.LeaseCall? && LeaseEvents(a, e) != []
  }

  lemma NumbersCounted(a: Agent, e: Event)
    requires GoodEvent(a.model.connections.n, e)
    ensures Step(a, e).0.control.requests == a.control.requests + if Numbered(a, e) then 1 else 0
  {
  }

  function RequestIdAt(a: Agent, events: seq<Event>, i: nat): nat
    requires GoodEvents(a.model.connections.n, events) && i <= |events|
  {
    After(a, events[..i]).control.requests
  }

  lemma RequestIdMoves(a: Agent, events: seq<Event>, k: nat)
    requires GoodEvents(a.model.connections.n, events) && k < |events|
    ensures RequestIdAt(a, events, k + 1)
            == RequestIdAt(a, events, k) + if Numbered(After(a, events[..k]), events[k]) then 1 else 0
  {
    assert events[..k + 1][..k] == events[..k];
    NumbersCounted(After(a, events[..k]), events[k]);
  }

  lemma RequestIdNeverFalls(a: Agent, events: seq<Event>, k: nat)
    requires GoodEvents(a.model.connections.n, events) && k < |events|
    ensures RequestIdAt(a, events, k) <= RequestIdAt(a, events, k + 1)
  {
    RequestIdMoves(a, events, k);
  }

  lemma RequestIdGrows(a: Agent, events: seq<Event>, i: nat, j: nat)
    requires GoodEvents(a.model.connections.n, events) && i <= j <= |events|
    ensures RequestIdAt(a, events, i) <= RequestIdAt(a, events, j)
  {
    var ids := seq(j + 1, k requires 0 <= k <= j => RequestIdAt(a, events, k));
    forall k | i <= k < j ensures ids[k] <= ids[k + 1] { RequestIdNeverFalls(a, events, k); }
    Counters.Climbs(ids, i, j);
  }

  /** No two calls have the same request id, and later calls have larger ones. */
  lemma RequestIdsIncrease(a: Agent, events: seq<Event>, i: nat, j: nat)
    requires GoodEvents(a.model.connections.n, events) && i < j < |events|
    requires Numbered(After(a, events[..i]), events[i]) && Numbered(After(a, events[..j]), events[j])
    ensures RequestIdAt(a, events, i) < RequestIdAt(a, events, i + 1) < RequestIdAt(a, events, j + 1)
  {
    RequestIdGrows(a, events, i + 1, j);
    RequestIdMoves(a, events, i);
    RequestIdMoves(a, events, j);
  }

  // ---------------------------------------------------------------- the startup gate

  /** While the gate is closed, everything but a recovery leaves it closed and at most reads. */
  lemma GatedStep(a: Agent, e: Event)
    requires GoodEvent(a.model.connections.n, e) && a.view.gate && Agrees(a) && !e.RecoverDevice?
    ensures var a' := Step(a, e).0;
            && a'.view.gate && a'.view.cache != DeviceWorker.READY && a'.model == a.model
            && a.view.device.log <= a'.view.device.log
            && OnlyReads(a'.view.device.log, |a.view.device.log|)
            && a'.view.device.table == a.view.device.table
  {
    match e
    case LeaseCall(_) =>
    case Write(edits, terms) =>
    case SetMode(mode, terms) =>
    case ReconcileDevice => ReconcileViewKeeps(a.view, CurrentPairs(a.model));
  }

  /** After a REQUIRE_MATCH mismatch: until somebody calls recover, the gate stays closed, the
      reported cache status is never READY, and the device receives nothing but reads. */
  lemma {:induction false} NoWriteBeforeRecovery(c: Config, initial: ValidSet, policy: StartupPolicy, device: Device,
                                                 a: Agent, events: seq<Event>)
    requires Start(c, initial, policy, device) == Some(a) && a.view.gate
    requires GoodEvents(initial.n, events)
    requires forall i | 0 <= i < |events| :: !events[i].RecoverDevice?
    ensures var a' := After(a, events);
            && a'.view.gate && a'.view.cache != DeviceWorker.READY && a'.model == a.model
            && device.log <= a'.view.device.log && OnlyReads(a'.view.device.log, |device.log|)
            && a'.view.device.table == device.table
    decreases |events|
  {
    if events == [] {
      StartAgrees(c, DirectedPairs(initial), policy, device);
    } else {
      var k := |events| - 1;
      NoWriteBeforeRecovery(c, initial, policy, device, a, events[..k]);
      RunInvariants(c, initial, policy, device, a, events[..k]);
      var before := After(a, events[..k]);
      GatedStep(before, events[k]);
      var log, log' := before.view.device.log, Step(before, events[k]).0.view.device.log;
      assert forall i | |device.log| <= i < |log| :: log'[i] == log[i];
    }
  }

  lemma EarlierReplies(a: Agent, events: seq<Event>, k: nat, i: nat)
    requires GoodEvents(a.model.connections.n, events) && i < k <= |events|
    ensures ReplyAt(a, events[..k], i) == ReplyAt(a, events, i)
  {
    assert events[..k][..i] == events[..i];
  }

  lemma GateStays(a: Agent, e: Event)
    requires GoodEvent(a.model.connections.n, e) && a.view.gate && Step(a, e).1 != Recovered
    ensures Step(a, e).0.view.gate && !Succeeds(Step(a, e).1)
  {
    StepKeeps(a, e);
    GatedNeverUpdates(a, e);
  }

  /** Only a successful recovery lifts the gate; while it is closed no cache status READY is ever
      reported, whatever reconciliation observes. */
  lemma {:induction false} GateLiftedOnlyByRecovery(c: Config, initial: ValidSet, policy: StartupPolicy, device: Device,
                                                    a: Agent, events: seq<Event>)
    requires Start(c, initial, policy, device) == Some(a) && a.view.gate
    requires GoodEvents(initial.n, events)
    requires forall i | 0 <= i < |events| :: ReplyAt(a, events, i) != Recovered
    ensures After(a, events).view.gate && After(a, events).view.cache != DeviceWorker.READY
    ensures Successes(a, events) == 0
    decreases |events|
  {
    RunInvariants(c, initial, policy, device, a, events);
    if events != [] {
      var k := |events| - 1;
      forall i | 0 <= i < k ensures ReplyAt(a, events[..k], i) != Recovered { EarlierReplies(a, events, k, i); }
      GateLiftedOnlyByRecovery(c, initial, policy, device, a, events[..k]);
      assert ReplyAt(a, events, k) != Recovered;
      GateStays(After(a, events[..k]), events[k]);
    }
  }

  lemma GatedNeverUpdates(a: Agent, e: Event)
    requires GoodEvent(a.model.connections.n, e) && a.view.gate
    ensures Step(a, e).1 != Updated
  {
    match e
    case LeaseCall(_) =>
    case Write(edits, terms) => BatchAllOrNothing(a, edits, terms);
    case SetMode(mode, terms) => SetModeKeeps(a, mode, terms);
    case RecoverDevice(terms) => RecoverKeeps(a, terms);
    case ReconcileDevice =>
  }

  // ---------------------------------------------------------------- the lease

  /** The lease event that a call amounts to, if it gets that far. */
  function LeaseEvents(a: Agent, e: Event): seq<Lease.Event>
    requires GoodEvent(a.model.connections.n, e)
  {
    match e
    case LeaseCall(call) => [call]
    case Write(edits, terms) =>
      if Target(a.model.connections, edits).Success? && 0 <= terms.delay <= MAX_DELAY_US then [TokenCheck(terms)]
      else []
    case SetMode(mode, terms) =>
      if mode.Some? && 0 <= terms.delay <= MAX_DELAY_US then [TokenCheck(terms)] else []
    case RecoverDevice(terms) => [TokenCheck(terms)]
    case ReconcileDevice => []
  }

  function TokenCheck(terms: Terms): Lease.Event {
    Lease.Event(Lease.Check(terms.token), terms.now, terms.now)
  }

  function LeaseHistory(a: Agent, events: seq<Event>): seq<Lease.Event>
    requires GoodEvents(a.model.connections.n, events)
  {
    if events == [] then []
    else
      var init := events[..|events| - 1];
      LeaseHistory(a, init) + LeaseEvents(After(a, init), events[|events| - 1])
  }

  lemma LeaseOfStep(a: Agent, e: Event)
    requires GoodEvent(a.model.connections.n, e)
    ensures var a' := Step(a, e).0;
            && a'.config == a.config
            && (LeaseEvents(a, e) == [] ==> a'.control.lease == a.control.lease)
            && (LeaseEvents(a, e) != [] ==>
                  |LeaseEvents(a, e)| == 1
                  && a'.control.lease == Lease.Step(a.config.leaseSeconds, a.control.lease, LeaseEvents(a, e)[0]).0)
  {
  }

  lemma LeaseStepRefines(a: Agent, e: Event, history: seq<Lease.Event>)
    requires GoodEvent(a.model.connections.n, e)
    requires a.control.lease == Lease.After(a.config.leaseSeconds, history)
    ensures var a' := Step(a, e).0;
            && a'.config == a.config
            && a'.control.lease == Lease.After(a.config.leaseSeconds, history + LeaseEvents(a, e))
  {
    LeaseOfStep(a, e);
    var more := LeaseEvents(a, e);
    if more == [] {
      assert history + more == history;
    } else {
      assert (history + more)[..|history|] == history && (history + more)[|history|] == more[0];
    }
  }

  /** The lease of an agent is the lease of module Lease after the agent's lease events, so the
      fencing and expiry theorems there are theorems about every run of the agent. */
  lemma {:induction false} LeaseRefines(c: Config, initial: ValidSet, policy: StartupPolicy, device: Device, a: Agent,
                                        events: seq<Event>)
    requires Start(c, initial, policy, device) == Some(a)
    requires GoodEvents(initial.n, events)
    ensures After(a, events).control.lease == Lease.After(c.leaseSeconds, LeaseHistory(a, events))
    ensures After(a, events).config == c
    decreases |events|
  {
    if events != [] {
      var k := |events| - 1;
      LeaseRefines(c, initial, policy, device, a, events[..k]);
      LeaseStepRefines(After(a, events[..k]), events[k], LeaseHistory(a, events[..k]));
    }
  }

  /** A change is made only by the holder of the latest granted lease. */
  lemma OnlyTheHolderChanges(c: Config, initial: ValidSet, policy: StartupPolicy, device: Device, a: Agent,
                             events: seq<Event>, i: nat)
    requires Start(c, initial, policy, device) == Some(a)
    requires GoodEvents(initial.n, events) && i < |events|
    requires Succeeds(ReplyAt(a, events, i))
    ensures !events[i].LeaseCall? && !events[i].ReconcileDevice?
    ensures events[i].terms.token == Lease.LastGranted(c.leaseSeconds, LeaseHistory(a, events[..i])) != ""
  {
    var before := After(a, events[..i]);
    StepKeeps(before, events[i]);
    LeaseRefines(c, initial, policy, device, a, events[..i]);
    var terms := events[i].terms;
    var history, check := LeaseHistory(a, events[..i]), TokenCheck(terms);
    SuccessNeedsLease(before, events[i]);
    assert (history + [check])[..|history|] == history;
    Lease.OnlyTheLatestIsLive(c.leaseSeconds, history + [check], |history|);
  }

  lemma SuccessNeedsLease(a: Agent, e: Event)
    requires GoodEvent(a.model.connections.n, e) && (e.Write? || e.SetMode? || e.RecoverDevice?)
    requires Succeeds(Step(a, e).1)
    ensures Lease.Step(a.config.leaseSeconds, a.control.lease, TokenCheck(e.terms)).1 == Lease.Accepted
  {
    match e
    case Write(edits, terms) => BatchAllOrNothing(a, edits, terms);
    case SetMode(mode, terms) => SetModeKeeps(a, mode, terms);
    case RecoverDevice(terms) => RecoverKeeps(a, terms);
  }
}
