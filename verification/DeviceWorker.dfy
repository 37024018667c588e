/**
The Device Worker: a cache of the device table with a generation counter and a status, a
compare-and-swap on (generation, entries) in front of every transition, and the reconcile and
recover calls that bring cache and table together again.
*/
module DeviceWorker {
  import opened DeviceTable
  import opened Transaction

  datatype CacheStatus = READY | DRIFTED | UNKNOWN

  datatype Worker = Worker(
    backend: Backend,
    strict: bool,              // consistency mode STRICT_DEVICE
    device: Device,
    entries: set<Pair>,
    generation: nat,
    cache: CacheStatus,
    drifts: nat)

  datatype Code = NoCode | FAILED_PRECONDITION | ABORTED | INTERNAL

  /** An answer, or the RPC error that an exception outside the handler's own guard becomes. */
  datatype Reply =
    | Reply(success: bool, restored: bool, code: Code, observed: set<Pair>, generation: nat, cache: CacheStatus)
    | RpcError

  datatype Call =
    | ReadEntries
    | ApplyTransition(expected: set<Pair>, target: set<Pair>, strategy: Strategy, transport: Transport, delay: int,
                      generation: nat)
    | Reconcile(desired: set<Pair>)
    | Recover(desired: set<Pair>, strategy: Strategy, transport: Transport, delay: int)

  function Answer(w: Worker, success: bool, restored: bool, code: Code, observed: set<Pair>): Reply {
    Reply(success, restored, code, observed, w.generation, w.cache)
  }

  function MarkDrift(w: Worker): Worker {
    w.(drifts := if w.cache != DRIFTED then w.drifts + 1 else w.drifts, cache := DRIFTED)
  }

  function MarkUnknown(w: Worker): Worker {
    w.(cache := UNKNOWN)
  }

  /** The cache after a successful transition to `target`. */
  function Accept(w: Worker, target: set<Pair>): Worker {
    w.(entries := target, generation := w.generation + 1, cache := READY)
  }

  /** The worker's books after a transition of its cached entries to `target`. */
  function Conclude(w: Worker, outcome: Outcome, target: set<Pair>): (Worker, Reply) {
    match outcome
    case Returned(_) =>
      var w1 := Accept(w, target);
      (w1, Answer(w1, true, true, NoCode, w1.entries))
    case RolledBack =>
      var w1 := w.(cache := READY);
      (w1, Answer(w1, false, true, ABORTED, w1.entries))
    case _ =>
      var w1 := MarkUnknown(w);
      (w1, Answer(w1, false, false, INTERNAL, w1.entries))
  }

  function Transition(w: Worker, call: Call): (Worker, Reply)
    requires call.ApplyTransition?
  {
    var (d, outcome) := Apply(w.backend, w.device, w.entries, call.target, call.strategy, call.delay, call.transport);
    Conclude(w.(device := d), outcome, call.target)
  }

  function ApplyStep(w: Worker, call: Call): (Worker, Reply)
    requires call.ApplyTransition?
  {
    if w.cache != READY then (w, Answer(w, false, false, FAILED_PRECONDITION, w.entries))
    else if call.generation != w.generation || call.expected != w.entries then
      (w, Answer(w, false, true, FAILED_PRECONDITION, w.entries))
    else if w.strict then
      var (d, ok) := Send(w.device, Read, {});
      var w1 := w.(device := d);
      if !ok then (w1, RpcError)
      else if d.table != w.entries then
        var w2 := MarkDrift(w1);
        (w2, Answer(w2, false, false, FAILED_PRECONDITION, d.table))
      else Transition(w1, call)
    else Transition(w, call)
  }

  function ReconcileStep(w: Worker, desired: set<Pair>): (Worker, Reply) {
    var (d, ok) := Send(w.device, Read, {});
    var w1 := w.(device := d);
    if !ok then (w1, RpcError)
    else
      var w2 := if d.table == w.entries && desired == w.entries then w1.(cache := READY) else MarkDrift(w1);
      (w2, Answer(w2, true, true, NoCode, d.table))
  }

  /** The second read of a recovery, after its transition returned. */
  function Confirm(w: Worker, desired: set<Pair>): (Worker, Reply) {
    var (d, same) := Verify(w.device, desired);
    var w1 := w.(device := d);
    var w2 := if same then Accept(w1, desired) else MarkUnknown(w1);
    (w2, if same then Answer(w2, true, true, NoCode, w2.entries) else Answer(w2, false, false, INTERNAL, w2.entries))
  }

  /** The worker's books after the transition of a recovery. */
  function ConcludeRecovery(w: Worker, outcome: Outcome, desired: set<Pair>): (Worker, Reply) {
    match outcome
    case Returned(_) => Confirm(w, desired)
    case RolledBack =>
      var w1 := MarkDrift(w);
      (w1, Answer(w1, false, true, ABORTED, w1.entries))
    case _ =>
      var w1 := MarkUnknown(w);
      (w1, Answer(w1, false, false, INTERNAL, w1.entries))
  }

  /** A recovery after its first read. */
  function RecoverFrom(w: Worker, desired: set<Pair>, strategy: Strategy, transport: Transport, delay: int)
    : (Worker, Reply)
  {
    var (d, outcome) := Apply(w.backend, w.device, w.device.table, desired, strategy, delay, transport);
    ConcludeRecovery(w.(device := d), outcome, desired)
  }

  function RecoverStep(w: Worker, desired: set<Pair>, strategy: Strategy, transport: Transport, delay: int)
    : (Worker, Reply)
  {
    var (d, read) := Send(w.device, Read, {});
    var w1 := w.(device := d);
    if read then RecoverFrom(w1, desired, strategy, transport, delay)
    else
      var w2 := MarkUnknown(w1);
      (w2, Answer(w2, false, false, INTERNAL, w2.entries))
  }

  function Step(w: Worker, call: Call): (Worker, Reply) {
    match call
    case ReadEntries => (w, Answer(w, true, true, NoCode, w.entries))
    case ApplyTransition(_, _, _, _, _, _) => ApplyStep(w, call)
    case Reconcile(desired) => ReconcileStep(w, desired)
    case Recover(desired, strategy, transport, delay) => RecoverStep(w, desired, strategy, transport, delay)
  }

  /** READY is a promise about the table. */
  predicate Truthful(w: Worker) {
    w.cache == READY ==> w.entries == w.device.table
  }

  /** What one call does to a truthful worker, whatever the device does meanwhile. */
  lemma StepKeeps(w: Worker, call: Call)
    ensures var (w', reply) := Step(w, call);
            && (Truthful(w) ==> Truthful(w'))
            && w'.backend == w.backend && w'.strict == w.strict
            && (reply.Reply? ==> reply.generation == w'.generation && reply.cache == w'.cache)
            && w.generation <= w'.generation <= w.generation + 1
            && (w'.generation == w.generation ==> w'.entries == w.entries)
            && (w'.generation == w.generation + 1
                <==> reply.Reply? && reply.success && (call.ApplyTransition? || call.Recover?))
            && w'.drifts == w.drifts + if w.cache != DRIFTED && w'.cache == DRIFTED then 1 else 0
  {
    match call
    case ReadEntries =>
    case ApplyTransition(_, _, _, _, _, _) => ApplyKeeps(w, call);
    case Reconcile(desired) =>
    case Recover(desired, strategy, transport, delay) =>
      var (d, read) := Send(w.device, Read, {});
      if read {
        ApplyOutcome(w.backend, d, d.table, desired, strategy, delay, transport);
        var (d1, outcome) := Apply(w.backend, d, d.table, desired, strategy, delay, transport);
        if outcome.Returned? { VerifyOutcome(d1, desired, {}, {}); }
      }
  }

  lemma ApplyKeeps(w: Worker, call: Call)
    requires call.ApplyTransition?
    ensures var (w', reply) := ApplyStep(w, call);
            && (Truthful(w) ==> Truthful(w'))
            && w'.backend == w.backend && w'.strict == w.strict
            && (reply.Reply? ==> reply.generation == w'.generation && reply.cache == w'.cache)
            && w.generation <= w'.generation <= w.generation + 1
            && (w'.generation == w.generation ==> w'.entries == w.entries)
            && (w'.generation == w.generation + 1 <==> reply.Reply? && reply.success)
            && w'.drifts == w.drifts + if w.cache != DRIFTED && w'.cache == DRIFTED then 1 else 0
  {
    if w.cache == READY && call.generation == w.generation && call.expected == w.entries {
      var w1 := if w.strict then w.(device := Send(w.device, Read, {}).0) else w;
      assert w1.device.table == w.device.table;
      ApplyOutcome(w1.backend, w1.device, w1.entries, call.target, call.strategy, call.delay, call.transport);
    }
  }

  /** The compare-and-swap: a transition succeeds only for the current generation and entries,
      and then the new entries are its target; an ABORTED one leaves its expected entries. */
  lemma CompareAndSwap(w: Worker, call: Call)
    requires call.ApplyTransition?
    ensures var (w', reply) := Step(w, call);
            && (reply.Reply? && reply.success ==>
                  call.generation == w.generation && call.expected == w.entries && w.cache == READY
                  && w'.entries == call.target == reply.observed && w'.cache == READY)
            && (reply.Reply? && reply.code == ABORTED ==>
                  call.generation == w.generation && w'.entries == call.expected == reply.observed && w'.cache == READY)
            && (reply.Reply? && reply.cache == READY ==> reply.observed == w'.entries)
            && (call.generation != w.generation || call.expected != w.entries || w.cache != READY ==>
                  w' == w && reply.Reply? && reply.code == FAILED_PRECONDITION)
  {
  }

  /** What a caller may conclude from a reply alone, as long as the generation has not moved on:
      a READY reply shows the cached entries, a success shows the entries asked for, and a failed
      transition that restored shows the entries expected. */
  predicate ReplyMeans(w: Worker, call: Call, r: Reply) {
    r.Reply? ==>
      && (r.generation == w.generation && r.cache == READY ==> r.observed == w.entries)
      && (r.success && call.ApplyTransition? ==> r.cache == READY && r.observed == call.target)
      && (r.success && call.Recover? ==> r.cache == READY && r.observed == call.desired)
      && (!r.success && r.restored && r.code != FAILED_PRECONDITION ==> r.code == ABORTED)
      && (r.code == ABORTED && call.ApplyTransition? ==> r.cache == READY && r.observed == call.expected)
      && (r.code == ABORTED && call.Recover? ==> r.cache != READY)
  }

  lemma ReplyTells(w: Worker, call: Call)
    ensures var (w', reply) := Step(w, call); ReplyMeans(w', call, reply)
  {
    match call
    case ReadEntries =>
    case ApplyTransition(_, _, _, _, _, _) => ApplyTells(w, call);
    case Reconcile(desired) =>
    case Recover(desired, strategy, transport, delay) => RecoverTells(w, call);
  }

  lemma ApplyTells(w: Worker, call: Call)
    requires call.ApplyTransition?
    ensures var (w', reply) := ApplyStep(w, call); ReplyMeans(w', call, reply)
  {
    if w.entries == call.expected && ApplyStep(w, call) == Transition(w, call) {
      TransitionTells(w, call);
    } else if w.entries == call.expected && w.strict {
      PrecheckedTells(w, call, DeviceTable.Send(w.device, Read, {}).0);
    }
  }

  lemma PrecheckedTells(w: Worker, call: Call, d: Device)
    requires call.ApplyTransition? && w.strict && w.entries == call.expected
    requires d == DeviceTable.Send(w.device, Read, {}).0
    ensures var (w', reply) := ApplyStep(w, call); ReplyMeans(w', call, reply)
  {
    var w1 := w.(device := d);
    TransitionTells(w1, call);
    assert ApplyStep(w, call) == Transition(w1, call) || !ApplyStep(w, call).1.Reply?
           || ApplyStep(w, call).1.code == FAILED_PRECONDITION;
  }

  lemma TransitionTells(w: Worker, call: Call)
    requires call.ApplyTransition? && w.entries == call.expected
    ensures var (w', reply) := Transition(w, call); ReplyMeans(w', call, reply)
  {
  }

  lemma RecoverTells(w: Worker, call: Call)
    requires call.Recover?
    ensures var (w', reply) := RecoverStep(w, call.desired, call.strategy, call.transport, call.delay);
            ReplyMeans(w', call, reply)
  {
    var (d, read) := DeviceTable.Send(w.device, Read, {});
    if read {
      var (d1, outcome) := Apply(w.backend, d, d.table, call.desired, call.strategy, call.delay, call.transport);
      ConcludedTells(w.(device := d1), outcome, call);
    }
  }

  lemma ConcludedTells(w: Worker, outcome: Outcome, call: Call)
    requires call.Recover?
    ensures var (w', reply) := ConcludeRecovery(w, outcome, call.desired); ReplyMeans(w', call, reply)
  {
  }

  lemma UndisturbedTransition(w: Worker, call: Call)
    requires call.ApplyTransition? && w.device.table == w.entries
    requires Accepted(w.backend, call.strategy, call.delay, call.transport) && (call.delay == 0 || w.backend.sleeps)
    ensures var (w', reply) := Transition(w, call);
            && Failures(w.device.log) <= Failures(w'.device.log)
            && (Failures(w'.device.log) == Failures(w.device.log) ==>
                  reply == Reply(true, true, NoCode, call.target, w.generation + 1, READY))
  {
    ReturnsIffUndisturbed(w.backend, w.device, w.entries, call.target, call.strategy, call.delay, call.transport);
  }

  /** A transition that a truthful worker's preconditions let through succeeds unless a request
      to the device fails or the adapter cannot take the pause. */
  lemma UndisturbedSwap(w: Worker, call: Call)
    requires call.ApplyTransition? && Truthful(w) && w.cache == READY
    requires call.generation == w.generation && call.expected == w.entries
    requires Accepted(w.backend, call.strategy, call.delay, call.transport) && (call.delay == 0 || w.backend.sleeps)
    ensures var (w', reply) := Step(w, call);
            && Failures(w.device.log) <= Failures(w'.device.log)
            && (Failures(w'.device.log) == Failures(w.device.log) ==>
                  reply == Reply(true, true, NoCode, call.target, w.generation + 1, READY))
  {
    if w.strict {
      SendFailures(w.device, Read, {});
      UndisturbedTransition(w.(device := DeviceTable.Send(w.device, Read, {}).0), call);
    } else {
      UndisturbedTransition(w, call);
    }
  }

  /** Whatever a reply showed stays shown until the generation moves on. */
  lemma ReplyStays(w: Worker, w': Worker, call: Call, r: Reply)
    requires ReplyMeans(w, call, r) && (r.Reply? ==> r.generation <= w.generation)
    requires w.generation <= w'.generation && (w'.generation == w.generation ==> w'.entries == w.entries)
    ensures ReplyMeans(w', call, r)
  {
  }

  /** A recovery's first read works and the transition from what it reads is accepted, but the
      update fails and its rollback succeeds. */
  predicate RecoveryRollsBack(w: Worker, call: Call)
    requires call.Recover?
  {
    var d := DeviceTable.Send(w.device, Read, {}).0;
    && FaultAt(w.device.script, |w.device.log|).works
    && Accepted(w.backend, call.strategy, call.delay, call.transport)
    && var (d1, updated, _) := Update(w.backend, d, d.table, call.desired, call.strategy, call.delay, call.transport);
       !updated && Restore(w.backend, d1, d.table).1
  }

  /** When a recovery answers that it failed and restored what it had found, told from the worker
      before the call; the cache status is DRIFTED then. */
  lemma RestoredRecoveryIff(w: Worker, call: Call)
    requires call.Recover?
    ensures var (w', reply) := Step(w, call);
            && (reply.Reply? && !reply.success && reply.restored <==> RecoveryRollsBack(w, call))
            && (RecoveryRollsBack(w, call) ==> reply.code == ABORTED && reply.cache == w'.cache == DRIFTED)
  {
    var d := DeviceTable.Send(w.device, Read, {}).0;
    var outcome := Apply(w.backend, d, d.table, call.desired, call.strategy, call.delay, call.transport).1;
    assert outcome.Rejected? || outcome.Returned? || outcome.RolledBack? || outcome.RollbackFailed?;
  }

  lemma SwapKeepsTruth(w: Worker, call: Call)
    requires call.ApplyTransition? && Truthful(w)
    ensures var (w', reply) := Step(w, call);
            reply.Reply? && reply.success ==>
              w'.cache == READY && w'.generation == reply.generation && w'.device.table == call.target
  {
    ApplyKeeps(w, call);
    CompareAndSwap(w, call);
  }

  // ---------------------------------------------------------------- whole runs

  /** The worker after a sequence of calls; each call is carried out under the service lock. */
  function After(w: Worker, calls: seq<Call>): Worker {
    if calls == [] then w
    else Step(After(w, calls[..|calls| - 1]), calls[|calls| - 1]).0
  }

  function ReplyAt(w: Worker, calls: seq<Call>, i: nat): Reply
    requires i < |calls|
  {
    Step(After(w, calls[..i]), calls[i]).1
  }

  predicate Changes(call: Call, reply: Reply) {
    reply.Reply? && reply.success && (call.ApplyTransition? || call.Recover?)
  }

  function SuccessfulChanges(w: Worker, calls: seq<Call>): nat {
    if calls == [] then 0
    else
      SuccessfulChanges(w, calls[..|calls| - 1])
      + if Changes(calls[|calls| - 1], ReplyAt(w, calls, |calls| - 1)) then 1 else 0
  }

  /** How often the cache status went to DRIFTED from something else. */
  function EntriesIntoDrift(w: Worker, calls: seq<Call>): nat {
    if calls == [] then 0
    else
      var init := calls[..|calls| - 1];
      EntriesIntoDrift(w, init)
      + if After(w, init).cache != DRIFTED && After(w, calls).cache == DRIFTED then 1 else 0
  }

  /** A worker as its constructor leaves it. */
  predicate Fresh(w: Worker) {
    w.entries == w.device.table && w.generation == 1 && w.cache == READY && w.drifts == 0
  }

  /** Every run of a worker whose device nobody else edits: READY means that the cache is the
      table, the generation counts the successful applies and recoveries, and the drift counter
      counts the entries into DRIFTED. */
  lemma {:induction false} RunInvariants(w: Worker, calls: seq<Call>)
    requires Fresh(w)
    ensures var w' := After(w, calls);
            && Truthful(w')
            && w'.generation == 1 + SuccessfulChanges(w, calls)
            && w'.drifts == EntriesIntoDrift(w, calls)
    decreases |calls|
  {
    if calls != [] {
      var init := calls[..|calls| - 1];
      RunInvariants(w, init);
      StepKeeps(After(w, init), calls[|calls| - 1]);
    }
  }

  lemma {:induction false} GenerationGrows(w: Worker, calls: seq<Call>, i: nat, j: nat)
    requires i <= j <= |calls|
    ensures After(w, calls[..i]).generation <= After(w, calls[..j]).generation
    decreases j
  {
    if i < j {
      GenerationGrows(w, calls, i, j - 1);
      assert calls[..j][..j - 1] == calls[..j - 1];
      StepKeeps(After(w, calls[..j - 1]), calls[j - 1]);
    }
  }

  /** At most one ApplyTransition succeeds per expected generation: of two successful ones, the
      later expected a larger generation. */
  lemma GenerationUsedOnce(w: Worker, calls: seq<Call>, i: nat, j: nat)
    requires i < j < |calls| && calls[i].ApplyTransition? && calls[j].ApplyTransition?
    requires Changes(calls[i], ReplyAt(w, calls, i)) && Changes(calls[j], ReplyAt(w, calls, j))
    ensures calls[i].generation < calls[j].generation
  {
    CompareAndSwap(After(w, calls[..i]), calls[i]);
    CompareAndSwap(After(w, calls[..j]), calls[j]);
    StepKeeps(After(w, calls[..i]), calls[i]);
    assert calls[..i + 1][..i] == calls[..i];
    GenerationGrows(w, calls, i + 1, j);
  }
}
