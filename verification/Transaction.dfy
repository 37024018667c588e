/**
The table transition that both device adapters run: plan, delete, pause, insert, read back, and
on any failure restore the previous table by difference and read it back again.
*/
module Transaction {
  import opened DeviceTable

  datatype Strategy = FULL | DELTA | OtherStrategy
  datatype Transport = SEQUENTIAL | NATIVE_BATCH | OtherTransport

  const MAX_DELAY_US := 1_000_000

  /** Where the two adapters differ: whether the pause between the phases can be taken at all,
      whether a successful write is read back, whether the rollback is written in batches, and
      whether native batches are offered. */
  datatype Backend = Backend(sleeps: bool, readback: bool, batchRestore: bool, nativeBatch: bool)

  /** The P4Runtime adapter calls time.sleep without importing time, so its pause always fails. */
  function P4App(nativeBatch: bool): Backend {
    Backend(false, true, false, nativeBatch)
  }

  function BFRT(acknowledgedOnly: bool): Backend {
    Backend(true, !acknowledgedOnly, true, true)
  }

  datatype Rejection = BadDelay | BadStrategy | BadTransport

  datatype Timing = Timing(deletes: nat, inserts: nat, kept: nat, requests: nat, active: nat)

  datatype Outcome =
    | Rejected(reason: Rejection)
    | Returned(timing: Timing)
    | RolledBack
    | RollbackFailed

  function Removed(strategy: Strategy, previous: set<Pair>, target: set<Pair>): set<Pair> {
    if strategy == FULL then previous else previous - target
  }

  function Added(strategy: Strategy, previous: set<Pair>, target: set<Pair>): set<Pair> {
    if strategy == FULL then target else target - previous
  }

  function Kept(strategy: Strategy, previous: set<Pair>, target: set<Pair>): set<Pair> {
    if strategy == FULL then {} else previous * target
  }

  /** Device, success, and the number of write requests counted on success. */
  function WritePairs(d: Device, op: Operation, pairs: set<Pair>, transport: Transport): (Device, bool, nat) {
    if transport == NATIVE_BATCH then
      if pairs == {} then (d, true, 0)
      else
        var (d1, ok) := Send(d, op, pairs);
        (d1, ok, 1)
    else
      var (d1, ok) := SendAll(d, op, Sorted(pairs));
      (d1, ok, |Sorted(pairs)|)
  }

  /** Read the table back and compare. */
  function Verify(d: Device, expected: set<Pair>): (Device, bool) {
    var (d1, ok) := Send(d, Read, {});
    (d1, ok && d1.table == expected)
  }

  /** Insert, then read back if the adapter does so. */
  function Install(readback: bool, d: Device, added: set<Pair>, expected: set<Pair>, transport: Transport)
    : (Device, bool, nat)
  {
    var (d1, ok, n) := WritePairs(d, Insert, added, transport);
    if ok && readback then
      var (d2, same) := Verify(d1, expected);
      (d2, same, n)
    else (d1, ok, n)
  }

  /** The two phases of an update, given what is to go and what is to come. */
  function RunPlan(pauses: bool, readback: bool, d: Device, removed: set<Pair>, added: set<Pair>, target: set<Pair>,
                   transport: Transport): (Device, bool, nat)
  {
    var (d1, ok, n) := WritePairs(d, Delete, removed, transport);
    if !ok || !pauses then (d1, false, n)
    else
      var (d2, done, m) := Install(readback, d1, added, target, transport);
      (d2, done, n + m)
  }

  function Update(b: Backend, d: Device, previous: set<Pair>, target: set<Pair>,
                  strategy: Strategy, delay: int, transport: Transport): (Device, bool, nat)
  {
    RunPlan(delay <= 0 || b.sleeps, b.readback, d, Removed(strategy, previous, target),
            Added(strategy, previous, target), target, transport)
  }

  /** The rollback after its first read. */
  function RestoreFrom(d: Device, previous: set<Pair>, transport: Transport): (Device, bool) {
    var (d1, ok, _) := WritePairs(d, Delete, d.table - previous, transport);
    if !ok then (d1, false)
    else
      var (d2, done, _) := Install(true, d1, previous - d.table, previous, transport);
      (d2, done)
  }

  function RestoreTransport(b: Backend): Transport {
    if b.batchRestore then NATIVE_BATCH else SEQUENTIAL
  }

  function Restore(b: Backend, d: Device, previous: set<Pair>): (Device, bool) {
    var (d1, ok) := Send(d, Read, {});
    if ok then RestoreFrom(d1, previous, RestoreTransport(b)) else (d1, false)
  }

  predicate Accepted(b: Backend, strategy: Strategy, delay: int, transport: Transport) {
    && 0 <= delay <= MAX_DELAY_US
    && (strategy == FULL || strategy == DELTA)
    && (transport == SEQUENTIAL || (transport == NATIVE_BATCH && b.nativeBatch))
  }

  function Apply(b: Backend, d: Device, previous: set<Pair>, target: set<Pair>,
                 strategy: Strategy, delay: int, transport: Transport): (Device, Outcome)
  {
    if !(0 <= delay <= MAX_DELAY_US) then (d, Rejected(BadDelay))
    else if strategy != FULL && strategy != DELTA then (d, Rejected(BadStrategy))
    else if !Accepted(b, strategy, delay, transport) then (d, Rejected(BadTransport))
    else
      var (d1, ok, requests) := Update(b, d, previous, target, strategy, delay, transport);
      if ok then
        (d1, Returned(Timing(|Removed(strategy, previous, target)|, |Added(strategy, previous, target)|,
                             |Kept(strategy, previous, target)|, requests, |target|)))
      else
        var (d2, restored) := Restore(b, d1, previous);
        (d2, if restored then RolledBack else RollbackFailed)
  }

  // ---------------------------------------------------------------- single phases

  lemma WritePairsOutcome(d: Device, op: Operation, pairs: set<Pair>, transport: Transport)
    requires op != Read
    ensures var (d', ok, n) := WritePairs(d, op, pairs, transport);
            && WriteOutcome(d, d', ok, op, pairs)
            && (ok ==> |d'.log| == |d.log| + n)
            && n == RequestCount(pairs, transport)
  {
    SortedLists(pairs);
    if transport == NATIVE_BATCH {
      if pairs != {} { SendOutcome(d, op, pairs); }
    } else {
      SendAllOutcome(d, op, Sorted(pairs));
    }
  }

  lemma WritePairsRecorded(d: Device, op: Operation, pairs: set<Pair>, transport: Transport)
    requires op != Read
    ensures Recorded(d, WritePairs(d, op, pairs, transport).0, op, pairs)
  {
    SortedLists(pairs);
    if transport == NATIVE_BATCH {
      if pairs != {} { SendOutcome(d, op, pairs); }
    } else {
      SendAllRecorded(d, op, Sorted(pairs));
    }
  }

  function RequestCount(pairs: set<Pair>, transport: Transport): nat {
    if transport != NATIVE_BATCH then |pairs| else if pairs == {} then 0 else 1
  }

  lemma WritePairsSmooth(d: Device, op: Operation, pairs: set<Pair>, transport: Transport)
    requires op != Read
    requires Applicable(d.table, op, pairs) == pairs
    requires forall k | |d.log| <= k < |d.log| + RequestCount(pairs, transport) :: FaultAt(d.script, k).works
    ensures WritePairs(d, op, pairs, transport).1
  {
    SortedLists(pairs);
    if transport != NATIVE_BATCH { SendAllSmooth(d, op, Sorted(pairs)); }
  }

  /** The log of one phase, told apart from what came before it. */
  lemma PhaseConfined(d: Device, d': Device, op: Operation, pairs: set<Pair>, a: set<Pair>, b: set<Pair>)
    requires op != Read && Recorded(d, d', op, pairs)
    requires op == Delete ==> d.table <= a || d.table <= b
    requires op == Insert ==> d.table + pairs <= a || d.table + pairs <= b
    ensures Confined(d'.log, |d.log|, a, b)
  {
  }

  lemma ReadConfined(d: Device, a: set<Pair>, b: set<Pair>)
    requires d.table <= a || d.table <= b
    ensures Confined(Send(d, Read, {}).0.log, |d.log|, a, b)
  {
  }

  lemma ConfinedJoins(log1: seq<Request>, log2: seq<Request>, from: nat, a: set<Pair>, b: set<Pair>)
    requires log1 <= log2 && from <= |log1|
    requires Confined(log1, from, a, b) && Confined(log2, |log1|, a, b)
    ensures Confined(log2, from, a, b)
  {
    forall k, table | from <= k < |log2| && Instant(log2[k], table)
      ensures table <= a || table <= b
    {
      if k < |log1| { assert Instant(log1[k], table); }
    }
  }

  // ---------------------------------------------------------------- the rollback

  lemma VerifyOutcome(d: Device, expected: set<Pair>, a: set<Pair>, b: set<Pair>)
    ensures var (d', ok) := Verify(d, expected);
            && d'.script == d.script && d.log <= d'.log && |d'.log| == |d.log| + 1 && d'.table == d.table
            && (ok ==> d.table == expected && Failures(d'.log) == Failures(d.log))
            && Failures(d.log) <= Failures(d'.log) <= Failures(d.log) + 1
            && (!ok && Failures(d'.log) == Failures(d.log) ==> d.table != expected)
            && (d.table <= a || d.table <= b ==> Confined(d'.log, |d.log|, a, b))
  {
    SendFailures(d, Read, {});
  }

  lemma InstallOutcome(readback: bool, d: Device, added: set<Pair>, expected: set<Pair>, transport: Transport)
    ensures var (d', ok, n) := Install(readback, d, added, expected, transport);
            && d'.script == d.script && |d.log| <= |d'.log|
            && (ok ==> d'.table == d.table + added && d.table !! added && (readback ==> d'.table == expected)
                       && Failures(d'.log) == Failures(d.log)
                       && |d'.log| == |d.log| + n + if readback then 1 else 0)
            && Failures(d.log) <= Failures(d'.log) <= Failures(d.log) + 1
            && (!ok && Failures(d'.log) == Failures(d.log) ==>
                  readback && d.table !! added && d.table + added != expected)
            && n == RequestCount(added, transport)
  {
    var (d1, ok, n) := WritePairs(d, Insert, added, transport);
    WritePairsOutcome(d, Insert, added, transport);
    VerifyOutcome(d1, expected, {}, {});
  }

  lemma InstallConfined(readback: bool, d: Device, added: set<Pair>, expected: set<Pair>, transport: Transport,
                        a: set<Pair>, b: set<Pair>)
    requires d.table + added <= a || d.table + added <= b
    ensures var d' := Install(readback, d, added, expected, transport).0;
            d.log <= d'.log && Confined(d'.log, |d.log|, a, b) && (d'.table <= a || d'.table <= b)
  {
    var (d1, ok, n) := WritePairs(d, Insert, added, transport);
    WritePairsOutcome(d, Insert, added, transport);
    WritePairsRecorded(d, Insert, added, transport);
    PhaseConfined(d, d1, Insert, added, a, b);
    if ok && readback {
      VerifyOutcome(d1, expected, a, b);
      ConfinedJoins(d1.log, Verify(d1, expected).0.log, |d.log|, a, b);
    }
  }

  /** A rollback that reports success has restored the table, wherever it started; one that
      reports failure met exactly one failing request. */
  lemma RestoreOutcome(b: Backend, d: Device, previous: set<Pair>)
    ensures var (d', ok) := Restore(b, d, previous);
            && d'.script == d.script && |d.log| <= |d'.log|
            && (ok ==> d'.table == previous)
            && Failures(d'.log) == Failures(d.log) + if ok then 0 else 1
  {
    SendFailures(d, Read, {});
    RestoreFromOutcome(Send(d, Read, {}).0, previous, RestoreTransport(b));
  }

  lemma RestoreFromOutcome(d: Device, previous: set<Pair>, transport: Transport)
    ensures var (d', ok) := RestoreFrom(d, previous, transport);
            && d'.script == d.script && |d.log| <= |d'.log|
            && (ok ==> d'.table == previous)
            && Failures(d'.log) == Failures(d.log) + if ok then 0 else 1
  {
    var (d1, ok, _) := WritePairs(d, Delete, d.table - previous, transport);
    WritePairsOutcome(d, Delete, d.table - previous, transport);
    if ok {
      assert d1.table + (previous - d.table) == previous;
      InstallOutcome(true, d1, previous - d.table, previous, transport);
    }
  }

  lemma RestoreConfined(b: Backend, d: Device, previous: set<Pair>, a: set<Pair>)
    requires d.table <= previous || d.table <= a
    ensures var d' := Restore(b, d, previous).0;
            d.log <= d'.log && Confined(d'.log, |d.log|, previous, a)
  {
    var (d1, ok) := Send(d, Read, {});
    ReadConfined(d, previous, a);
    if ok {
      RestoreFromConfined(d1, previous, RestoreTransport(b), a);
      ConfinedJoins(d1.log, RestoreFrom(d1, previous, RestoreTransport(b)).0.log, |d.log|, previous, a);
    }
  }

  lemma RestoreFromConfined(d: Device, previous: set<Pair>, transport: Transport, a: set<Pair>)
    requires d.table <= previous || d.table <= a
    ensures var d' := RestoreFrom(d, previous, transport).0;
            d.log <= d'.log && Confined(d'.log, |d.log|, previous, a)
  {
    var (d1, ok, _) := WritePairs(d, Delete, d.table - previous, transport);
    WritePairsOutcome(d, Delete, d.table - previous, transport);
    WritePairsRecorded(d, Delete, d.table - previous, transport);
    PhaseConfined(d, d1, Delete, d.table - previous, previous, a);
    if ok {
      InstallConfined(true, d1, previous - d.table, previous, transport, previous, a);
      ConfinedJoins(d1.log, Install(true, d1, previous - d.table, previous, transport).0.log, |d.log|, previous, a);
    }
  }

  // ---------------------------------------------------------------- the update phase

  /** An update can go wrong although no request failed: the pause cannot be taken, or the
      table read back is not the target because the table was not `previous` to begin with.
      All of it can be told from the arguments and the table before the call. */
  predicate Stumbles(b: Backend, table: set<Pair>, previous: set<Pair>, target: set<Pair>,
                     strategy: Strategy, delay: int)
  {
    && Removed(strategy, previous, target) <= table
    && (|| (delay > 0 && !b.sleeps)
        || (&& b.readback && table != previous
            && (table - Removed(strategy, previous, target)) !! Added(strategy, previous, target)))
  }

  lemma UpdateOutcome(b: Backend, d: Device, previous: set<Pair>, target: set<Pair>,
                      strategy: Strategy, delay: int, transport: Transport)
    requires strategy == FULL || strategy == DELTA
    ensures var (d', ok, n) := Update(b, d, previous, target, strategy, delay, transport);
            && d'.script == d.script && |d.log| <= |d'.log|
            && (ok && (b.readback || d.table == previous) ==> d'.table == target)
            && Failures(d.log) <= Failures(d'.log) <= Failures(d.log) + 1
            && (ok ==> Failures(d'.log) == Failures(d.log)
                       && |d'.log| == |d.log| + n + if b.readback then 1 else 0)
            && (!ok && Failures(d'.log) == Failures(d.log) ==> Stumbles(b, d.table, previous, target, strategy, delay))
            && (Stumbles(b, d.table, previous, target, strategy, delay) ==> !ok)
  {
    var removed, added := Removed(strategy, previous, target), Added(strategy, previous, target);
    var (d1, ok, _) := WritePairs(d, Delete, removed, transport);
    WritePairsOutcome(d, Delete, removed, transport);
    if ok && !(delay > 0 && !b.sleeps) {
      InstallOutcome(b.readback, d1, added, target, transport);
      if d1.table !! added { ReadbackMatches(d.table, previous, target, strategy); }
    }
  }

  /** When every planned write was applicable, the resulting table is the target exactly if the
      starting table was `previous`. */
  lemma ReadbackMatches(table: set<Pair>, previous: set<Pair>, target: set<Pair>, strategy: Strategy)
    requires strategy == FULL || strategy == DELTA
    requires Removed(strategy, previous, target) <= table
    requires (table - Removed(strategy, previous, target)) !! Added(strategy, previous, target)
    ensures (table - Removed(strategy, previous, target)) + Added(strategy, previous, target) == target
            <==> table == previous
  {
    var removed, added := Removed(strategy, previous, target), Added(strategy, previous, target);
    var kept := table - removed;
    if kept + added == target {
      forall p ensures p in table <==> p in previous {
        assert p in kept ==> p in target;
        assert p in table <==> p in kept || p in removed;
        if strategy == FULL {
          assert p in kept ==> p in added;
        } else {
          assert p in kept ==> p !in added;
          assert p in previous && p in target ==> p in kept + added;
        }
      }
    }
  }

  // ---------------------------------------------------------------- the whole transition

  /** What each reply says about the table, whatever failed and whatever the table was before:
      a rejected call wrote nothing, `restored` means the table is the previous set, and a
      normal return means that it is the target -- checked by reading it back, or, when writes
      are only acknowledged, known from the table having been `previous`. */
  lemma ApplyOutcome(b: Backend, d: Device, previous: set<Pair>, target: set<Pair>,
                     strategy: Strategy, delay: int, transport: Transport)
    ensures var (d', outcome) := Apply(b, d, previous, target, strategy, delay, transport);
            && d'.script == d.script && |d.log| <= |d'.log|
            && (outcome.Rejected? <==> !Accepted(b, strategy, delay, transport))
            && (outcome.Rejected? ==> d' == d)
            && (outcome.Returned? && (b.readback || d.table == previous) ==> d'.table == target)
            && (outcome.RolledBack? ==> d'.table == previous)
  {
    if Accepted(b, strategy, delay, transport) {
      UpdateOutcome(b, d, previous, target, strategy, delay, transport);
      var (d1, ok, _) := Update(b, d, previous, target, strategy, delay, transport);
      if !ok { RestoreOutcome(b, d1, previous); }
    }
  }

  /** Port exclusivity at every instant: from a table equal to the previous set, whatever
      fails and wherever the transition stops, the table is at all times part of the previous
      set or part of the target -- through the update and through the rollback, also while a
      batch is only partly written. */
  lemma NeverMixed(b: Backend, d: Device, previous: set<Pair>, target: set<Pair>,
                   strategy: Strategy, delay: int, transport: Transport)
    requires d.table == previous
    ensures Confined(Apply(b, d, previous, target, strategy, delay, transport).0.log, |d.log|, previous, target)
  {
    if Accepted(b, strategy, delay, transport) {
      var (d1, ok, _) := Update(b, d, previous, target, strategy, delay, transport);
      UpdateConfined(b, d, previous, target, strategy, delay, transport);
      if !ok {
        RestoreConfined(b, d1, previous, target);
        ConfinedJoins(d1.log, Restore(b, d1, previous).0.log, |d.log|, previous, target);
      }
    }
  }

  lemma UpdateConfined(b: Backend, d: Device, previous: set<Pair>, target: set<Pair>,
                       strategy: Strategy, delay: int, transport: Transport)
    requires d.table == previous && (strategy == FULL || strategy == DELTA)
    ensures var d' := Update(b, d, previous, target, strategy, delay, transport).0;
            && d.log <= d'.log && Confined(d'.log, |d.log|, previous, target)
            && (d'.table <= previous || d'.table <= target)
  {
    var removed, added := Removed(strategy, previous, target), Added(strategy, previous, target);
    var (d1, ok, _) := WritePairs(d, Delete, removed, transport);
    WritePairsOutcome(d, Delete, removed, transport);
    WritePairsRecorded(d, Delete, removed, transport);
    PhaseConfined(d, d1, Delete, removed, previous, target);
    if ok && !(delay > 0 && !b.sleeps) {
      assert d1.table + added <= target;
      InstallConfined(b.readback, d1, added, target, transport, previous, target);
      ConfinedJoins(d1.log, Install(b.readback, d1, added, target, transport).0.log, |d.log|, previous, target);
    }
  }

  // ---------------------------------------------------------------- one failing request

  /** Every run of this call in which at most one request fails ends at the target or back at the
      previous set, and says which. */
  ghost predicate SurvivesOneFailure(b: Backend, table: set<Pair>, previous: set<Pair>, target: set<Pair>,
                                     strategy: Strategy, delay: int, transport: Transport)
  {
    forall script ::
      var (d', outcome) := Apply(b, Device(table, script, []), previous, target, strategy, delay, transport);
      Failures(d'.log) <= 1 ==> EndsWell(d'.table, outcome, previous, target)
  }

  predicate EndsWell(table: set<Pair>, outcome: Outcome, previous: set<Pair>, target: set<Pair>) {
    (outcome.Returned? && table == target) || (outcome.RolledBack? && table == previous)
  }

  /** The planned deletions all apply, and then the pause cannot be taken, or the insertions all
      apply although the table was not `previous`.  With read-back that is a stumble; without, the
      call returns and the table is not the target. */
  predicate Slips(b: Backend, table: set<Pair>, previous: set<Pair>, target: set<Pair>,
                  strategy: Strategy, delay: int)
  {
    && Removed(strategy, previous, target) <= table
    && (|| (delay > 0 && !b.sleeps)
        || (table != previous
            && (table - Removed(strategy, previous, target)) !! Added(strategy, previous, target)))
  }

  /** The requests of an update that stumbles without any request failing. */
  function StumbleLength(b: Backend, previous: set<Pair>, target: set<Pair>, strategy: Strategy, delay: int,
                         transport: Transport): nat
  {
    RequestCount(Removed(strategy, previous, target), transport)
    + if delay > 0 && !b.sleeps then 0 else RequestCount(Added(strategy, previous, target), transport) + 1
  }

  /** The table that such an update leaves. */
  function StumbleTable(b: Backend, table: set<Pair>, previous: set<Pair>, target: set<Pair>, strategy: Strategy,
                        delay: int): set<Pair>
  {
    (table - Removed(strategy, previous, target))
    + if delay > 0 && !b.sleeps then {} else Added(strategy, previous, target)
  }

  /** An insert phase whose own requests work but whose result differs from what is expected. */
  lemma InstallSmoothly(b: Backend, d: Device, added: set<Pair>, expected: set<Pair>, transport: Transport)
    requires b.readback && d.table !! added && d.table + added != expected
    requires forall k | |d.log| <= k < |d.log| + RequestCount(added, transport) + 1 :: FaultAt(d.script, k).works
    ensures var (d', ok, _) := Install(b.readback, d, added, expected, transport);
            && !ok && d'.script == d.script && Failures(d'.log) == Failures(d.log)
            && |d'.log| == |d.log| + RequestCount(added, transport) + 1
            && d'.table == d.table + added
  {
    WritePairsSmooth(d, Insert, added, transport);
    WritePairsOutcome(d, Insert, added, transport);
    var (d1, _, _) := WritePairs(d, Insert, added, transport);
    SendFailures(d1, Read, {});
  }

  /** While its own requests work, an update that stumbles gets to the rollback with no failing
      request behind it. */
  lemma StumblesSmoothly(b: Backend, d: Device, previous: set<Pair>, target: set<Pair>,
                         strategy: Strategy, delay: int, transport: Transport)
    requires strategy == FULL || strategy == DELTA
    requires Stumbles(b, d.table, previous, target, strategy, delay)
    requires forall k | |d.log| <= k < |d.log| + StumbleLength(b, previous, target, strategy, delay, transport) ::
               FaultAt(d.script, k).works
    ensures var (d', ok, _) := Update(b, d, previous, target, strategy, delay, transport);
            && !ok && d'.script == d.script && Failures(d'.log) == Failures(d.log)
            && |d'.log| == |d.log| + StumbleLength(b, previous, target, strategy, delay, transport)
            && d'.table == StumbleTable(b, d.table, previous, target, strategy, delay)
  {
    var removed, added := Removed(strategy, previous, target), Added(strategy, previous, target);
    WritePairsSmooth(d, Delete, removed, transport);
    WritePairsOutcome(d, Delete, removed, transport);
    var (d1, _, _) := WritePairs(d, Delete, removed, transport);
    if !(delay > 0 && !b.sleeps) {
      ReadbackMatches(d.table, previous, target, strategy);
      assert forall k | |d1.log| <= k < |d1.log| + RequestCount(added, transport) + 1 :: FaultAt(d1.script, k).works;
      InstallSmoothly(b, d1, added, target, transport);
    }
  }

  lemma {:induction false} Smaller<T>(a: set<T>, b: set<T>)
    requires a <= b
    ensures |a| <= |b|
    decreases |a|
  {
    if a != {} {
      var x :| x in a;
      Smaller(a - {x}, b - {x});
    }
  }

  /** The script in which exactly the request at one position fails. */
  function OnlyFails(position: nat): (script: seq<Fault>)
    ensures forall k: nat :: FaultAt(script, k).works <==> k != position
  {
    seq(position, _ => Fault(true, {})) + [Fault(false, {})]
  }

  /** The single failing request that leaves the table neither at the target nor restored: the
      read with which the rollback begins. */
  lemma StumblesThenFails(b: Backend, table: set<Pair>, previous: set<Pair>, target: set<Pair>,
                          strategy: Strategy, delay: int, transport: Transport) returns (script: seq<Fault>)
    requires Accepted(b, strategy, delay, transport)
    requires Stumbles(b, table, previous, target, strategy, delay)
    ensures var (d', outcome) := Apply(b, Device(table, script, []), previous, target, strategy, delay, transport);
            && Failures(d'.log) == 1 && outcome.RollbackFailed?
            && d'.table == StumbleTable(b, table, previous, target, strategy, delay)
  {
    var length := StumbleLength(b, previous, target, strategy, delay, transport);
    script := OnlyFails(length);
    var d := Device(table, script, []);
    StumblesSmoothly(b, d, previous, target, strategy, delay, transport);
    var (d1, _, _) := Update(b, d, previous, target, strategy, delay, transport);
    assert !Send(d1, Read, {}).1;
    RestoreOutcome(b, d1, previous);
  }

  /** Without read-back, a table that was not `previous` is not noticed: when every write applies
      and works, the call returns and the table is not the target. */
  lemma SlipsUnnoticed(b: Backend, table: set<Pair>, previous: set<Pair>, target: set<Pair>,
                       strategy: Strategy, delay: int, transport: Transport)
    requires Accepted(b, strategy, delay, transport) && !b.readback && (delay == 0 || b.sleeps)
    requires Slips(b, table, previous, target, strategy, delay)
    ensures var (d', outcome) := Apply(b, Device(table, [], []), previous, target, strategy, delay, transport);
            && Failures(d'.log) == 0 && outcome.Returned? && d'.table != target
            && d'.table == (table - Removed(strategy, previous, target)) + Added(strategy, previous, target)
  {
    var d := Device(table, [], []);
    var removed, added := Removed(strategy, previous, target), Added(strategy, previous, target);
    WritePairsSmooth(d, Delete, removed, transport);
    WritePairsOutcome(d, Delete, removed, transport);
    var (d1, _, _) := WritePairs(d, Delete, removed, transport);
    WritePairsSmooth(d1, Insert, added, transport);
    WritePairsOutcome(d1, Insert, added, transport);
    ReadbackMatches(table, previous, target, strategy);
  }

  /** An update that reports success has met only applicable writes. */
  lemma SuccessApplies(b: Backend, d: Device, previous: set<Pair>, target: set<Pair>,
                       strategy: Strategy, delay: int, transport: Transport)
    requires Update(b, d, previous, target, strategy, delay, transport).1
    ensures Removed(strategy, previous, target) <= d.table
    ensures (d.table - Removed(strategy, previous, target)) !! Added(strategy, previous, target)
  {
    var removed, added := Removed(strategy, previous, target), Added(strategy, previous, target);
    WritePairsOutcome(d, Delete, removed, transport);
    var (d1, _, _) := WritePairs(d, Delete, removed, transport);
    WritePairsOutcome(d1, Insert, added, transport);
  }

  lemma OneFailureEndsWell(b: Backend, table: set<Pair>, previous: set<Pair>, target: set<Pair>,
                           strategy: Strategy, delay: int, transport: Transport, script: seq<Fault>)
    requires Accepted(b, strategy, delay, transport) && !Slips(b, table, previous, target, strategy, delay)
    ensures var (d', outcome) := Apply(b, Device(table, script, []), previous, target, strategy, delay, transport);
            Failures(d'.log) <= 1 ==> EndsWell(d'.table, outcome, previous, target)
  {
    var d := Device(table, script, []);
    UpdateOutcome(b, d, previous, target, strategy, delay, transport);
    var (d1, ok, _) := Update(b, d, previous, target, strategy, delay, transport);
    if ok {
      SuccessApplies(b, d, previous, target, strategy, delay, transport);
    } else {
      RestoreOutcome(b, d1, previous);
    }
  }

  /** Under at most one failing request a call ends at the target or at the previous set, and says
      which, exactly when it cannot slip -- for every adapter.  In particular it does whenever the
      table equals the previous set and no pause is asked of an adapter that cannot pause. */
  lemma OneFailureSurvivedIff(b: Backend, table: set<Pair>, previous: set<Pair>, target: set<Pair>,
                              strategy: Strategy, delay: int, transport: Transport)
    requires Accepted(b, strategy, delay, transport)
    ensures SurvivesOneFailure(b, table, previous, target, strategy, delay, transport)
            <==> !Slips(b, table, previous, target, strategy, delay)
  {
    if Slips(b, table, previous, target, strategy, delay) {
      var script := [];
      if Stumbles(b, table, previous, target, strategy, delay) {
        script := StumblesThenFails(b, table, previous, target, strategy, delay, transport);
      } else {
        SlipsUnnoticed(b, table, previous, target, strategy, delay, transport);
      }
      var (d', outcome) := Apply(b, Device(table, script, []), previous, target, strategy, delay, transport);
      assert Failures(d'.log) <= 1 && !EndsWell(d'.table, outcome, previous, target);
    } else {
      forall script
        ensures var (d', outcome) := Apply(b, Device(table, script, []), previous, target, strategy, delay, transport);
                Failures(d'.log) <= 1 ==> EndsWell(d'.table, outcome, previous, target)
      {
        OneFailureEndsWell(b, table, previous, target, strategy, delay, transport, script);
      }
    }
  }

  /** When writes are only acknowledged, a stray entry needs no failing request at all: the call
      returns, and the table is neither the target nor the previous set. */
  lemma StrayEntryUnnoticed()
    ensures var previous, target, table := {Pair(1, 2)}, {Pair(1, 3)}, {Pair(1, 2), Pair(5, 6)};
            var (d', outcome) := Apply(BFRT(true), Device(table, [], []), previous, target, FULL, 0, NATIVE_BATCH);
            Failures(d'.log) == 0 && outcome.Returned? && d'.table != target && d'.table != previous
  {
    var previous, target, table := {Pair(1, 2)}, {Pair(1, 3)}, {Pair(1, 2), Pair(5, 6)};
    assert Pair(5, 6) in table - previous && Pair(5, 6) !in target;
    SlipsUnnoticed(BFRT(true), table, previous, target, FULL, 0, NATIVE_BATCH);
  }

  /** A stray entry in the table is enough: with {(1,2),(2,1)} expected, {(1,2),(2,1),(5,6)} in
      the table and one failing read, the table ends neither at the target nor restored. */
  lemma OneFailureNotSurvivedWithAStrayEntry() returns (script: seq<Fault>)
    ensures var previous := {Pair(1, 2), Pair(2, 1)};
            var target := {Pair(1, 3), Pair(3, 1)};
            var (d', outcome) := Apply(P4App(false), Device(previous + {Pair(5, 6)}, script, []),
                                       previous, target, FULL, 0, SEQUENTIAL);
            && Failures(d'.log) == 1 && outcome.RollbackFailed?
            && d'.table == target + {Pair(5, 6)} && d'.table != target && d'.table != previous
  {
    var previous, target := {Pair(1, 2), Pair(2, 1)}, {Pair(1, 3), Pair(3, 1)};
    var table := previous + {Pair(5, 6)};
    assert Pair(5, 6) in table && Pair(5, 6) !in previous;
    script := StumblesThenFails(P4App(false), table, previous, target, FULL, 0, SEQUENTIAL);
    assert StumbleTable(P4App(false), table, previous, target, FULL, 0) == target + {Pair(5, 6)};
    assert Pair(5, 6) in target + {Pair(5, 6)} && Pair(5, 6) !in target;
  }

  // ---------------------------------------------------------------- without failures

  /** When no request fails, an accepted call returns exactly if the pause, if any, can be taken
      and, for an adapter that reads back, the table was the previous set; otherwise it rolls
      back.  No call ever makes up for a failed request. */
  lemma ReturnsIffUndisturbed(b: Backend, d: Device, previous: set<Pair>, target: set<Pair>,
                              strategy: Strategy, delay: int, transport: Transport)
    requires Accepted(b, strategy, delay, transport)
    ensures var (d', outcome) := Apply(b, d, previous, target, strategy, delay, transport);
            && Failures(d.log) <= Failures(d'.log)
            && (Failures(d'.log) == Failures(d.log) ==>
                  && (outcome.Returned? <==> (b.readback ==> d.table == previous) && (delay == 0 || b.sleeps))
                  && (outcome.Returned? || outcome.RolledBack?))
  {
    UpdateOutcome(b, d, previous, target, strategy, delay, transport);
    var (d1, ok, _) := Update(b, d, previous, target, strategy, delay, transport);
    if !ok {
      RestoreOutcome(b, d1, previous);
    } else {
      var removed, added := Removed(strategy, previous, target), Added(strategy, previous, target);
      WritePairsOutcome(d, Delete, removed, transport);
      InstallOutcome(b.readback, WritePairs(d, Delete, removed, transport).0, added, target, transport);
    }
  }

  /** From the previous set and without failing requests, exactly these calls end at the target: either
      strategy, with single requests or with the batches that the adapter offers, and a pause of up to
      a second that the adapter can take. */
  lemma UndisturbedReturnsIff(b: Backend, d: Device, target: set<Pair>, strategy: Strategy, delay: int,
                              transport: Transport)
    ensures var (d', outcome) := Apply(b, d, d.table, target, strategy, delay, transport);
            Failures(d'.log) == Failures(d.log) ==>
              && (outcome.Returned? <==>
                    && (strategy == FULL || strategy == DELTA)
                    && (transport == SEQUENTIAL || (transport == NATIVE_BATCH && b.nativeBatch))
                    && (delay == 0 || (b.sleeps && 0 < delay <= 1_000_000)))
              && (outcome.Returned? ==> d'.table == target)
              && (!outcome.Returned? ==> d'.table == d.table)
  {
    ApplyOutcome(b, d, d.table, target, strategy, delay, transport);
    if Accepted(b, strategy, delay, transport) {
      ReturnsIffUndisturbed(b, d, d.table, target, strategy, delay, transport);
    }
  }

  /** The P4Runtime adapter never completes a transition with a pause. */
  lemma P4AppNeverPauses(nativeBatch: bool, d: Device, previous: set<Pair>, target: set<Pair>,
                         strategy: Strategy, delay: int, transport: Transport)
    requires delay > 0
    ensures !Apply(P4App(nativeBatch), d, previous, target, strategy, delay, transport).1.Returned?
  {
  }

  // ---------------------------------------------------------------- accounting

  lemma Divided(whole: set<Pair>, part: set<Pair>)
    ensures |whole - part| + |whole * part| == |whole|
  {
    assert whole == (whole - part) + whole * part;
    assert (whole - part) !! whole * part;
  }

  /** Every entry of the previous set is deleted or kept, every entry of the target inserted or kept. */
  lemma PlanSizes(strategy: Strategy, previous: set<Pair>, target: set<Pair>)
    requires strategy == FULL || strategy == DELTA
    ensures |Removed(strategy, previous, target)| + |Kept(strategy, previous, target)| == |previous|
    ensures |Added(strategy, previous, target)| + |Kept(strategy, previous, target)| == |target|
  {
    if strategy == DELTA {
      Divided(previous, target);
      Divided(target, previous);
      assert previous * target == target * previous;
    }
  }

  /** The counters of a completed transition: both strategies account for every entry of the
      previous set and of the target, the request counter is the number of write requests the
      device received, and it is determined by the transport. */
  lemma Accounting(b: Backend, d: Device, previous: set<Pair>, target: set<Pair>,
                   strategy: Strategy, delay: int, transport: Transport)
    ensures var (d', outcome) := Apply(b, d, previous, target, strategy, delay, transport);
            outcome.Returned? ==>
              var t := outcome.timing;
              && t.active == |target|
              && t.deletes + t.kept == |previous| && t.inserts + t.kept == |target|
              && (strategy == FULL ==> t.kept == 0)
              && |d'.log| - |d.log| == t.requests + (if b.readback then 1 else 0)
              && (transport == SEQUENTIAL ==> t.requests == t.deletes + t.inserts)
              && (transport == NATIVE_BATCH ==> t.requests <= 2)
  {
    if Accepted(b, strategy, delay, transport) {
      PlanSizes(strategy, previous, target);
      UpdateOutcome(b, d, previous, target, strategy, delay, transport);
      Requests(b, d, previous, target, strategy, delay, transport);
    }
  }

  /** DELTA ends where FULL ends and never sends more requests. */
  lemma DeltaSendsNoMore(b: Backend, d: Device, previous: set<Pair>, target: set<Pair>,
                         delay: int, transport: Transport)
    requires d.table == previous
    ensures var (f', full) := Apply(b, d, previous, target, FULL, delay, transport);
            var (e', delta) := Apply(b, d, previous, target, DELTA, delay, transport);
            full.Returned? && delta.Returned? ==>
              && f'.table == e'.table == target
              && delta.timing.requests <= full.timing.requests
  {
    ApplyOutcome(b, d, previous, target, FULL, delay, transport);
    ApplyOutcome(b, d, previous, target, DELTA, delay, transport);
    if Accepted(b, FULL, delay, transport) {
      Requests(b, d, previous, target, FULL, delay, transport);
      Requests(b, d, previous, target, DELTA, delay, transport);
      Smaller(previous - target, previous);
      Smaller(target - previous, target);
    }
  }

  lemma Requests(b: Backend, d: Device, previous: set<Pair>, target: set<Pair>,
                 strategy: Strategy, delay: int, transport: Transport)
    requires Accepted(b, strategy, delay, transport)
    ensures var outcome := Apply(b, d, previous, target, strategy, delay, transport).1;
            outcome.Returned? ==>
              outcome.timing.requests == RequestCount(Removed(strategy, previous, target), transport)
                                         + RequestCount(Added(strategy, previous, target), transport)
  {
    var removed, added := Removed(strategy, previous, target), Added(strategy, previous, target);
    WritePairsOutcome(d, Delete, removed, transport);
    InstallOutcome(b.readback, WritePairs(d, Delete, removed, transport).0, added, target, transport);
  }
}
