/** What a transition will do, told from its arguments, the table and the fault script before it:
    when it returns, and when it sends the device anything but reads. */
module Forecast {
  import opened DeviceTable
  import opened Transaction

  /** The pause between the phases, if any, can be taken. */
  predicate Pauses(b: Backend, delay: int) {
    delay <= 0 || b.sleeps
  }

  /** The next n requests work. */
  predicate NextWork(d: Device, n: nat) {
    forall k | |d.log| <= k < |d.log| + n :: FaultAt(d.script, k).works
  }

  // ---------------------------------------------------------------- returning

  /** The write requests of a plan that is carried out in full. */
  function PlanCount(previous: set<Pair>, target: set<Pair>, strategy: Strategy, transport: Transport): nat {
    RequestCount(Removed(strategy, previous, target), transport)
    + RequestCount(Added(strategy, previous, target), transport)
  }

  predicate WillReturn(b: Backend, d: Device, previous: set<Pair>, target: set<Pair>, strategy: Strategy, delay: int,
                       transport: Transport)
  {
    && Accepted(b, strategy, delay, transport) && Pauses(b, delay)
    && Removed(strategy, previous, target) <= d.table
    && (d.table - Removed(strategy, previous, target)) !! Added(strategy, previous, target)
    && (b.readback ==> d.table == previous)
    && NextWork(d, PlanCount(previous, target, strategy, transport) + if b.readback then 1 else 0)
  }

  lemma {:induction false} SendAllWorked(d: Device, op: Operation, ordered: seq<Pair>)
    requires SendAll(d, op, ordered).1
    ensures NextWork(d, |ordered|)
    ensures var d' := SendAll(d, op, ordered).0; d'.script == d.script && |d'.log| == |d.log| + |ordered|
    decreases |ordered|
  {
    if ordered != [] {
      var d1 := Send(d, op, {ordered[0]}).0;
      SendAllWorked(d1, op, ordered[1..]);
      assert d1.script == d.script && |d1.log| == |d.log| + 1;
    }
  }

  lemma WritePairsWorked(d: Device, op: Operation, pairs: set<Pair>, transport: Transport)
    requires op != Read && WritePairs(d, op, pairs, transport).1
    ensures NextWork(d, RequestCount(pairs, transport))
    ensures var d' := WritePairs(d, op, pairs, transport).0;
            d'.script == d.script && |d'.log| == |d.log| + RequestCount(pairs, transport)
  {
    SortedLists(pairs);
    if transport != NATIVE_BATCH { SendAllWorked(d, op, Sorted(pairs)); }
  }

  /** A transition returns exactly if it is accepted, its pause can be taken, its plan applies to the
      table -- which is the previous set, if that is read back -- and its requests work. */
  lemma ReturnsIff(b: Backend, d: Device, previous: set<Pair>, target: set<Pair>, strategy: Strategy, delay: int,
                   transport: Transport)
    ensures var (d', outcome) := Apply(b, d, previous, target, strategy, delay, transport);
            && (outcome.Returned? <==> WillReturn(b, d, previous, target, strategy, delay, transport))
            && (outcome.Returned? ==>
                  && d'.script == d.script
                  && |d'.log| == |d.log| + PlanCount(previous, target, strategy, transport)
                                 + (if b.readback then 1 else 0))
  {
    if Accepted(b, strategy, delay, transport) {
      if WillReturn(b, d, previous, target, strategy, delay, transport) {
        PlannedReturns(b, d, previous, target, strategy, delay, transport);
      }
      if Update(b, d, previous, target, strategy, delay, transport).1 {
        ReturnedWorked(b, d, previous, target, strategy, delay, transport);
      }
    }
  }

  lemma PlannedReturns(b: Backend, d: Device, previous: set<Pair>, target: set<Pair>, strategy: Strategy, delay: int,
                       transport: Transport)
    requires WillReturn(b, d, previous, target, strategy, delay, transport)
    ensures Update(b, d, previous, target, strategy, delay, transport).1
  {
    var removed, added := Removed(strategy, previous, target), Added(strategy, previous, target);
    WritePairsSmooth(d, Delete, removed, transport);
    WritePairsOutcome(d, Delete, removed, transport);
    var d1 := WritePairs(d, Delete, removed, transport).0;
    WritePairsSmooth(d1, Insert, added, transport);
    WritePairsOutcome(d1, Insert, added, transport);
    if b.readback { ReadbackMatches(d.table, previous, target, strategy); }
  }

  lemma ReturnedWorked(b: Backend, d: Device, previous: set<Pair>, target: set<Pair>, strategy: Strategy, delay: int,
                       transport: Transport)
    requires Accepted(b, strategy, delay, transport)
    requires Update(b, d, previous, target, strategy, delay, transport).1
    ensures WillReturn(b, d, previous, target, strategy, delay, transport)
    ensures var d' := Update(b, d, previous, target, strategy, delay, transport).0;
            && d'.script == d.script
            && |d'.log| == |d.log| + PlanCount(previous, target, strategy, transport) + (if b.readback then 1 else 0)
  {
    var removed, added := Removed(strategy, previous, target), Added(strategy, previous, target);
    SuccessApplies(b, d, previous, target, strategy, delay, transport);
    UpdateOutcome(b, d, previous, target, strategy, delay, transport);
    WritePairsWorked(d, Delete, removed, transport);
    var d1 := WritePairs(d, Delete, removed, transport).0;
    WritePairsWorked(d1, Insert, added, transport);
    InPhases(d, d1, RequestCount(removed, transport), RequestCount(added, transport));
  }

  lemma InPhases(d: Device, d1: Device, n: nat, m: nat)
    requires d1.script == d.script && |d1.log| == |d.log| + n
    ensures NextWork(d, n) && NextWork(d1, m) <==> NextWork(d, n + m)
  {
    if NextWork(d, n + m) {
      assert NextWork(d, n) && NextWork(d1, m);
    }
  }

  // ---------------------------------------------------------------- rolling back

  /** The requests of a rollback from this table: its two reads, and the difference. */
  function RestoreCount(b: Backend, table: set<Pair>, previous: set<Pair>): nat {
    2 + RequestCount(table - previous, RestoreTransport(b)) + RequestCount(previous - table, RestoreTransport(b))
  }

  /** A rollback succeeds exactly if its requests work, wherever it starts. */
  lemma RestoresIff(b: Backend, d: Device, previous: set<Pair>)
    ensures Restore(b, d, previous).1 <==> NextWork(d, RestoreCount(b, d.table, previous))
  {
    var d1 := Send(d, Read, {}).0;
    var n := RestoreCount(b, d.table, previous) - 1;
    InPhases(d, d1, 1, n);
    assert NextWork(d, 1) <==> Send(d, Read, {}).1;
    RestoreFromIff(d1, previous, RestoreTransport(b));
  }

  lemma RestoreFromIff(d: Device, previous: set<Pair>, transport: Transport)
    ensures RestoreFrom(d, previous, transport).1
            <==> NextWork(d, RequestCount(d.table - previous, transport)
                             + RequestCount(previous - d.table, transport) + 1)
  {
    var surplus, missing := d.table - previous, previous - d.table;
    var n, m := RequestCount(surplus, transport), RequestCount(missing, transport);
    var (d1, ok, _) := WritePairs(d, Delete, surplus, transport);
    assert surplus * d.table == surplus;
    if NextWork(d, n + m + 1) {
      InPhasesIf(d, n, m + 1);
      WritePairsSmooth(d, Delete, surplus, transport);
    }
    if ok {
      WritePairsWorked(d, Delete, surplus, transport);
      WritePairsOutcome(d, Delete, surplus, transport);
      InPhases(d, d1, n, m + 1);
      assert d1.table + missing == previous;
      InstallIff(d1, missing, previous, transport);
    }
  }

  lemma InPhasesIf(d: Device, n: nat, m: nat)
    requires NextWork(d, n + m)
    ensures NextWork(d, n)
  {
  }

  lemma InstallIff(d: Device, missing: set<Pair>, previous: set<Pair>, transport: Transport)
    requires d.table !! missing && d.table + missing == previous
    ensures Install(true, d, missing, previous, transport).1 <==> NextWork(d, RequestCount(missing, transport) + 1)
  {
    var n := RequestCount(missing, transport);
    var (d1, ok, _) := WritePairs(d, Insert, missing, transport);
    if NextWork(d, n + 1) {
      InPhasesIf(d, n, 1);
      WritePairsSmooth(d, Insert, missing, transport);
    }
    if ok {
      WritePairsWorked(d, Insert, missing, transport);
      WritePairsOutcome(d, Insert, missing, transport);
      InPhases(d, d1, n, 1);
      assert NextWork(d1, 1) <==> FaultAt(d1.script, |d1.log|).works;
    }
  }

  /** An accepted transition will fail, and the requests of its rollback will work. */
  predicate WillRollBack(b: Backend, d: Device, previous: set<Pair>, target: set<Pair>, strategy: Strategy, delay: int,
                         transport: Transport)
  {
    && Accepted(b, strategy, delay, transport) && !WillReturn(b, d, previous, target, strategy, delay, transport)
    && var d1 := Update(b, d, previous, target, strategy, delay, transport).0;
       NextWork(d1, RestoreCount(b, d1.table, previous))
  }

  lemma OutcomeIff(b: Backend, d: Device, previous: set<Pair>, target: set<Pair>, strategy: Strategy, delay: int,
                   transport: Transport)
    ensures var outcome := Apply(b, d, previous, target, strategy, delay, transport).1;
            && (outcome.Returned? <==> WillReturn(b, d, previous, target, strategy, delay, transport))
            && (outcome.RolledBack? <==> WillRollBack(b, d, previous, target, strategy, delay, transport))
            && (outcome.Rejected? <==> !Accepted(b, strategy, delay, transport))
            && (outcome.Rejected? || outcome.Returned? || outcome.RolledBack? || outcome.RollbackFailed?)
  {
    ReturnsIff(b, d, previous, target, strategy, delay, transport);
    RestoresIff(b, Update(b, d, previous, target, strategy, delay, transport).0, previous);
  }

  // ---------------------------------------------------------------- writing

  /** The device has gone on, and the new requests are all reads exactly if `quiet`; then the table
      is what it was. */
  ghost predicate Traced(d: Device, d': Device, quiet: bool) {
    && Extends(d, d') && (OnlyReads(d'.log, |d.log|) <==> quiet) && (quiet ==> d'.table == d.table)
  }

  lemma TracedOn(d: Device, d1: Device, d2: Device, quiet1: bool, quiet2: bool)
    requires Traced(d, d1, quiet1) && Traced(d1, d2, quiet2)
    ensures Traced(d, d2, quiet1 && quiet2)
  {
    OnlyReadsOn(d.log, d1.log, d2.log);
  }

  lemma NothingToWrite(d: Device, op: Operation, transport: Transport)
    ensures WritePairs(d, op, {}, transport) == (d, true, 0)
  {
    SortedLists({});
  }

  lemma WritePairsTraced(d: Device, op: Operation, pairs: set<Pair>, transport: Transport)
    requires op != Read
    ensures Traced(d, WritePairs(d, op, pairs, transport).0, pairs == {})
  {
    var d' := WritePairs(d, op, pairs, transport).0;
    WritePairsRecorded(d, op, pairs, transport);
    SortedLists(pairs);
    if pairs == {} {
      assert d' == d;
    } else {
      FirstRequest(d, op, pairs, transport);
    }
  }

  lemma FirstRequest(d: Device, op: Operation, pairs: set<Pair>, transport: Transport)
    requires op != Read && pairs != {}
    ensures var d' := WritePairs(d, op, pairs, transport).0; |d.log| < |d'.log| && d'.log[|d.log|].op == op
  {
    SortedLists(pairs);
    if transport != NATIVE_BATCH {
      var ordered := Sorted(pairs);
      var (d1, ok) := Send(d, op, {ordered[0]});
      if ok { SendAllRecorded(d1, op, ordered[1..]); }
    }
  }

  lemma InstallTraced(readback: bool, d: Device, added: set<Pair>, expected: set<Pair>, transport: Transport)
    ensures Traced(d, Install(readback, d, added, expected, transport).0, added == {})
  {
    var (d1, ok, _) := WritePairs(d, Insert, added, transport);
    WritePairsTraced(d, Insert, added, transport);
    if ok && readback { TracedOn(d, d1, Verify(d1, expected).0, added == {}, true); }
  }

  lemma UpdateTraced(b: Backend, d: Device, previous: set<Pair>, target: set<Pair>, strategy: Strategy, delay: int,
                     transport: Transport)
    ensures Traced(d, Update(b, d, previous, target, strategy, delay, transport).0,
                   Removed(strategy, previous, target) == {}
                   && (Pauses(b, delay) ==> Added(strategy, previous, target) == {}))
  {
    var removed, added := Removed(strategy, previous, target), Added(strategy, previous, target);
    var (d1, ok, _) := WritePairs(d, Delete, removed, transport);
    WritePairsTraced(d, Delete, removed, transport);
    if ok && Pauses(b, delay) {
      InstallTraced(b.readback, d1, added, target, transport);
      TracedOn(d, d1, Install(b.readback, d1, added, target, transport).0, removed == {}, added == {});
    }
  }

  lemma RestoreTraced(b: Backend, d: Device, previous: set<Pair>)
    ensures Traced(d, Restore(b, d, previous).0, !FaultAt(d.script, |d.log|).works || d.table == previous)
  {
    var (d1, ok) := Send(d, Read, {});
    assert Traced(d, d1, true);
    if ok {
      RestoreFromTraced(d1, previous, RestoreTransport(b));
      TracedOn(d, d1, RestoreFrom(d1, previous, RestoreTransport(b)).0, true, d.table == previous);
    }
  }

  lemma RestoreFromTraced(d: Device, previous: set<Pair>, transport: Transport)
    ensures Traced(d, RestoreFrom(d, previous, transport).0, d.table == previous)
  {
    var surplus, missing := d.table - previous, previous - d.table;
    var (d1, ok, _) := WritePairs(d, Delete, surplus, transport);
    WritePairsTraced(d, Delete, surplus, transport);
    assert d.table == previous <==> surplus == {} && missing == {};
    NothingToWrite(d, Delete, transport);
    if ok {
      InstallTraced(true, d1, missing, previous, transport);
      TracedOn(d, d1, Install(true, d1, missing, previous, transport).0, surplus == {}, missing == {});
    }
  }

  /** The plan has something to write, or it has not, the update fails all the same, and the rollback
      can read a table that differs from the previous set. */
  predicate WillWrite(b: Backend, d: Device, previous: set<Pair>, target: set<Pair>, strategy: Strategy, delay: int,
                      transport: Transport)
  {
    && Accepted(b, strategy, delay, transport)
    && (|| Removed(strategy, previous, target) != {}
        || (Pauses(b, delay) && Added(strategy, previous, target) != {})
        || (d.table != previous && (Pauses(b, delay) ==> b.readback)
            && FaultAt(d.script, |d.log| + if Pauses(b, delay) then 1 else 0).works))
  }

  /** An update with nothing to write makes at most one request, and notices a wrong table if it reads
      back. */
  lemma EmptyPlan(b: Backend, d: Device, previous: set<Pair>, target: set<Pair>, strategy: Strategy, delay: int,
                  transport: Transport)
    requires Accepted(b, strategy, delay, transport)
    requires Removed(strategy, previous, target) == {}
    requires Pauses(b, delay) ==> Added(strategy, previous, target) == {}
    ensures var (d', ok, _) := Update(b, d, previous, target, strategy, delay, transport);
            && d'.script == d.script && d'.table == d.table
            && |d'.log| == |d.log| + (if Pauses(b, delay) && b.readback then 1 else 0)
            && (ok ==> Pauses(b, delay) && (b.readback ==> d.table == previous))
            && (!ok ==> Pauses(b, delay) ==> b.readback)
  {
    NothingToWrite(d, Delete, transport);
    NothingToWrite(d, Insert, transport);
    if Pauses(b, delay) {
      assert previous == target by {
        assert Removed(strategy, previous, target) == {} && Added(strategy, previous, target) == {};
        if strategy == DELTA { assert previous - target == {} && target - previous == {}; }
      }
    }
  }

  /** When a transition sends the device a write request -- through its plan or its rollback. */
  lemma WritesIff(b: Backend, d: Device, previous: set<Pair>, target: set<Pair>, strategy: Strategy, delay: int,
                  transport: Transport)
    ensures Traced(d, Apply(b, d, previous, target, strategy, delay, transport).0,
                   !WillWrite(b, d, previous, target, strategy, delay, transport))
  {
    if Accepted(b, strategy, delay, transport) {
      var (d1, ok, _) := Update(b, d, previous, target, strategy, delay, transport);
      var quiet := Removed(strategy, previous, target) == {}
                   && (Pauses(b, delay) ==> Added(strategy, previous, target) == {});
      UpdateTraced(b, d, previous, target, strategy, delay, transport);
      if quiet { EmptyPlan(b, d, previous, target, strategy, delay, transport); }
      if !ok {
        RestoreTraced(b, d1, previous);
        TracedOn(d, d1, Restore(b, d1, previous).0, quiet,
                 !FaultAt(d1.script, |d1.log|).works || d1.table == previous);
      }
    }
  }
}
