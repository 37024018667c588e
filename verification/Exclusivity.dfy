/** Port exclusivity through a single transition: from a right table always, and from a wrong one
    exactly when. */
module Exclusivity {
  import opened DeviceTable
  import opened Transaction
  import opened Connections
  import opened Forecast

  /** At every instant of every request from position `from` on, no port has two peers. */
  ghost predicate StaysExclusive(log: seq<Request>, from: nat) {
    forall k, table | from <= k < |log| && Instant(log[k], table) :: PortExclusive(table)
  }

  lemma StaysOn(first: seq<Request>, second: seq<Request>, from: nat)
    requires from <= |first| && first <= second
    requires StaysExclusive(first, from) && StaysExclusive(second, |first|)
    ensures StaysExclusive(second, from)
  {
    forall k, table | from <= k < |second| && Instant(second[k], table) ensures PortExclusive(table) {
      if k < |first| { assert Instant(first[k], table); }
    }
  }

  lemma PartExclusive(part: set<Pair>, whole: set<Pair>)
    requires part <= whole && PortExclusive(whole)
    ensures PortExclusive(part)
  {
  }

  /** The device has gone on, and no port has had two peers meanwhile or has them now. */
  ghost predicate KeptExclusive(d: Device, d': Device) {
    d.log <= d'.log && StaysExclusive(d'.log, |d.log|) && PortExclusive(d'.table)
  }

  lemma KeptOn(d: Device, d1: Device, d2: Device)
    requires KeptExclusive(d, d1) && KeptExclusive(d1, d2)
    ensures KeptExclusive(d, d2)
  {
    StaysOn(d1.log, d2.log, |d.log|);
  }

  lemma ReadKeeps(d: Device)
    requires PortExclusive(d.table)
    ensures KeptExclusive(d, Send(d, Read, {}).0)
  {
  }

  // ---------------------------------------------------------------- from a right table

  lemma RestoreLeavesPart(b: Backend, d: Device, previous: set<Pair>)
    ensures var d' := Restore(b, d, previous).0; d'.table <= d.table || d'.table <= previous
  {
    var (d1, read) := Send(d, Read, {});
    if read {
      var transport := RestoreTransport(b);
      WritePairsOutcome(d1, Delete, d1.table - previous, transport);
      var (d2, ok, _) := WritePairs(d1, Delete, d1.table - previous, transport);
      if ok {
        InstallConfined(true, d2, previous - d1.table, previous, transport, previous, previous);
      }
    }
  }

  /** From a table equal to the previous set, with exclusive sets, every instant of the transition is
      exclusive, and so is the table it leaves. */
  lemma TransitionStaysExclusive(b: Backend, d: Device, previous: set<Pair>, target: set<Pair>, strategy: Strategy,
                                 delay: int, transport: Transport)
    requires d.table == previous && PortExclusive(previous) && PortExclusive(target)
    ensures var d' := Apply(b, d, previous, target, strategy, delay, transport).0;
            KeptExclusive(d, d')
  {
    var d' := Apply(b, d, previous, target, strategy, delay, transport).0;
    NeverMixed(b, d, previous, target, strategy, delay, transport);
    ExclusiveThroughout(d'.log, |d.log|, previous, target);
    WritesIff(b, d, previous, target, strategy, delay, transport);
    if Accepted(b, strategy, delay, transport) {
      var (d1, ok, _) := Update(b, d, previous, target, strategy, delay, transport);
      UpdateConfined(b, d, previous, target, strategy, delay, transport);
      RestoreLeavesPart(b, d1, previous);
    }
  }

  // ---------------------------------------------------------------- from any table

  /** The entries that a sequential insert gets to: up to the first that is there already. */
  function Untaken(table: set<Pair>, ordered: seq<Pair>): seq<Pair> {
    if ordered == [] || ordered[0] in table then []
    else [ordered[0]] + Untaken(table, ordered[1..])
  }

  /** The entries that an insert phase can bring in. */
  function Reach(table: set<Pair>, added: set<Pair>, transport: Transport): set<Pair> {
    if transport == NATIVE_BATCH then added else Elements(Untaken(table, Sorted(added)))
  }

  lemma {:induction false} UntakenAfter(table: set<Pair>, p: Pair, ordered: seq<Pair>)
    requires p !in ordered
    ensures Untaken(table + {p}, ordered) == Untaken(table, ordered)
  {
    if ordered != [] {
      assert ordered[0] in ordered && ordered[0] != p;
      UntakenAfter(table, p, ordered[1..]);
    }
  }

  /** All requests since `from` only insert, and stay within the bound. */
  ghost predicate Rises(log: seq<Request>, from: nat, bound: set<Pair>) {
    forall k | from <= k < |log| :: log[k].before <= log[k].after <= bound
  }

  lemma {:induction false} InsertsWithin(d: Device, ordered: seq<Pair>)
    requires forall i, j | 0 <= i < j < |ordered| :: ordered[i] != ordered[j]
    ensures var d', bound := SendAll(d, Insert, ordered).0, d.table + Elements(Untaken(d.table, ordered));
            d.log <= d'.log && Rises(d'.log, |d.log|, bound) && d'.table <= bound
    decreases |ordered|
  {
    if ordered != [] {
      var p, rest := ordered[0], ordered[1..];
      var (d1, ok) := Send(d, Insert, {p});
      if ok {
        InsertsWithin(d1, rest);
        assert p !in rest;
        assert d1.table == d.table + {p} && p !in d.table;
        UntakenAfter(d.table, p, rest);
        assert Elements(Untaken(d.table, ordered)) == {p} + Elements(Untaken(d.table, rest));
        var d' := SendAll(d1, Insert, rest).0;
        forall k | |d.log| <= k < |d'.log|
          ensures d'.log[k].before <= d'.log[k].after <= d.table + Elements(Untaken(d.table, ordered))
        {
          if k == |d.log| { assert d'.log[k] == d1.log[k]; }
        }
      } else {
        assert p !in d.table ==> p in Elements(Untaken(d.table, ordered)) by {
          assert p !in d.table ==> Untaken(d.table, ordered)[0] == p;
        }
      }
    }
  }

  lemma InsertPhaseWithin(d: Device, added: set<Pair>, transport: Transport)
    ensures var d', bound := WritePairs(d, Insert, added, transport).0, d.table + Reach(d.table, added, transport);
            d.log <= d'.log && Rises(d'.log, |d.log|, bound) && d'.table <= bound
  {
    SortedLists(added);
    WritePairsRecorded(d, Insert, added, transport);
    WritePairsOutcome(d, Insert, added, transport);
    if transport != NATIVE_BATCH { InsertsWithin(d, Sorted(added)); }
  }

  lemma RisesExclusive(log: seq<Request>, from: nat, bound: set<Pair>)
    requires Rises(log, from, bound) && PortExclusive(bound)
    ensures StaysExclusive(log, from)
  {
    forall k, table | from <= k < |log| && Instant(log[k], table) ensures PortExclusive(table) {
      PartExclusive(table, bound);
    }
  }

  /** What the table can hold when the insert phase is over, if it is reached. */
  predicate Fits(b: Backend, table: set<Pair>, previous: set<Pair>, target: set<Pair>, strategy: Strategy, delay: int,
                 transport: Transport)
  {
    var rest := table - Removed(strategy, previous, target);
    Removed(strategy, previous, target) <= table && Pauses(b, delay) ==>
      PortExclusive(rest + Reach(rest, Added(strategy, previous, target), transport))
  }

  lemma InstallStays(readback: bool, d: Device, added: set<Pair>, expected: set<Pair>, transport: Transport)
    requires PortExclusive(d.table + Reach(d.table, added, transport))
    ensures var d' := Install(readback, d, added, expected, transport).0;
            KeptExclusive(d, d')
  {
    var bound := d.table + Reach(d.table, added, transport);
    var (d1, ok, _) := WritePairs(d, Insert, added, transport);
    InsertPhaseWithin(d, added, transport);
    RisesExclusive(d1.log, |d.log|, bound);
    PartExclusive(d1.table, bound);
    if ok && readback {
      var d2 := Verify(d1, expected).0;
      assert StaysExclusive(d2.log, |d1.log|);
      StaysOn(d1.log, d2.log, |d.log|);
    }
  }

  lemma UpdateStays(b: Backend, d: Device, previous: set<Pair>, target: set<Pair>, strategy: Strategy, delay: int,
                    transport: Transport)
    requires PortExclusive(d.table) && Fits(b, d.table, previous, target, strategy, delay, transport)
    ensures var d' := Update(b, d, previous, target, strategy, delay, transport).0;
            KeptExclusive(d, d')
  {
    var removed, added := Removed(strategy, previous, target), Added(strategy, previous, target);
    var (d1, ok, _) := WritePairs(d, Delete, removed, transport);
    WritePairsOutcome(d, Delete, removed, transport);
    WritePairsRecorded(d, Delete, removed, transport);
    PhaseConfined(d, d1, Delete, removed, d.table, d.table);
    ExclusiveThroughout(d1.log, |d.log|, d.table, d.table);
    PartExclusive(d1.table, d.table);
    if ok && Pauses(b, delay) {
      InstallStays(b.readback, d1, added, target, transport);
      StaysOn(d1.log, Install(b.readback, d1, added, target, transport).0.log, |d.log|);
    }
  }

  lemma RestoreStays(b: Backend, d: Device, previous: set<Pair>)
    requires PortExclusive(d.table) && PortExclusive(previous)
    ensures var d' := Restore(b, d, previous).0; d.log <= d'.log && StaysExclusive(d'.log, |d.log|)
  {
    RestoreConfined(b, d, previous, d.table);
    ExclusiveThroughout(Restore(b, d, previous).0.log, |d.log|, previous, d.table);
  }

  lemma FittingStays(b: Backend, d: Device, previous: set<Pair>, target: set<Pair>, strategy: Strategy, delay: int,
                     transport: Transport)
    requires Accepted(b, strategy, delay, transport) && PortExclusive(d.table) && PortExclusive(previous)
    requires Fits(b, d.table, previous, target, strategy, delay, transport)
    ensures var d' := Apply(b, d, previous, target, strategy, delay, transport).0;
            KeptExclusive(d, d')
  {
    var (d1, ok, _) := Update(b, d, previous, target, strategy, delay, transport);
    UpdateStays(b, d, previous, target, strategy, delay, transport);
    if !ok {
      RestoreStays(b, d1, previous);
      StaysOn(d1.log, Restore(b, d1, previous).0.log, |d.log|);
      RestoreLeavesPart(b, d1, previous);
    }
  }

  /** Whatever fails, this call keeps every port to one peer at every instant. */
  ghost predicate AlwaysExclusive(b: Backend, table: set<Pair>, previous: set<Pair>, target: set<Pair>,
                                  strategy: Strategy, delay: int, transport: Transport)
  {
    forall script ::
      StaysExclusive(Apply(b, Device(table, script, []), previous, target, strategy, delay, transport).0.log, 0)
  }

  /** The script under which a plan gets as far as it can: the first n requests work, and should the
      next one fail, it fails with everything applicable written. */
  function AsFarAsPossible(n: nat, added: set<Pair>): (script: seq<Fault>)
    ensures forall k: nat :: FaultAt(script, k).works
    ensures FaultAt(script, n).applied == added
  {
    seq(n, _ => Fault(true, {})) + [Fault(true, added)]
  }

  /** A sequential insert that no request disturbs reaches all of its untaken entries, and the table it
      leaves is the one after its last request. */
  lemma {:induction false} InsertsReach(d: Device, ordered: seq<Pair>)
    requires forall i, j | 0 <= i < j < |ordered| :: ordered[i] != ordered[j]
    requires forall k: nat :: FaultAt(d.script, k).works
    ensures SendAll(d, Insert, ordered).0.table == d.table + Elements(Untaken(d.table, ordered))
    decreases |ordered|
  {
    if ordered != [] {
      var p, rest := ordered[0], ordered[1..];
      var (d1, ok) := Send(d, Insert, {p});
      if p in d.table {
        assert d1.table == d.table;
      } else {
        assert ok && d1.table == d.table + {p};
        InsertsReach(d1, rest);
        assert p !in rest;
        UntakenAfter(d.table, p, rest);
        assert Elements(Untaken(d.table, ordered)) == {p} + Elements(Untaken(d.table, rest));
      }
    }
  }

  lemma InsertPhaseReaches(d: Device, added: set<Pair>, transport: Transport)
    requires forall k: nat :: FaultAt(d.script, k).works
    requires FaultAt(d.script, |d.log|).applied == added
    ensures WritePairs(d, Insert, added, transport).0.table == d.table + Reach(d.table, added, transport)
  {
    SortedLists(added);
    if transport != NATIVE_BATCH { InsertsReach(d, Sorted(added)); }
  }

  /** The table is always one end of the last request. */
  ghost predicate EndsAtLast(d: Device, d': Device) {
    && d.log <= d'.log
    && (|d'.log| == |d.log| ==> d'.table == d.table)
    && (|d'.log| > |d.log| ==> d'.log[|d'.log| - 1].after == d'.table)
  }

  lemma {:induction false} SendAllEnds(d: Device, op: Operation, ordered: seq<Pair>)
    ensures EndsAtLast(d, SendAll(d, op, ordered).0)
    decreases |ordered|
  {
    if ordered != [] {
      var (d1, ok) := Send(d, op, {ordered[0]});
      if ok { SendAllEnds(d1, op, ordered[1..]); }
    }
  }

  lemma WritePairsEnds(d: Device, op: Operation, pairs: set<Pair>, transport: Transport)
    ensures EndsAtLast(d, WritePairs(d, op, pairs, transport).0)
  {
    SendAllEnds(d, op, Sorted(pairs));
  }

  /** The log of a call contains that of its phases. */
  lemma PhasesInLog(b: Backend, d: Device, previous: set<Pair>, target: set<Pair>, strategy: Strategy, delay: int,
                    transport: Transport)
    requires Accepted(b, strategy, delay, transport) && Pauses(b, delay)
    requires WritePairs(d, Delete, Removed(strategy, previous, target), transport).1
    ensures var d1 := WritePairs(d, Delete, Removed(strategy, previous, target), transport).0;
            var d2 := WritePairs(d1, Insert, Added(strategy, previous, target), transport).0;
            d.log <= d1.log <= d2.log <= Apply(b, d, previous, target, strategy, delay, transport).0.log
  {
    var removed, added := Removed(strategy, previous, target), Added(strategy, previous, target);
    var d1 := WritePairs(d, Delete, removed, transport).0;
    var (d2, ok, _) := WritePairs(d1, Insert, added, transport);
    WritePairsTraced(d, Delete, removed, transport);
    WritePairsTraced(d1, Insert, added, transport);
    var (d3, done, _) := Update(b, d, previous, target, strategy, delay, transport);
    assert d2.log <= d3.log;
    RestoreTraced(b, d3, previous);
  }

  /** The request after which the table holds too much. */
  lemma MisfitShows(b: Backend, table: set<Pair>, previous: set<Pair>, target: set<Pair>, strategy: Strategy,
                    delay: int, transport: Transport) returns (script: seq<Fault>)
    requires Accepted(b, strategy, delay, transport) && PortExclusive(table)
    requires !Fits(b, table, previous, target, strategy, delay, transport)
    ensures var log := Apply(b, Device(table, script, []), previous, target, strategy, delay, transport).0.log;
            !StaysExclusive(log, 0)
  {
    var removed, added := Removed(strategy, previous, target), Added(strategy, previous, target);
    script := AsFarAsPossible(RequestCount(removed, transport), added);
    var d := Device(table, script, []);
    WritePairsSmooth(d, Delete, removed, transport);
    WritePairsOutcome(d, Delete, removed, transport);
    var d1 := WritePairs(d, Delete, removed, transport).0;
    InsertPhaseReaches(d1, added, transport);
    WritePairsEnds(d1, Insert, added, transport);
    WritePairsTraced(d1, Insert, added, transport);
    WritePairsRecorded(d1, Insert, added, transport);
    var d2 := WritePairs(d1, Insert, added, transport).0;
    if |d2.log| == |d1.log| { PartExclusive(d2.table, table); }
    PhasesInLog(b, d, previous, target, strategy, delay, transport);
    var log := Apply(b, d, previous, target, strategy, delay, transport).0.log;
    var last := |d2.log| - 1;
    assert log[last] == d2.log[last] && Instant(log[last], d2.table);
  }

  /** From an exclusive table that need not be the previous set: a call keeps every port to one peer,
      whatever fails, exactly if the planned deletions do not all apply, or its pause cannot be taken,
      or what is left then and what the insert phase can bring in are exclusive together. */
  lemma AlwaysExclusiveIff(b: Backend, table: set<Pair>, previous: set<Pair>, target: set<Pair>,
                           strategy: Strategy, delay: int, transport: Transport)
    requires Accepted(b, strategy, delay, transport) && PortExclusive(table) && PortExclusive(previous)
    ensures AlwaysExclusive(b, table, previous, target, strategy, delay, transport)
            <==> Fits(b, table, previous, target, strategy, delay, transport)
  {
    if Fits(b, table, previous, target, strategy, delay, transport) {
      forall script
        ensures StaysExclusive(
                  Apply(b, Device(table, script, []), previous, target, strategy, delay, transport).0.log, 0)
      {
        FittingStays(b, Device(table, script, []), previous, target, strategy, delay, transport);
      }
    } else {
      var script := MisfitShows(b, table, previous, target, strategy, delay, transport);
      assert !StaysExclusive(
          Apply(b, Device(table, script, []), previous, target, strategy, delay, transport).0.log, 0);
    }
  }
}
