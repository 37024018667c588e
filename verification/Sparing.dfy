/** What a transition leaves alone, and what exactly it writes: told from the device log, for every
    fault script. */
module Sparing {
  import opened DeviceTable
  import opened Transaction

  // ---------------------------------------------------------------- the log of a phase

  /** At every instant since `from` the table holds these entries. */
  ghost predicate Spares(log: seq<Request>, from: nat, kept: set<Pair>) {
    forall k, table | from <= k < |log| && Instant(log[k], table) :: kept <= table
  }

  /** The entries that requests of this kind have named since `from`. */
  function Named(log: seq<Request>, from: nat, op: Operation): set<Pair> {
    set k, p | from <= k < |log| && log[k].op == op && p in log[k].pairs :: p
  }

  /** The write requests since `from` name single entries. */
  predicate OneByOne(log: seq<Request>, from: nat) {
    forall k | from <= k < |log| && log[k].op != Read :: |log[k].pairs| == 1
  }

  /** Of each kind there is at most one write request since `from`. */
  predicate AtMostOneBatch(log: seq<Request>, from: nat) {
    forall j, k | from <= j < k < |log| && log[j].op != Read :: log[j].op != log[k].op
  }

  /** The device has gone on from d to d', and has spared these entries. */
  ghost predicate GoneOn(d: Device, d': Device, kept: set<Pair>) {
    Extends(d, d') && Spares(d'.log, |d.log|, kept) && kept <= d'.table
  }

  lemma GoneOnOn(d: Device, d1: Device, d2: Device, kept: set<Pair>)
    requires GoneOn(d, d1, kept) && GoneOn(d1, d2, kept)
    ensures GoneOn(d, d2, kept)
  {
    forall k, table | |d.log| <= k < |d2.log| && Instant(d2.log[k], table) ensures kept <= table {
      if k < |d1.log| { assert Instant(d1.log[k], table); }
    }
  }

  lemma ReadSpares(d: Device, kept: set<Pair>)
    requires kept <= d.table
    ensures GoneOn(d, Send(d, Read, {}).0, kept)
  {
  }

  lemma {:induction false} SendAllSpares(d: Device, op: Operation, ordered: seq<Pair>, kept: set<Pair>)
    requires op != Read && kept <= d.table && (op == Delete ==> kept !! Elements(ordered))
    ensures GoneOn(d, SendAll(d, op, ordered).0, kept)
    decreases |ordered|
  {
    if ordered != [] {
      var (d1, ok) := Send(d, op, {ordered[0]});
      assert ordered[0] in Elements(ordered);
      assert GoneOn(d, d1, kept);
      if ok {
        SendAllSpares(d1, op, ordered[1..], kept);
        GoneOnOn(d, d1, SendAll(d1, op, ordered[1..]).0, kept);
      }
    }
  }

  lemma WritePairsSpares(d: Device, op: Operation, pairs: set<Pair>, transport: Transport, kept: set<Pair>)
    requires op != Read && kept <= d.table && (op == Delete ==> kept !! pairs)
    ensures GoneOn(d, WritePairs(d, op, pairs, transport).0, kept)
  {
    SortedLists(pairs);
    if transport != NATIVE_BATCH { SendAllSpares(d, op, Sorted(pairs), kept); }
  }

  lemma InstallSpares(readback: bool, d: Device, added: set<Pair>, expected: set<Pair>, transport: Transport,
                      kept: set<Pair>)
    requires kept <= d.table
    ensures GoneOn(d, Install(readback, d, added, expected, transport).0, kept)
  {
    var (d1, ok, _) := WritePairs(d, Insert, added, transport);
    WritePairsSpares(d, Insert, added, transport, kept);
    if ok && readback {
      ReadSpares(d1, kept);
      GoneOnOn(d, d1, Verify(d1, expected).0, kept);
    }
  }

  // ---------------------------------------------------------------- sparing

  lemma RestoreFromSpares(d: Device, previous: set<Pair>, transport: Transport, kept: set<Pair>)
    requires kept <= d.table && kept <= previous
    ensures GoneOn(d, RestoreFrom(d, previous, transport).0, kept)
  {
    var (d1, ok, _) := WritePairs(d, Delete, d.table - previous, transport);
    WritePairsSpares(d, Delete, d.table - previous, transport, kept);
    if ok {
      InstallSpares(true, d1, previous - d.table, previous, transport, kept);
      GoneOnOn(d, d1, Install(true, d1, previous - d.table, previous, transport).0, kept);
    }
  }

  /** The rollback restores by difference: from any table, whatever fails, every entry that is in the
      table and belongs there stays at every instant. */
  lemma RestoreSpares(b: Backend, d: Device, previous: set<Pair>)
    ensures GoneOn(d, Restore(b, d, previous).0, d.table * previous)
  {
    RestoreSparesAll(b, d, previous, d.table * previous);
  }

  lemma RestoreSparesAll(b: Backend, d: Device, previous: set<Pair>, kept: set<Pair>)
    requires kept <= d.table && kept <= previous
    ensures GoneOn(d, Restore(b, d, previous).0, kept)
  {
    var (d1, ok) := Send(d, Read, {});
    ReadSpares(d, kept);
    if ok {
      RestoreFromSpares(d1, previous, RestoreTransport(b), kept);
      GoneOnOn(d, d1, RestoreFrom(d1, previous, RestoreTransport(b)).0, kept);
    }
  }

  /** A DELTA transition never interrupts what both sets share: it stays in the table at every instant
      of update and rollback, whatever fails. */
  lemma DeltaSpares(b: Backend, d: Device, previous: set<Pair>, target: set<Pair>, delay: int, transport: Transport)
    requires previous * target <= d.table
    ensures GoneOn(d, Apply(b, d, previous, target, DELTA, delay, transport).0, previous * target)
  {
    var kept := previous * target;
    if Accepted(b, DELTA, delay, transport) {
      var removed, added := Removed(DELTA, previous, target), Added(DELTA, previous, target);
      var (d1, ok, _) := WritePairs(d, Delete, removed, transport);
      WritePairsSpares(d, Delete, removed, transport, kept);
      if ok {
        InstallSpares(b.readback, d1, added, target, transport, kept);
        GoneOnOn(d, d1, Install(b.readback, d1, added, target, transport).0, kept);
      }
      var (d2, done, _) := Update(b, d, previous, target, DELTA, delay, transport);
      if !done {
        RestoreSparesAll(b, d2, previous, kept);
        GoneOnOn(d, d2, Restore(b, d2, previous).0, kept);
      }
    }
  }

  // ---------------------------------------------------------------- what is written

  /** A phase of requests of one kind, which together name these entries when it succeeds. */
  ghost predicate Phase(d: Device, d': Device, ok: bool, op: Operation, pairs: set<Pair>) {
    && Extends(d, d')
    && (forall k | |d.log| <= k < |d'.log| :: d'.log[k].op == op && d'.log[k].pairs <= pairs)
    && (ok ==> Named(d'.log, |d.log|, op) == pairs)
  }

  lemma NamedOn(log1: seq<Request>, log2: seq<Request>, from: nat, op: Operation)
    requires from <= |log1| && log1 <= log2
    ensures Named(log2, from, op) == Named(log1, from, op) + Named(log2, |log1|, op)
  {
    forall p | p in Named(log2, from, op) ensures p in Named(log1, from, op) + Named(log2, |log1|, op) {
      var k :| from <= k < |log2| && log2[k].op == op && p in log2[k].pairs;
      assert k < |log1| ==> log1[k] == log2[k];
    }
    forall p | p in Named(log1, from, op) ensures p in Named(log2, from, op) {
      var k :| from <= k < |log1| && log1[k].op == op && p in log1[k].pairs;
      assert log2[k] == log1[k];
    }
  }

  lemma OneRequest(d: Device, op: Operation, pairs: set<Pair>)
    ensures var (d', ok) := Send(d, op, pairs); Phase(d, d', ok, op, pairs)
  {
    var d' := Send(d, op, pairs).0;
    assert d'.log[|d.log|].op == op && d'.log[|d.log|].pairs == pairs;
  }

  lemma {:induction false} SendAllPhase(d: Device, op: Operation, ordered: seq<Pair>)
    ensures var (d', ok) := SendAll(d, op, ordered);
            Phase(d, d', ok, op, Elements(ordered)) && OneByOne(d'.log, |d.log|)
    decreases |ordered|
  {
    if ordered != [] {
      var p, rest := ordered[0], ordered[1..];
      var (d1, ok1) := Send(d, op, {p});
      OneRequest(d, op, {p});
      assert Elements(ordered) == {p} + Elements(rest);
      if ok1 {
        SendAllPhase(d1, op, rest);
        NamedOn(d1.log, SendAll(d1, op, rest).0.log, |d.log|, op);
      }
    }
  }

  lemma WritePairsPhase(d: Device, op: Operation, pairs: set<Pair>, transport: Transport)
    ensures var (d', ok, _) := WritePairs(d, op, pairs, transport);
            && Phase(d, d', ok, op, pairs)
            && (if transport == NATIVE_BATCH then |d'.log| <= |d.log| + 1 else OneByOne(d'.log, |d.log|))
  {
    SortedLists(pairs);
    if transport == NATIVE_BATCH {
      if pairs != {} { OneRequest(d, op, pairs); }
    } else {
      SendAllPhase(d, op, Sorted(pairs));
    }
  }

  /** Two phases and perhaps a read, one after the other. */
  ghost predicate TwoPhases(d: Device, d': Device, ok: bool, removed: set<Pair>, added: set<Pair>, transport: Transport)
  {
    && Extends(d, d')
    && (forall k | |d.log| <= k < |d'.log| ::
          && (d'.log[k].op == Delete ==> d'.log[k].pairs <= removed)
          && (d'.log[k].op == Insert ==> d'.log[k].pairs <= added))
    && (ok ==> Named(d'.log, |d.log|, Delete) == removed && Named(d'.log, |d.log|, Insert) == added)
    && (if transport == NATIVE_BATCH then AtMostOneBatch(d'.log, |d.log|) else OneByOne(d'.log, |d.log|))
  }

  lemma PhasesWritten(readback: bool, d: Device, removed: set<Pair>, added: set<Pair>, expected: set<Pair>,
                      transport: Transport)
    ensures var (d1, deleted, _) := WritePairs(d, Delete, removed, transport);
            var (d2, done, _) := Install(readback, d1, added, expected, transport);
            && TwoPhases(d, d1, false, removed, added, transport)
            && (deleted ==> TwoPhases(d, d2, done, removed, added, transport))
  {
    var (d1, deleted, _) := WritePairs(d, Delete, removed, transport);
    var (d2, inserted, _) := WritePairs(d1, Insert, added, transport);
    WritePairsPhase(d, Delete, removed, transport);
    WritePairsPhase(d1, Insert, added, transport);
    TwoPhasesOn(d, d1, d2, deleted, inserted, removed, added, transport);
    if deleted && inserted && readback {
      ThenRead(d, d2, removed, added, transport);
    }
  }

  lemma TwoPhasesOn(d: Device, d1: Device, d2: Device, deleted: bool, inserted: bool, removed: set<Pair>,
                    added: set<Pair>, transport: Transport)
    requires Phase(d, d1, deleted, Delete, removed) && Phase(d1, d2, inserted, Insert, added)
    requires transport == NATIVE_BATCH ==> |d1.log| <= |d.log| + 1 && |d2.log| <= |d1.log| + 1
    requires transport != NATIVE_BATCH ==> OneByOne(d1.log, |d.log|) && OneByOne(d2.log, |d1.log|)
    ensures TwoPhases(d, d1, false, removed, added, transport)
    ensures TwoPhases(d, d2, deleted && inserted, removed, added, transport)
  {
    NamedOn(d1.log, d2.log, |d.log|, Delete);
    NamedOn(d1.log, d2.log, |d.log|, Insert);
    assert Named(d1.log, |d.log|, Insert) == {} && Named(d2.log, |d1.log|, Delete) == {};
    forall k | |d.log| <= k < |d2.log|
      ensures d2.log[k].op == (if k < |d1.log| then Delete else Insert)
      ensures d2.log[k].pairs <= if k < |d1.log| then removed else added
      ensures transport != NATIVE_BATCH ==> |d2.log[k].pairs| == 1
    {
      if k < |d1.log| { assert d2.log[k] == d1.log[k]; }
    }
  }

  lemma ThenRead(d: Device, d1: Device, removed: set<Pair>, added: set<Pair>, transport: Transport)
    requires TwoPhases(d, d1, true, removed, added, transport)
    ensures TwoPhases(d, Send(d1, Read, {}).0, true, removed, added, transport)
  {
    var d2 := Send(d1, Read, {}).0;
    NamedOn(d1.log, d2.log, |d.log|, Delete);
    NamedOn(d1.log, d2.log, |d.log|, Insert);
    assert Named(d2.log, |d1.log|, Insert) == {} && Named(d2.log, |d1.log|, Delete) == {};
  }

  /** What a completed transition has written, and the counters that go with it: FULL deletes the whole
      previous set and inserts the whole target, DELTA exactly the difference. */
  lemma WritesExactly(b: Backend, d: Device, previous: set<Pair>, target: set<Pair>, strategy: Strategy, delay: int,
                      transport: Transport)
    ensures var (d', outcome) := Apply(b, d, previous, target, strategy, delay, transport);
            outcome.Returned? ==>
              var deleted, inserted := Named(d'.log, |d.log|, Delete), Named(d'.log, |d.log|, Insert);
              && (strategy == FULL ==> deleted == previous && inserted == target && outcome.timing.kept == 0)
              && (strategy == DELTA ==>
                    && deleted == previous - target && inserted == target - previous
                    && outcome.timing.kept == |previous * target|)
              && outcome.timing.deletes == |deleted| && outcome.timing.inserts == |inserted|
              && outcome.timing.active == |target|
              && (transport == SEQUENTIAL ==> OneByOne(d'.log, |d.log|))
              && (transport == NATIVE_BATCH ==> AtMostOneBatch(d'.log, |d.log|))
  {
    PhasesWritten(b.readback, d, Removed(strategy, previous, target), Added(strategy, previous, target), target,
                  transport);
  }

  /** What a rollback writes: nothing but the difference between what it has read and the previous set,
      all of it when it succeeds; entry by entry over P4Runtime, in batches over BF Runtime. */
  lemma RestoreWritesExactly(b: Backend, d: Device, previous: set<Pair>)
    ensures var (d', restored) := Restore(b, d, previous);
            && TwoPhases(d, d', restored, d.table - previous, previous - d.table,
                         if b.batchRestore then NATIVE_BATCH else SEQUENTIAL)
  {
    var (d1, ok) := Send(d, Read, {});
    var surplus, missing, transport := d.table - previous, previous - d.table, RestoreTransport(b);
    if ok {
      PhasesWritten(true, d1, surplus, missing, previous, transport);
      AfterRead(d, d1, RestoreFrom(d1, previous, transport).0, RestoreFrom(d1, previous, transport).1, surplus, missing,
                transport);
    }
  }

  lemma AfterRead(d: Device, d1: Device, d2: Device, ok: bool, removed: set<Pair>, added: set<Pair>,
                  transport: Transport)
    requires d1 == Send(d, Read, {}).0 && TwoPhases(d1, d2, ok, removed, added, transport)
    ensures TwoPhases(d, d2, ok, removed, added, transport)
  {
    NamedOn(d1.log, d2.log, |d.log|, Delete);
    NamedOn(d1.log, d2.log, |d.log|, Insert);
    assert d2.log[|d.log|] == d1.log[|d.log|] && d1.log[|d.log|].op == Read;
    assert Named(d1.log, |d.log|, Delete) == {} && Named(d1.log, |d.log|, Insert) == {};
  }

  // ---------------------------------------------------------------- the two adapters

  /** The last request was a read that worked. */
  predicate EndsWithRead(log: seq<Request>) {
    log != [] && log[|log| - 1].op == Read && log[|log| - 1].ok
  }

  /** The P4Runtime adapter from the previous set, without failing requests: it never pauses, offers native
      batches if configured so, and reads back what it has written. */
  lemma P4AppDoes(nativeBatch: bool, d: Device, target: set<Pair>, strategy: Strategy, delay: int, transport: Transport)
    ensures var (d', outcome) := Apply(P4App(nativeBatch), d, d.table, target, strategy, delay, transport);
            && (Failures(d'.log) == Failures(d.log) ==>
                  (outcome.Returned? <==>
                     && (strategy == FULL || strategy == DELTA) && delay == 0
                     && (transport == SEQUENTIAL || (transport == NATIVE_BATCH && nativeBatch))))
            && (outcome.Returned? ==> d'.table == target && EndsWithRead(d'.log))
  {
    UndisturbedReturnsIff(P4App(nativeBatch), d, target, strategy, delay, transport);
    ApplyOutcome(P4App(nativeBatch), d, d.table, target, strategy, delay, transport);
  }

  /** The BF Runtime adapter: it can pause for up to a second, always offers native batches, and reads back
      unless writes are only acknowledged, in which case it sends no read at all. */
  lemma BfrtDoes(acknowledgedOnly: bool, d: Device, target: set<Pair>, strategy: Strategy, delay: int,
                 transport: Transport)
    ensures var (d', outcome) := Apply(BFRT(acknowledgedOnly), d, d.table, target, strategy, delay, transport);
            && (Failures(d'.log) == Failures(d.log) ==>
                  (outcome.Returned? <==>
                     && (strategy == FULL || strategy == DELTA) && 0 <= delay <= 1_000_000
                     && (transport == SEQUENTIAL || transport == NATIVE_BATCH)))
            && (outcome.Returned? ==>
                  && d'.table == target && |d.log| <= |d'.log|
                  && (if acknowledgedOnly then NoReads(d'.log, |d.log|) else EndsWithRead(d'.log)))
  {
    UndisturbedReturnsIff(BFRT(acknowledgedOnly), d, target, strategy, delay, transport);
    ApplyOutcome(BFRT(acknowledgedOnly), d, d.table, target, strategy, delay, transport);
    var removed, added := Removed(strategy, d.table, target), Added(strategy, d.table, target);
    var d1 := WritePairs(d, Delete, removed, transport).0;
    WritePairsPhase(d, Delete, removed, transport);
    WritePairsPhase(d1, Insert, added, transport);
  }

  predicate NoReads(log: seq<Request>, from: nat) {
    forall k | from <= k < |log| :: log[k].op != Read
  }

  /** How the two adapters roll back. */
  lemma RollbackTransports(configured: bool, d: Device, previous: set<Pair>)
    ensures OneByOne(Restore(P4App(configured), d, previous).0.log, |d.log|)
    ensures AtMostOneBatch(Restore(BFRT(configured), d, previous).0.log, |d.log|)
  {
    RestoreWritesExactly(P4App(configured), d, previous);
    RestoreWritesExactly(BFRT(configured), d, previous);
  }
}
