/**
The switch table that every layer tries to keep in step with its own copy.

A device is a set of directed port pairs together with two things that make every fault
explicit: a fault script, which decides the fate of the k-th request ever sent, and the log of
the requests sent so far.  A statement about every script is a statement about every way in
which writes and reads may fail.
*/
module DeviceTable {
  datatype Pair = Pair(ingress: nat, egress: nat)

  datatype Operation = Delete | Insert | Read

  /** The fate of one request.  A request that does not work reports an error; `applied` says
      which of its entries reached the table all the same. */
  datatype Fault = Fault(works: bool, applied: set<Pair>)

  datatype Request = Request(op: Operation, pairs: set<Pair>, before: set<Pair>, after: set<Pair>, ok: bool)

  datatype Device = Device(table: set<Pair>, script: seq<Fault>, log: seq<Request>)

  function FaultAt(script: seq<Fault>, k: nat): Fault {
    if k < |script| then script[k] else Fault(true, {})
  }

  /** The entries of a request that the device can carry out: a missing entry cannot be
      deleted and a present one cannot be inserted again. */
  function Applicable(table: set<Pair>, op: Operation, pairs: set<Pair>): set<Pair> {
    match op
    case Delete => pairs * table
    case Insert => pairs - table
    case Read => pairs
  }

  function Changed(table: set<Pair>, op: Operation, pairs: set<Pair>): set<Pair> {
    match op
    case Delete => table - pairs
    case Insert => table + pairs
    case Read => table
  }

  /** One request.  It succeeds only when it works and every entry is applicable; otherwise
      any part of the applicable entries may have been written. */
  function Send(d: Device, op: Operation, pairs: set<Pair>): (Device, bool) {
    var fault := FaultAt(d.script, |d.log|);
    var can := Applicable(d.table, op, pairs);
    var ok := fault.works && can == pairs;
    var after := Changed(d.table, op, if ok then pairs else fault.applied * can);
    (Device(after, d.script, d.log + [Request(op, pairs, d.table, after, ok)]), ok)
  }

  /** One write request per entry, stopping at the first error. */
  function SendAll(d: Device, op: Operation, ordered: seq<Pair>): (Device, bool)
    decreases |ordered|
  {
    if ordered == [] then (d, true)
    else
      var (d1, ok) := Send(d, op, {ordered[0]});
      if ok then SendAll(d1, op, ordered[1..]) else (d1, false)
  }

  function Elements(ordered: seq<Pair>): set<Pair> {
    set p | p in ordered
  }

  function Failures(log: seq<Request>): nat {
    if log == [] then 0
    else Failures(log[..|log| - 1]) + if log[|log| - 1].ok then 0 else 1
  }

  /** Tables the device may hold while a request is being carried out, entry by entry. */
  ghost predicate Instant(r: Request, table: set<Pair>) {
    r.after <= table <= r.before || r.before <= table <= r.after
  }

  /** At every instant of every request from position `from` on, the table is part of `a` or
      part of `b`. */
  ghost predicate Confined(log: seq<Request>, from: nat, a: set<Pair>, b: set<Pair>) {
    forall k, table | from <= k < |log| && Instant(log[k], table) :: table <= a || table <= b
  }

  /** No write request since position `from`. */
  predicate OnlyReads(log: seq<Request>, from: nat) {
    forall k | from <= k < |log| :: log[k].op == Read
  }

  lemma OnlyReadsOn(first: seq<Request>, second: seq<Request>, third: seq<Request>)
    requires first <= second <= third
    ensures OnlyReads(third, |first|) <==> OnlyReads(second, |first|) && OnlyReads(third, |second|)
  {
    forall k | |first| <= k < |second| ensures third[k].op == Read <==> second[k].op == Read {
      assert third[k] == second[k];
    }
    if OnlyReads(third, |first|) {
      forall k | |first| <= k < |second| ensures second[k].op == Read { assert third[k].op == Read; }
    }
  }

  ghost predicate Extends(d: Device, d': Device) {
    d.script == d'.script && d.log <= d'.log
  }

  lemma SendFailures(d: Device, op: Operation, pairs: set<Pair>)
    ensures var (d', ok) := Send(d, op, pairs);
            Failures(d'.log) == Failures(d.log) + if ok then 0 else 1
  {
    var (d', ok) := Send(d, op, pairs);
    assert d'.log[..|d'.log| - 1] == d.log;
  }

  /** A write phase either carried out every entry without an error, or stopped at its first
      error with part of them carried out. */
  ghost predicate WriteOutcome(d: Device, d': Device, ok: bool, op: Operation, pairs: set<Pair>) {
    && d.script == d'.script && |d.log| <= |d'.log|
    && (op == Delete ==> d.table - pairs <= d'.table <= d.table)
    && (op == Insert ==> d.table <= d'.table <= d.table + pairs)
    && (ok ==> Applicable(d.table, op, pairs) == pairs && d'.table == Changed(d.table, op, pairs))
    && Failures(d'.log) == Failures(d.log) + if ok then 0 else 1
  }

  /** The requests a write phase added to the log. */
  ghost predicate Recorded(d: Device, d': Device, op: Operation, pairs: set<Pair>) {
    && Extends(d, d')
    && forall k | |d.log| <= k < |d'.log| ::
         && (op == Delete ==> d'.log[k].after <= d'.log[k].before <= d.table)
         && (op == Insert ==> d'.log[k].before <= d'.log[k].after <= d.table + pairs)
  }

  lemma SendOutcome(d: Device, op: Operation, pairs: set<Pair>)
    requires op != Read
    ensures var (d', ok) := Send(d, op, pairs); WriteOutcome(d, d', ok, op, pairs) && Recorded(d, d', op, pairs)
  {
    SendFailures(d, op, pairs);
  }

  lemma {:induction false} SendAllOutcome(d: Device, op: Operation, ordered: seq<Pair>)
    requires op != Read
    requires forall i, j | 0 <= i < j < |ordered| :: ordered[i] != ordered[j]
    ensures var (d', ok) := SendAll(d, op, ordered);
            && WriteOutcome(d, d', ok, op, Elements(ordered))
            && (ok ==> |d'.log| == |d.log| + |ordered|)
    decreases |ordered|
  {
    if ordered != [] {
      var p, rest := ordered[0], ordered[1..];
      SendOutcome(d, op, {p});
      var (d1, ok1) := Send(d, op, {p});
      assert Elements(ordered) == {p} + Elements(rest);
      if ok1 {
        SendAllOutcome(d1, op, rest);
        var (d', ok) := SendAll(d1, op, rest);
        assert p !in Elements(rest);
      }
    }
  }

  lemma {:induction false} SendAllRecorded(d: Device, op: Operation, ordered: seq<Pair>)
    requires op != Read
    ensures Recorded(d, SendAll(d, op, ordered).0, op, Elements(ordered))
    decreases |ordered|
  {
    if ordered != [] {
      var p, rest := ordered[0], ordered[1..];
      SendOutcome(d, op, {p});
      var (d1, ok1) := Send(d, op, {p});
      assert Elements(ordered) == {p} + Elements(rest);
      if ok1 { SendAllRecorded(d1, op, rest); }
    }
  }

  /** Without faults, applicable writes all succeed. */
  lemma {:induction false} SendAllSmooth(d: Device, op: Operation, ordered: seq<Pair>)
    requires op != Read
    requires forall i, j | 0 <= i < j < |ordered| :: ordered[i] != ordered[j]
    requires Applicable(d.table, op, Elements(ordered)) == Elements(ordered)
    requires forall k | |d.log| <= k < |d.log| + |ordered| :: FaultAt(d.script, k).works
    ensures SendAll(d, op, ordered).1
    decreases |ordered|
  {
    if ordered != [] {
      var p, rest := ordered[0], ordered[1..];
      assert Elements(ordered) == {p} + Elements(rest);
      assert p in Elements(ordered);
      var (d1, ok1) := Send(d, op, {p});
      assert ok1;
      assert p !in Elements(rest);
      SendAllSmooth(d1, op, rest);
    }
  }

  predicate Earlier(p: Pair, q: Pair) {
    p.ingress < q.ingress || (p.ingress == q.ingress && p.egress < q.egress)
  }

  predicate Earliest(s: set<Pair>, p: Pair) {
    p in s && forall q | q in s && q != p :: Earlier(p, q)
  }

  lemma EarliestWith(s: set<Pair>, x: Pair, p: Pair)
    requires x in s && Earliest(s - {x}, p)
    ensures Earliest(s, if Earlier(p, x) then p else x)
  {
    var least := if Earlier(p, x) then p else x;
    forall q | q in s && q != least ensures Earlier(least, q) {
      if q != x && q != p { assert q in s - {x}; }
    }
  }

  lemma {:induction false} EarliestExists(s: set<Pair>)
    requires s != {}
    ensures exists p :: Earliest(s, p)
    decreases |s|
  {
    var x :| x in s;
    if s == {x} {
      assert Earliest(s, x);
    } else {
      assert |s - {x}| < |s| && s - {x} != {};
      EarliestExists(s - {x});
      var p :| Earliest(s - {x}, p);
      EarliestWith(s, x, p);
    }
  }

  /** The order in which Python's sorted() lists a set of pairs. */
  function Sorted(s: set<Pair>): seq<Pair>
    decreases |s|
  {
    if s == {} then []
    else
      EarliestExists(s);
      var p :| Earliest(s, p);
      [p] + Sorted(s - {p})
  }

  predicate Increasing(ordered: seq<Pair>) {
    forall i, j | 0 <= i < j < |ordered| :: Earlier(ordered[i], ordered[j])
  }

  lemma FirstInOrder(p: Pair, rest: seq<Pair>)
    requires Increasing(rest) && Earliest(Elements(rest) + {p}, p) && p !in Elements(rest)
    ensures Increasing([p] + rest) && Elements([p] + rest) == Elements(rest) + {p}
  {
    var ordered := [p] + rest;
    forall i, j | 0 <= i < j < |ordered| ensures Earlier(ordered[i], ordered[j]) {
      assert rest[j - 1] in Elements(rest);
    }
  }

  lemma {:induction false} SortedInOrder(s: set<Pair>)
    ensures Elements(Sorted(s)) == s && |Sorted(s)| == |s| && Increasing(Sorted(s))
    decreases |s|
  {
    if s != {} {
      EarliestExists(s);
      var p, rest := Sorted(s)[0], Sorted(s)[1..];
      assert Earliest(s, p) && rest == Sorted(s - {p});
      SortedInOrder(s - {p});
      assert Elements(rest) + {p} == s;
      FirstInOrder(p, rest);
      assert Sorted(s) == [p] + rest;
    }
  }

  lemma SortedLists(s: set<Pair>)
    ensures Elements(Sorted(s)) == s && |Sorted(s)| == |s|
    ensures forall i, j | 0 <= i < j < |Sorted(s)| :: Earlier(Sorted(s)[i], Sorted(s)[j])
    ensures forall i, j | 0 <= i < j < |Sorted(s)| :: Sorted(s)[i] != Sorted(s)[j]
  {
    SortedInOrder(s);
  }

  /** The switch as the backends see it: one request at a time, each of which may fail. */
  class Switch {
    var table: set<Pair>
    var log: seq<Request>
    const script: seq<Fault>

    constructor (table: set<Pair>, script: seq<Fault>)
      ensures State() == Device(table, script, [])
    {
      this.table := table;
      this.script := script;
      this.log := [];
    }

    function State(): Device
      reads this
    {
      Device(table, script, log)
    }

    method Write(op: Operation, pairs: set<Pair>) returns (ok: bool)
      requires op != Read
      modifies this
      ensures (State(), ok) == Send(old(State()), op, pairs)
    {
      var before := table;
      var fault := FaultAt(script, |log|);
      var can := Applicable(table, op, pairs);
      ok := fault.works && can == pairs;
      var written := if ok then pairs else fault.applied * can;
      if op == Delete {
        table := table - written;
      } else {
        table := table + written;
      }
      log := log + [Request(op, pairs, before, table, ok)];
    }

    method Fetch() returns (ok: bool, observed: set<Pair>)
      modifies this
      ensures (State(), ok) == Send(old(State()), Read, {})
      ensures observed == table == old(table)
    {
      var fault := FaultAt(script, |log|);
      ok := fault.works;
      observed := table;
      log := log + [Request(Read, {}, table, table, ok)];
    }
  }
}
