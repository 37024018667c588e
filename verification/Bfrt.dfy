/**
The BF Runtime adapter.  It accepts logical port pairs and writes a table keyed by device port
numbers.  Its contracts speak about the logical view of that table: what the adapter does to the
device-numbered table is, seen through the port map, exactly the transition of module
Transaction.
*/
module Bfrt {
  import opened DeviceTable
  import opened Transaction
  import opened Wrappers
  import opened Inventory

  datatype PortMapError = EmptyMap | BadPort | NotOneToOne | NotConsecutive

  /** One configured entry: the logical key and the device number, None when the configured
      value is not an integer. */
  datatype MapEntry = MapEntry(logical: Option<int>, device: Option<int>)

  predicate GoodEntry(e: MapEntry) {
    e.logical.Some? && e.device.Some? && e.logical.value >= 1 && e.device.value >= 0
  }

  predicate AllGood(entries: seq<MapEntry>) {
    forall k | 0 <= k < |entries| :: GoodEntry(entries[k])
  }

  /** A one-to-one map from exactly the ports 1..n. */
  predicate ValidEntries(entries: seq<MapEntry>) {
    && entries != []
    && AllGood(entries)
    && (forall k | 0 <= k < |entries| :: entries[k].logical.value <= |entries|)
    && Distinct(entries)
  }

  ghost predicate PortMap(m: map<nat, nat>) {
    forall a, b | a in m && b in m && m[a] == m[b] :: a == b
  }

  /** The dictionary and the set of device ports after some well-formed entries. */
  function Collected(entries: seq<MapEntry>): (map<nat, nat>, set<nat>)
    requires AllGood(entries)
  {
    if entries == [] then (map[], {})
    else
      var e := entries[|entries| - 1];
      var (ports, devices) := Collected(entries[..|entries| - 1]);
      (ports[e.logical.value := e.device.value], devices + {e.device.value})
  }

  predicate Distinct(entries: seq<MapEntry>) {
    forall i, j | 0 <= i < j < |entries| ::
      entries[i].logical != entries[j].logical && entries[i].device != entries[j].device
  }

  lemma LastEntry(entries: seq<MapEntry>)
    requires entries != []
    ensures forall x :: x in entries <==> x in entries[..|entries| - 1] || x == entries[|entries| - 1]
  {
    assert entries == entries[..|entries| - 1] + [entries[|entries| - 1]];
  }

  lemma {:induction false} CollectedHolds(entries: seq<MapEntry>)
    requires AllGood(entries)
    ensures var (ports, devices) := Collected(entries);
            && (forall a | a in ports :: exists e :: e in entries && e.logical.value == a)
            && (forall d | d in devices :: exists e :: e in entries && e.device.value == d)
            && (forall e | e in entries :: e.logical.value in ports && e.device.value in devices)
  {
    if entries != [] {
      LastEntry(entries);
      CollectedHolds(entries[..|entries| - 1]);
    }
  }

  lemma {:induction false} CollectedOneToOne(entries: seq<MapEntry>)
    requires AllGood(entries) && Distinct(entries)
    ensures var (ports, devices) := Collected(entries);
            && (forall e | e in entries :: e.logical.value in ports && ports[e.logical.value] == e.device.value)
            && (forall a | a in ports :: ports[a] in devices)
            && |ports| == |entries| && PortMap(ports)
  {
    if entries != [] {
      var init, e := entries[..|entries| - 1], entries[|entries| - 1];
      CollectedOneToOne(init);
      CollectedHolds(init);
      var (ports, devices) := Collected(init);
      assert e.logical.value !in ports && e.device.value !in devices;
    }
  }

  lemma OneMoreCollected(entries: seq<MapEntry>, e: MapEntry)
    requires AllGood(entries) && GoodEntry(e)
    ensures AllGood(entries + [e])
    ensures var (ports, devices) := Collected(entries);
            Collected(entries + [e]) == (ports[e.logical.value := e.device.value], devices + {e.device.value})
  {
    assert (entries + [e])[..|entries|] == entries;
  }

  lemma OneMoreDistinct(entries: seq<MapEntry>, e: MapEntry)
    requires Distinct(entries)
    ensures Distinct(entries + [e])
            <==> forall x | x in entries :: x.logical != e.logical && x.device != e.device
  {
    var all := entries + [e];
    if Distinct(all) {
      forall x | x in entries ensures x.logical != e.logical && x.device != e.device {
        var k :| 0 <= k < |entries| && entries[k] == x;
        assert all[k] == x && all[|entries|] == e;
      }
    }
  }

  /** One more entry keeps the ports distinct exactly when the loop finds neither of its ports. */
  lemma OneMoreEntry(entries: seq<MapEntry>, e: MapEntry)
    requires AllGood(entries) && Distinct(entries) && GoodEntry(e)
    ensures var (ports, devices) := Collected(entries);
            Distinct(entries + [e]) <==> e.logical.value !in ports && e.device.value !in devices
  {
    CollectedHolds(entries);
    OneMoreDistinct(entries, e);
    assert forall x | x in entries :: GoodEntry(x);
    assert GoodEntry(e);
  }

  /** Distinct logical ports are 1..n exactly if none of them exceeds n. */
  lemma Consecutive(entries: seq<MapEntry>)
    requires AllGood(entries) && Distinct(entries)
    ensures var keys := Collected(entries).0.Keys;
            keys == Slots(|entries|) <==> forall k | 0 <= k < |entries| :: entries[k].logical.value <= |entries|
  {
    CollectedHolds(entries);
    CollectedOneToOne(entries);
    var keys := Collected(entries).0.Keys;
    if forall k | 0 <= k < |entries| :: entries[k].logical.value <= |entries| {
      forall a | a in keys ensures a in Slots(|entries|) {
        var e :| e in entries && e.logical.value == a;
      }
      SubsetOfSameSize(keys, Slots(|entries|));
    }
    if keys == Slots(|entries|) {
      forall k | 0 <= k < |entries| ensures entries[k].logical.value <= |entries| {
        assert entries[k] in entries;
        assert entries[k].logical.value in keys;
      }
    }
  }

  /** The configured map is accepted exactly when it is a bijection from 1..n to its device
      ports; the error says what is wrong with it. */
  method NormalizePortMap(entries: seq<MapEntry>) returns (r: Result<map<nat, nat>, PortMapError>)
    ensures r.Success? <==> ValidEntries(entries)
    ensures r.Success? ==> PortMap(r.value) && r.value.Keys == Slots(|entries|)
    ensures r.Success? ==> forall e | e in entries :: r.value[e.logical.value] == e.device.value
    ensures r.Failure? && r.error == EmptyMap ==> entries == []
    ensures r.Failure? && r.error == BadPort ==> exists e :: e in entries && !GoodEntry(e)
    ensures r.Failure? && r.error == NotOneToOne ==> !Distinct(entries)
    ensures r.Failure? && r.error == NotConsecutive ==>
              exists e :: e in entries && e.logical.Some? && e.logical.value > |entries|
  {
    if entries == [] {
      return Failure(EmptyMap);
    }
    var result: map<nat, nat> := map[];
    var devicePorts: set<nat> := {};
    var i := 0;
    while i < |entries|
      invariant 0 <= i <= |entries|
      invariant AllGood(entries[..i])
      invariant (result, devicePorts) == Collected(entries[..i])
      invariant Distinct(entries[..i])
    {
      var e := entries[i];
      if !GoodEntry(e) {
        return Failure(BadPort);
      }
      var logical: nat, device: nat := e.logical.value, e.device.value;
      OneMoreEntry(entries[..i], e);
      OneMoreCollected(entries[..i], e);
      assert entries[..i] + [e] == entries[..i + 1];
      if logical in result || device in devicePorts {
        return Failure(NotOneToOne);
      }
      result := result[logical := device];
      devicePorts := devicePorts + {device};
      i := i + 1;
    }
    assert entries[..i] == entries;
    CollectedOneToOne(entries);
    Consecutive(entries);
    if result.Keys != Slots(|result|) {
      return Failure(NotConsecutive);
    }
    return Success(result);
  }

  // ---------------------------------------------------------------- the logical view

  function Universe(m: map<nat, nat>): set<Pair> {
    set a, b | a in m && b in m :: Pair(a, b)
  }

  predicate Known(m: map<nat, nat>, p: Pair) {
    p.ingress in m && p.egress in m
  }

  function LogicalOf(m: map<nat, nat>, device: nat): (logical: nat)
    requires PortMap(m) && device in m.Values
    ensures logical in m && m[logical] == device
  {
    var a :| a in m && m[a] == device; a
  }

  lemma KnownUniverse(m: map<nat, nat>, pairs: set<Pair>)
    ensures pairs <= Universe(m) <==> forall p | p in pairs :: Known(m, p)
  {
    if forall p | p in pairs :: Known(m, p) {
      forall p | p in pairs ensures p in Universe(m) { assert Known(m, p); }
    }
  }

  function DevicePair(m: map<nat, nat>, p: Pair): Pair
    requires Known(m, p)
  {
    Pair(m[p.ingress], m[p.egress])
  }

  /** The device-numbered form of a logical table. */
  function Image(m: map<nat, nat>, pairs: set<Pair>): set<Pair> {
    set p | p in pairs && Known(m, p) :: DevicePair(m, p)
  }

  /** The logical table behind a device-numbered one. */
  function View(m: map<nat, nat>, table: set<Pair>): set<Pair> {
    set p | p in Universe(m) && DevicePair(m, p) in table
  }

  function ViewRequest(m: map<nat, nat>, r: Request): Request {
    Request(r.op, View(m, r.pairs), View(m, r.before), View(m, r.after), r.ok)
  }

  function ViewScript(m: map<nat, nat>, script: seq<Fault>): seq<Fault> {
    seq(|script|, k requires 0 <= k < |script| => Fault(script[k].works, View(m, script[k].applied)))
  }

  function ViewDevice(m: map<nat, nat>, d: Device): Device {
    Device(View(m, d.table), ViewScript(m, d.script),
           seq(|d.log|, k requires 0 <= k < |d.log| => ViewRequest(m, d.log[k])))
  }

  /** Entries that no logical pair maps to. */
  function Unmanaged(m: map<nat, nat>, table: set<Pair>): set<Pair> {
    table - Image(m, Universe(m))
  }

  /** Seen through an accepted port map, a logical set and its device-numbered form are the same
      thing, in both directions. */
  lemma ViewInvertsImage(m: map<nat, nat>, pairs: set<Pair>, table: set<Pair>)
    requires PortMap(m)
    ensures pairs <= Universe(m) ==> View(m, Image(m, pairs)) == pairs
    ensures Unmanaged(m, table) == {} ==> Image(m, View(m, table)) == table
  {
    if pairs <= Universe(m) {
      forall p ensures p in View(m, Image(m, pairs)) <==> p in pairs {
        if p in View(m, Image(m, pairs)) {
          var q :| q in pairs && Known(m, q) && DevicePair(m, q) == DevicePair(m, p);
          assert q == p;
        }
        if p in pairs { assert Known(m, p); }
      }
    }
    if Unmanaged(m, table) == {} {
      forall d ensures d in Image(m, View(m, table)) <==> d in table {
        if d in table {
          assert d in Image(m, Universe(m)) by { assert d !in Unmanaged(m, table); }
          var q :| q in Universe(m) && Known(m, q) && DevicePair(m, q) == d;
          assert q in View(m, table);
        }
      }
    }
  }

  lemma ViewDistributes(m: map<nat, nat>, a: set<Pair>, b: set<Pair>)
    ensures View(m, a - b) == View(m, a) - View(m, b)
    ensures View(m, a + b) == View(m, a) + View(m, b)
    ensures View(m, a * b) == View(m, a) * View(m, b)
  {
  }

  lemma ViewFault(m: map<nat, nat>, d: Device)
    ensures var fault := FaultAt(d.script, |d.log|);
            FaultAt(ViewDevice(m, d).script, |ViewDevice(m, d).log|) == Fault(fault.works, View(m, fault.applied))
  {
    assert View(m, {}) == {};
  }

  /** What a request may write, seen through the map. */
  lemma ApplicableRefines(m: map<nat, nat>, table: set<Pair>, op: Operation, pairs: set<Pair>)
    requires PortMap(m) && pairs <= Universe(m)
    ensures var can := Applicable(table, op, Image(m, pairs));
            && can <= Image(m, Universe(m))
            && View(m, Image(m, pairs)) == pairs
            && View(m, can) == Applicable(View(m, table), op, pairs)
            && (can == Image(m, pairs) <==> View(m, can) == pairs)
  {
    var image := Image(m, pairs);
    var can := Applicable(table, op, image);
    ViewInvertsImage(m, pairs, {});
    ViewDistributes(m, image, table);
    assert can <= image <= Image(m, Universe(m));
    assert Unmanaged(m, can) == {};
    ViewInvertsImage(m, {}, can);
  }

  lemma ChangedRefines(m: map<nat, nat>, table: set<Pair>, op: Operation, written: set<Pair>)
    requires written <= Image(m, Universe(m))
    ensures View(m, Changed(table, op, written)) == Changed(View(m, table), op, View(m, written))
    ensures Unmanaged(m, Changed(table, op, written)) == Unmanaged(m, table)
  {
    ViewDistributes(m, table, written);
  }

  predicate LeavesForeign(m: map<nat, nat>, r: Request, foreign: set<Pair>) {
    Unmanaged(m, r.before) == foreign == Unmanaged(m, r.after)
  }

  /** The device has carried out more requests, none of which has touched a foreign entry. */
  ghost predicate Grew(m: map<nat, nat>, d: Device, d': Device) {
    && d.log <= d'.log && Unmanaged(m, d'.table) == Unmanaged(m, d.table)
    && forall k | |d.log| <= k < |d'.log| :: LeavesForeign(m, d'.log[k], Unmanaged(m, d.table))
  }

  lemma GrewOn(m: map<nat, nat>, d: Device, d1: Device, d2: Device)
    requires Grew(m, d, d1) && Grew(m, d1, d2)
    ensures Grew(m, d, d2)
  {
    forall k | |d.log| <= k < |d2.log| ensures LeavesForeign(m, d2.log[k], Unmanaged(m, d.table)) {
      if k < |d1.log| { assert d2.log[k] == d1.log[k]; }
    }
  }

  /** Part of the device table at an instant of a request, seen through the map. */
  lemma InstantViewed(m: map<nat, nat>, r: Request, table: set<Pair>, a: set<Pair>, b: set<Pair>)
    requires PortMap(m) && LeavesForeign(m, r, {}) && Instant(r, table)
    requires Instant(ViewRequest(m, r), View(m, table)) ==> View(m, table) <= a || View(m, table) <= b
    ensures table <= Image(m, a) || table <= Image(m, b)
  {
    assert Unmanaged(m, table) == {} by {
      assert table <= r.before + r.after;
      assert Unmanaged(m, table) <= Unmanaged(m, r.before) + Unmanaged(m, r.after);
    }
    ViewInvertsImage(m, {}, table);
    assert View(m, table) <= a ==> Image(m, View(m, table)) <= Image(m, a);
    assert View(m, table) <= b ==> Image(m, View(m, table)) <= Image(m, b);
  }

  /** What is confined in the logical view is confined in the device. */
  lemma DeviceConfined(m: map<nat, nat>, d: Device, d': Device, a: set<Pair>, b: set<Pair>)
    requires PortMap(m) && Grew(m, d, d') && Unmanaged(m, d.table) == {}
    requires Confined(ViewDevice(m, d').log, |d.log|, a, b)
    ensures Confined(d'.log, |d.log|, Image(m, a), Image(m, b))
  {
    forall k, table | |d.log| <= k < |d'.log| && Instant(d'.log[k], table)
      ensures table <= Image(m, a) || table <= Image(m, b)
    {
      assert LeavesForeign(m, d'.log[k], {});
      assert ViewDevice(m, d').log[k] == ViewRequest(m, d'.log[k]);
      InstantViewed(m, d'.log[k], table, a, b);
    }
  }

  /** One request for device-numbered entries is, in the logical view, the request for the
      logical entries -- with the same answer, and whatever part of it the fault lets through. */
  lemma SendRefines(m: map<nat, nat>, d: Device, op: Operation, pairs: set<Pair>)
    requires PortMap(m) && pairs <= Universe(m)
    ensures var (d', ok) := Send(d, op, Image(m, pairs));
            && (ViewDevice(m, d'), ok) == Send(ViewDevice(m, d), op, pairs)
            && Grew(m, d, d')
  {
    var image := Image(m, pairs);
    var fault := FaultAt(d.script, |d.log|);
    var can := Applicable(d.table, op, image);
    ViewFault(m, d);
    ApplicableRefines(m, d.table, op, pairs);
    var written := if fault.works && can == image then image else fault.applied * can;
    ViewDistributes(m, fault.applied, can);
    ChangedRefines(m, d.table, op, written);
    var (d', ok) := Send(d, op, image);
    var (v', vok) := Send(ViewDevice(m, d), op, pairs);
    assert ok == vok && View(m, d'.table) == v'.table;
    assert ViewDevice(m, d').log == v'.log;
  }

  lemma PlanRuns(readback: bool, d: Device, d1: Device, d2: Device, removed: set<Pair>, added: set<Pair>,
                 target: set<Pair>, transport: Transport, n: nat, ok: bool, m: nat)
    requires WritePairs(d, Delete, removed, transport) == (d1, true, n)
    requires Install(readback, d1, added, target, transport) == (d2, ok, m)
    ensures RunPlan(true, readback, d, removed, added, target, transport) == (d2, ok, n + m)
  {
  }

  lemma PlanKnown(m: map<nat, nat>, strategy: Strategy, previous: set<Pair>, target: set<Pair>)
    ensures previous <= Universe(m) && target <= Universe(m) ==>
              Removed(strategy, previous, target) <= Universe(m) && Added(strategy, previous, target) <= Universe(m)
  {
  }

  /** The adapter over a switch whose table is keyed by device ports. */
  class BFRTBackend {
    const switch: Switch
    const acknowledgedOnly: bool
    const toDevice: map<nat, nat>
    const toLogical: map<nat, nat>
    var generation: nat
    var cacheReady: bool   // cache_status READY, as against UNKNOWN

    constructor (switch: Switch, acknowledgedOnly: bool, portMap: map<nat, nat>)
      requires PortMap(portMap)
      ensures Valid() && this.switch == switch && toDevice == portMap
      ensures this.acknowledgedOnly == acknowledgedOnly && generation == 0 && !cacheReady
    {
      this.switch := switch;
      this.acknowledgedOnly := acknowledgedOnly;
      this.toDevice := portMap;
      this.toLogical := map device | device in portMap.Values :: LogicalOf(portMap, device);
      this.generation := 0;
      this.cacheReady := false;
    }

    ghost predicate Valid() {
      && PortMap(toDevice)
      && (forall a | a in toDevice :: toDevice[a] in toLogical && toLogical[toDevice[a]] == a)
      && (forall d | d in toLogical :: toLogical[d] in toDevice && toDevice[toLogical[d]] == d)
    }

    function Kind(): Backend {
      BFRT(acknowledgedOnly)
    }

    function Logical(): Device
      reads switch
    {
      ViewDevice(toDevice, switch.State())
    }

    function Strays(): set<Pair>
      reads switch
    {
      Unmanaged(toDevice, switch.table)
    }

    /** Reading the table gives exactly the logical table; it raises if the request fails or if
        the table holds an entry that no logical pair maps to. */
    method ReadPairs() returns (ok: bool, observed: set<Pair>)
      requires Valid()
      modifies this, switch
      ensures Grew(toDevice, old(switch.State()), switch.State()) && Strays() == old(Strays())
      ensures Logical() == Send(old(Logical()), Read, {}).0
      ensures ok <==> Send(old(Logical()), Read, {}).1 && Strays() == {}
      ensures ok ==> observed == Logical().table && cacheReady
      ensures !ok ==> cacheReady == old(cacheReady)
      ensures generation == old(generation)
    {
      ghost var start := switch.State();
      var rows: set<Pair>;
      ok, rows := switch.Fetch();
      assert Image(toDevice, {}) == {};
      SendRefines(toDevice, start, Read, {});
      observed := {};
      if !ok { return; }
      var rest := rows;
      while rest != {}
        invariant rest <= rows
        invariant forall d | d in rows - rest :: d.ingress in toLogical && d.egress in toLogical
        invariant forall d | d in rows - rest :: Pair(toLogical[d.ingress], toLogical[d.egress]) in observed
        invariant observed <= View(toDevice, rows)
        decreases rest
      {
        var row :| row in rest;
        if row.ingress !in toLogical || row.egress !in toLogical {
          assert row !in Image(toDevice, Universe(toDevice));
          assert row in Strays();
          ok := false;
          return;
        }
        var p := Pair(toLogical[row.ingress], toLogical[row.egress]);
        assert p in Universe(toDevice) && DevicePair(toDevice, p) == row;
        observed := observed + {p};
        rest := rest - {row};
      }
      assert forall p | p in View(toDevice, rows) :: DevicePair(toDevice, p) in rows;
      assert observed == View(toDevice, rows);
      forall d | d in rows ensures d in Image(toDevice, Universe(toDevice)) {
        var p := Pair(toLogical[d.ingress], toLogical[d.egress]);
        assert p in Universe(toDevice) && Known(toDevice, p) && DevicePair(toDevice, p) == d;
      }
      cacheReady := true;
    }

    /** One request per pair in sorted order.  A pair with an unknown logical port raises before
        its own request. */
    method WriteSequentially(op: Operation, ordered: seq<Pair>) returns (ok: bool)
      requires Valid() && op != Read
      modifies switch
      ensures Grew(toDevice, old(switch.State()), switch.State()) && Strays() == old(Strays())
      ensures (forall p | p in ordered :: Known(toDevice, p)) ==>
                (Logical(), ok) == SendAll(old(Logical()), op, ordered)
      ensures !(forall p | p in ordered :: Known(toDevice, p)) ==> !ok
    {
      ghost var start := Logical();
      var i := 0;
      while i < |ordered|
        invariant 0 <= i <= |ordered|
        invariant forall k | 0 <= k < i :: Known(toDevice, ordered[k])
        invariant Grew(toDevice, old(switch.State()), switch.State())
        invariant SendAll(start, op, ordered) == SendAll(Logical(), op, ordered[i..])
      {
        var p := ordered[i];
        if !Known(toDevice, p) {
          return false;
        }
        assert p in Universe(toDevice);
        ghost var before := switch.State();
        SendRefines(toDevice, before, op, {p});
        assert Image(toDevice, {p}) == {DevicePair(toDevice, p)};
        ok := switch.Write(op, {DevicePair(toDevice, p)});
        GrewOn(toDevice, old(switch.State()), before, switch.State());
        if !ok {
          return false;
        }
        assert ordered[i..][1..] == ordered[i + 1..];
        i := i + 1;
      }
      return true;
    }

    /** One write phase. */
    method WritePairs(op: Operation, pairs: set<Pair>, transport: Transport) returns (ok: bool, requests: nat)
      requires Valid() && op != Read
      modifies switch
      ensures Grew(toDevice, old(switch.State()), switch.State()) && Strays() == old(Strays())
      ensures pairs <= Universe(toDevice) ==>
                (Logical(), ok, requests) == Transaction.WritePairs(old(Logical()), op, pairs, transport)
      ensures !(pairs <= Universe(toDevice)) ==> !ok
    {
      KnownUniverse(toDevice, pairs);
      if transport == NATIVE_BATCH {
        if pairs == {} {
          return true, 0;
        }
        if exists p :: p in pairs && !Known(toDevice, p) {
          return false, 1;
        }
        SendRefines(toDevice, switch.State(), op, pairs);
        ok := switch.Write(op, Image(toDevice, pairs));
        return ok, 1;
      }
      SortedLists(pairs);
      var ordered := Sorted(pairs);
      assert forall p :: p in pairs <==> p in ordered by {
        assert forall p :: p in Elements(ordered) <==> p in ordered;
      }
      ok := WriteSequentially(op, ordered);
      return ok, |ordered|;
    }

    method Restore(previous: set<Pair>) returns (ok: bool)
      requires Valid()
      modifies this, switch
      ensures Grew(toDevice, old(switch.State()), switch.State()) && Strays() == old(Strays())
      ensures generation == old(generation)
      ensures ok ==> Logical().table == previous && Strays() == {} && cacheReady
      ensures previous <= Universe(toDevice) && Strays() == {} ==>
                (Logical(), ok) == Transaction.Restore(Kind(), old(Logical()), previous)
    {
      var current: set<Pair>;
      ok, current := ReadPairs();
      if !ok { return; }
      ghost var read := switch.State();
      var n: nat;
      ok, n := WritePairs(Delete, current - previous, NATIVE_BATCH);
      GrewOn(toDevice, old(switch.State()), read, switch.State());
      if !ok { return; }
      ghost var deleted := switch.State();
      ok, n := WritePairs(Insert, previous - current, NATIVE_BATCH);
      GrewOn(toDevice, old(switch.State()), deleted, switch.State());
      if !ok { return; }
      ghost var inserted := switch.State();
      var restored: set<Pair>;
      ok, restored := ReadPairs();
      GrewOn(toDevice, old(switch.State()), inserted, switch.State());
      ok := ok && restored == previous;
    }

    /** The insert phase and, unless acknowledgements are enough, the read-back. */
    method Install(added: set<Pair>, target: set<Pair>, transport: Transport) returns (ok: bool, requests: nat)
      requires Valid()
      modifies this, switch
      ensures Grew(toDevice, old(switch.State()), switch.State()) && Strays() == old(Strays())
      ensures generation == old(generation)
      ensures ok && !acknowledgedOnly ==> Logical().table == target && Strays() == {}
      ensures added <= Universe(toDevice) && Strays() == {} ==>
                (Logical(), ok, requests)
                == Transaction.Install(!acknowledgedOnly, old(Logical()), added, target, transport)
    {
      ok, requests := WritePairs(Insert, added, transport);
      if !ok || acknowledgedOnly { return; }
      ghost var written := switch.State();
      var observed: set<Pair>;
      ok, observed := ReadPairs();
      GrewOn(toDevice, old(switch.State()), written, switch.State());
      ok := ok && observed == target;
    }

    method RunPlan(removed: set<Pair>, added: set<Pair>, target: set<Pair>, transport: Transport)
      returns (ok: bool, requests: nat)
      requires Valid()
      modifies this, switch
      ensures Grew(toDevice, old(switch.State()), switch.State()) && Strays() == old(Strays())
      ensures generation == old(generation)
      ensures ok && !acknowledgedOnly ==> Logical().table == target && Strays() == {}
      ensures removed <= Universe(toDevice) && added <= Universe(toDevice) && Strays() == {} ==>
                (Logical(), ok, requests)
                == Transaction.RunPlan(true, !acknowledgedOnly, old(Logical()), removed, added, target, transport)
    {
      ghost var known := removed <= Universe(toDevice) && added <= Universe(toDevice) && Strays() == {};
      ghost var d := Logical();
      ok, requests := WritePairs(Delete, removed, transport);
      ghost var d1, deleted := Logical(), switch.State();
      if !ok { return; }
      var n: nat;
      ok, n := Install(added, target, transport);
      GrewOn(toDevice, old(switch.State()), deleted, switch.State());
      if known { PlanRuns(!acknowledgedOnly, d, d1, Logical(), removed, added, target, transport, requests, ok, n); }
      requests := requests + n;
    }

    method Update(previous: set<Pair>, target: set<Pair>, strategy: Strategy, delay: int, transport: Transport)
      returns (ok: bool, requests: nat)
      requires Valid()
      modifies this, switch
      ensures Grew(toDevice, old(switch.State()), switch.State()) && Strays() == old(Strays())
      ensures generation == old(generation)
      ensures ok && !acknowledgedOnly ==> Logical().table == target && Strays() == {}
      ensures previous <= Universe(toDevice) && target <= Universe(toDevice) && Strays() == {} ==>
                (Logical(), ok, requests)
                == Transaction.Update(Kind(), old(Logical()), previous, target, strategy, delay, transport)
    {
      PlanKnown(toDevice, strategy, previous, target);
      ok, requests := RunPlan(Removed(strategy, previous, target), Added(strategy, previous, target), target,
                              transport);
    }

    /** The logical transition, with the answer and the bookkeeping that belong to it.  `restored`
        and a verified return are truthful even for unknown ports and foreign entries. */
    method Apply(previous: set<Pair>, target: set<Pair>, strategy: Strategy, delay: int, transport: Transport)
      returns (outcome: Outcome)
      requires Valid()
      modifies this, switch
      ensures Grew(toDevice, old(switch.State()), switch.State()) && Strays() == old(Strays())
      ensures previous <= Universe(toDevice) && target <= Universe(toDevice) && Strays() == {} ==>
                (Logical(), outcome)
                == Transaction.Apply(Kind(), old(Logical()), previous, target, strategy, delay, transport)
      ensures previous <= Universe(toDevice) && target <= Universe(toDevice) && Strays() == {}
              && old(Logical().table) == previous ==>
                Confined(switch.log, |old(switch.log)|, Image(toDevice, previous), Image(toDevice, target))
      ensures outcome.RolledBack? ==> Logical().table == previous && Strays() == {} && cacheReady
      ensures outcome.Returned? && !acknowledgedOnly ==> Logical().table == target && Strays() == {}
      ensures outcome.Returned? ==> generation == old(generation) + 1 && cacheReady
      ensures !outcome.Returned? ==> generation == old(generation)
      ensures outcome.RollbackFailed? ==> !cacheReady
      ensures outcome.Rejected? ==> cacheReady == old(cacheReady) && switch.State() == old(switch.State())
    {
      if delay < 0 || delay > MAX_DELAY_US {
        return Rejected(BadDelay);
      }
      if strategy != FULL && strategy != DELTA {
        return Rejected(BadStrategy);
      }
      if !(transport == SEQUENTIAL || transport == NATIVE_BATCH) {
        return Rejected(BadTransport);
      }
      ghost var start := Logical();
      ghost var known := previous <= Universe(toDevice) && target <= Universe(toDevice) && Strays() == {};
      var ok, requests := Update(previous, target, strategy, delay, transport);
      if !ok {
        ghost var updated := switch.State();
        var restored := Restore(previous);
        GrewOn(toDevice, old(switch.State()), updated, switch.State());
        if !restored {
          cacheReady := false;
        }
        outcome := if restored then RolledBack else RollbackFailed;
      } else {
        generation := generation + 1;
        cacheReady := true;
        outcome := Returned(Timing(|Removed(strategy, previous, target)|, |Added(strategy, previous, target)|,
                                   |Kept(strategy, previous, target)|, requests, |target|));
      }
      if known && start.table == previous {
        NeverMixed(Kind(), start, previous, target, strategy, delay, transport);
        DeviceConfined(toDevice, old(switch.State()), switch.State(), previous, target);
      }
    }
  }
}
