/**
Connection sets: named point-to-point connections that never share a port, the directed pairs
they stand for, and the edits that agents fold over them.
*/
module Connections {
  import opened DeviceTable
  import opened Transaction
  import opened Inventory
  import opened Wrappers

  datatype Connection = Connection(name: string, near: string, far: string, bidirectional: bool)

  datatype ModelError =
    | EmptyName
    | EmptyPortName
    | NotBidirectional
    | UnknownPort(port: string)
    | SelfConnection(name: string)
    | DuplicateName(name: string)
    | PortConflict(port: string, owner: string)
    | UnknownConnection(name: string)
    | BadOperation

  /** The connections in insertion order, over an inventory of n ports. */
  datatype ConnectionSet = ConnectionSet(n: nat, items: seq<Connection>)

  // ---------------------------------------------------------------- validity

  predicate WellFormed(n: nat, c: Connection) {
    && c.name != "" && c.bidirectional
    && KnownPort(n, c.near) && KnownPort(n, c.far) && c.near != c.far
  }

  predicate Uses(c: Connection, port: string) {
    c.near == port || c.far == port
  }

  predicate Compatible(c: Connection, d: Connection) {
    c.name != d.name && !Uses(d, c.near) && !Uses(d, c.far)
  }

  predicate ValidItems(n: nat, items: seq<Connection>) {
    && (forall k | 0 <= k < |items| :: WellFormed(n, items[k]))
    && (forall j, k | 0 <= j < k < |items| :: Compatible(items[j], items[k]))
  }

  predicate Valid(s: ConnectionSet) {
    ValidItems(s.n, s.items)
  }

  type ValidSet = s: ConnectionSet | Valid(s) witness ConnectionSet(0, [])

  /** The dictionaries the constructors fill. */
  function ByName(items: seq<Connection>): map<string, Connection> {
    if items == [] then map[]
    else
      var c := items[|items| - 1];
      ByName(items[..|items| - 1])[c.name := c]
  }

  function Occupied(items: seq<Connection>): map<string, string> {
    if items == [] then map[]
    else
      var c := items[|items| - 1];
      Occupied(items[..|items| - 1])[c.near := c.name][c.far := c.name]
  }

  predicate Equal(s: ConnectionSet, t: ConnectionSet) {
    ByName(s.items) == ByName(t.items)
  }

  lemma LastItem(items: seq<Connection>)
    requires items != []
    ensures forall c :: c in items <==> c in items[..|items| - 1] || c == items[|items| - 1]
  {
    assert items == items[..|items| - 1] + [items[|items| - 1]];
  }

  lemma {:induction false} NameIn(items: seq<Connection>, name: string)
    ensures name in ByName(items) <==> exists c :: c in items && c.name == name
    ensures name in ByName(items) ==> ByName(items)[name] in items && ByName(items)[name].name == name
  {
    if items != [] {
      LastItem(items);
      NameIn(items[..|items| - 1], name);
    }
  }

  lemma {:induction false} PortIn(items: seq<Connection>, port: string)
    ensures port in Occupied(items) <==> exists c :: c in items && Uses(c, port)
    ensures port in Occupied(items) ==> exists c :: c in items && Uses(c, port) && c.name == Occupied(items)[port]
  {
    if items != [] {
      var c := items[|items| - 1];
      LastItem(items);
      PortIn(items[..|items| - 1], port);
      if Uses(c, port) { assert port in Occupied(items) && c in items; }
    }
  }

  lemma CompatibleWithAll(n: nat, items: seq<Connection>, c: Connection)
    requires ValidItems(n, items)
    ensures ValidItems(n, items + [c]) <==> WellFormed(n, c) && forall d | d in items :: Compatible(d, c)
  {
    var all := items + [c];
    assert all[|items|] == c;
    if ValidItems(n, all) {
      forall d | d in items ensures Compatible(d, c) {
        var k :| 0 <= k < |items| && items[k] == d;
        assert Compatible(all[k], all[|items|]);
      }
    }
  }

  lemma OneMoreFree(items: seq<Connection>, c: Connection)
    ensures (forall d | d in items :: Compatible(d, c))
            <==> c.name !in ByName(items) && c.near !in Occupied(items) && c.far !in Occupied(items)
  {
    NameIn(items, c.name);
    PortIn(items, c.near);
    PortIn(items, c.far);
    forall d | d in items
      ensures Compatible(d, c) <==> d.name != c.name && !Uses(d, c.near) && !Uses(d, c.far)
    {
    }
  }

  lemma OneMoreValid(n: nat, items: seq<Connection>, c: Connection)
    requires ValidItems(n, items)
    ensures ValidItems(n, items + [c])
            <==> WellFormed(n, c) && c.name !in ByName(items)
                 && c.near !in Occupied(items) && c.far !in Occupied(items)
    ensures ByName(items + [c]) == ByName(items)[c.name := c]
    ensures Occupied(items + [c]) == Occupied(items)[c.near := c.name][c.far := c.name]
  {
    CompatibleWithAll(n, items, c);
    OneMoreFree(items, c);
    assert (items + [c])[..|items|] == items;
  }

  /** What the constructors check of one more connection, in their order.  (The two agents check
      a duplicate name at different points; an edit never meets one.) */
  function Admit(n: nat, items: seq<Connection>, c: Connection): Option<ModelError> {
    if c.name == "" then Some(EmptyName)
    else if c.near == "" || c.far == "" then Some(EmptyPortName)
    else if !c.bidirectional then Some(NotBidirectional)
    else if !KnownPort(n, c.near) then Some(UnknownPort(c.near))
    else if !KnownPort(n, c.far) then Some(UnknownPort(c.far))
    else if c.near == c.far then Some(SelfConnection(c.name))
    else if c.name in ByName(items) then Some(DuplicateName(c.name))
    else if c.near in Occupied(items) then Some(PortConflict(c.near, Occupied(items)[c.near]))
    else if c.far in Occupied(items) then Some(PortConflict(c.far, Occupied(items)[c.far]))
    else None
  }

  lemma AdmitMeans(n: nat, items: seq<Connection>, c: Connection)
    ensures Admit(n, items, c).None?
            <==> WellFormed(n, c) && c.name !in ByName(items) && c.near !in Occupied(items) && c.far !in Occupied(items)
  {
    NoEmptyPort(n);
  }

  lemma AdmitIff(n: nat, items: seq<Connection>, c: Connection)
    requires ValidItems(n, items)
    ensures Admit(n, items, c).None? <==> ValidItems(n, items + [c])
  {
    AdmitMeans(n, items, c);
    OneMoreValid(n, items, c);
  }

  lemma PrefixValid(n: nat, items: seq<Connection>, k: nat)
    requires k <= |items| && ValidItems(n, items)
    ensures ValidItems(n, items[..k])
  {
  }

  /** The checks that need no other connection. */
  method ValidateConnection(n: nat, c: Connection) returns (e: Option<ModelError>)
    ensures e.None? <==> WellFormed(n, c)
    ensures e == Admit(n, [], c)
  {
    NoEmptyPort(n);
    if c.name == "" { return Some(EmptyName); }
    if c.near == "" || c.far == "" { return Some(EmptyPortName); }
    if !c.bidirectional { return Some(NotBidirectional); }
    if !KnownPort(n, c.near) { return Some(UnknownPort(c.near)); }
    if !KnownPort(n, c.far) { return Some(UnknownPort(c.far)); }
    if c.near == c.far { return Some(SelfConnection(c.name)); }
    return None;
  }

  /** The check of one more connection against the dictionaries of those before it. */
  method CheckConnection(n: nat, ghost items: seq<Connection>, c: Connection, byName: map<string, Connection>,
                         occupied: map<string, string>) returns (e: Option<ModelError>)
    requires byName == ByName(items) && occupied == Occupied(items)
    ensures e == Admit(n, items, c)
  {
    e := ValidateConnection(n, c);
    if e.Some? { return; }
    if c.name in byName { return Some(DuplicateName(c.name)); }
    if c.near in occupied { return Some(PortConflict(c.near, occupied[c.near])); }
    if c.far in occupied { return Some(PortConflict(c.far, occupied[c.far])); }
  }

  /** The constructor of the Go agent: a list is accepted exactly when it is a matching of known
      ports under distinct names, and otherwise its first offending connection is reported. */
  method NewConnectionSet(n: nat, connections: seq<Connection>) returns (r: Result<ConnectionSet, ModelError>)
    ensures r.Success? <==> ValidItems(n, connections)
    ensures r.Success? ==> r.value == ConnectionSet(n, connections)
    ensures r.Failure? ==> exists k :: 0 <= k < |connections| && ValidItems(n, connections[..k])
                                       && Admit(n, connections[..k], connections[k]) == Some(r.error)
  {
    var byName: map<string, Connection> := map[];
    var occupied: map<string, string> := map[];
    var i := 0;
    while i < |connections|
      invariant 0 <= i <= |connections|
      invariant ValidItems(n, connections[..i])
      invariant byName == ByName(connections[..i]) && occupied == Occupied(connections[..i])
    {
      var c := connections[i];
      assert connections[..i] + [c] == connections[..i + 1];
      AdmitIff(n, connections[..i], c);
      var e := CheckConnection(n, connections[..i], c, byName, occupied);
      if e.Some? {
        if ValidItems(n, connections) { PrefixValid(n, connections, i + 1); }
        return Failure(e.value);
      }
      OneMoreValid(n, connections[..i], c);
      occupied := occupied[c.near := c.name][c.far := c.name];
      byName := byName[c.name := c];
      i := i + 1;
    }
    assert connections[..i] == connections;
    return Success(ConnectionSet(n, connections));
  }

  // ---------------------------------------------------------------- directed pairs

  function PairsOf(n: nat, c: Connection): set<Pair>
    requires KnownPort(n, c.near) && KnownPort(n, c.far)
  {
    {Pair(Index(n, c.near), Index(n, c.far)), Pair(Index(n, c.far), Index(n, c.near))}
  }

  function Pairs(n: nat, items: seq<Connection>): set<Pair>
    requires forall k | 0 <= k < |items| :: WellFormed(n, items[k])
  {
    if items == [] then {}
    else
      assert WellFormed(n, items[|items| - 1]);
      Pairs(n, items[..|items| - 1]) + PairsOf(n, items[|items| - 1])
  }

  function DirectedPairs(s: ConnectionSet): set<Pair>
    requires Valid(s)
  {
    Pairs(s.n, s.items)
  }

  method CollectDirectedPairs(s: ConnectionSet) returns (pairs: set<Pair>)
    requires Valid(s)
    ensures pairs == DirectedPairs(s)
  {
    pairs := {};
    var i := 0;
    while i < |s.items|
      invariant 0 <= i <= |s.items|
      invariant pairs == Pairs(s.n, s.items[..i])
    {
      var near, far := Index(s.n, s.items[i].near), Index(s.n, s.items[i].far);
      assert s.items[..i + 1][..i] == s.items[..i];
      pairs := pairs + {Pair(near, far)};
      pairs := pairs + {Pair(far, near)};
      i := i + 1;
    }
    assert s.items[..i] == s.items;
  }

  function AllToAll(n: nat): set<Pair> {
    set a, b | a in Slots(n) && b in Slots(n) && a != b :: Pair(a, b)
  }

  /** In debug mode every port is connected to every other one, both ways. */
  lemma AllToAllMeans(n: nat)
    ensures forall p :: p in AllToAll(n) <==> 1 <= p.ingress <= n && 1 <= p.egress <= n && p.ingress != p.egress
    ensures |AllToAll(n)| == n * (n - 1)
  {
    AllToAllSize(n);
  }

  lemma {:induction false} AllToAllSize(n: nat)
    ensures |AllToAll(n)| == n * (n - 1)
  {
    if n > 0 {
      var m := n - 1;
      AllToAllSize(m);
      OneMorePort(m);
      Products(m);
    }
  }

  lemma Products(m: nat)
    ensures m * (m - 1) + 2 * m == (m + 1) * m
  {
  }

  lemma OneMorePort(n: nat)
    ensures |AllToAll(n + 1)| == |AllToAll(n)| + 2 * n
  {
    var there := set a | a in Slots(n) :: Pair(n + 1, a);
    var back := set a | a in Slots(n) :: Pair(a, n + 1);
    SameSize(Slots(n), there, (a: nat) => Pair(n + 1, a));
    SameSize(Slots(n), back, (a: nat) => Pair(a, n + 1));
    WithOneMore(n, there, back);
  }

  lemma WithOneMore(n: nat, there: set<Pair>, back: set<Pair>)
    requires there == set a | a in Slots(n) :: Pair(n + 1, a)
    requires back == set a | a in Slots(n) :: Pair(a, n + 1)
    ensures AllToAll(n + 1) == AllToAll(n) + there + back
    ensures AllToAll(n) !! there && (AllToAll(n) + there) !! back
  {
    forall p ensures p in AllToAll(n + 1) <==> p in AllToAll(n) || p in there || p in back {
      OneMorePair(n, there, back, p);
    }
    assert forall p | p in AllToAll(n) :: p.ingress <= n && p.egress <= n;
  }

  lemma OneMorePair(n: nat, there: set<Pair>, back: set<Pair>, p: Pair)
    requires there == set a | a in Slots(n) :: Pair(n + 1, a)
    requires back == set a | a in Slots(n) :: Pair(a, n + 1)
    ensures p in AllToAll(n + 1) <==> p in AllToAll(n) || p in there || p in back
  {
    AllToAllHas(n, p);
    AllToAllHas(n + 1, p);
    assert p in there <==> p.ingress == n + 1 && p.egress in Slots(n);
    assert p in back <==> p.egress == n + 1 && p.ingress in Slots(n);
  }

  lemma AllToAllHas(n: nat, p: Pair)
    ensures p in AllToAll(n) <==> p.ingress in Slots(n) && p.egress in Slots(n) && p.ingress != p.egress
  {
    assert p == Pair(p.ingress, p.egress);
  }

  lemma {:induction false} SameSize(slots: set<nat>, pairs: set<Pair>, f: nat -> Pair)
    requires forall a, b | a in slots && b in slots && a != b :: f(a) != f(b)
    requires pairs == set a | a in slots :: f(a)
    ensures |pairs| == |slots|
    decreases |slots|
  {
    if slots != {} {
      var a :| a in slots;
      SameSize(slots - {a}, pairs - {f(a)}, f);
    }
  }

  /** No port of the table has two peers, as a source or as a destination. */
  predicate PortExclusive(table: set<Pair>) {
    forall p, q | p in table && q in table && (p.ingress == q.ingress || p.egress == q.egress) :: p == q
  }

  predicate Matching(n: nat, table: set<Pair>) {
    && PortExclusive(table)
    && (forall p | p in table :: Pair(p.egress, p.ingress) in table)
    && (forall p | p in table :: 1 <= p.ingress <= n && 1 <= p.egress <= n && p.ingress != p.egress)
  }

  lemma {:induction false} PairOwner(n: nat, items: seq<Connection>, p: Pair)
    requires forall k | 0 <= k < |items| :: WellFormed(n, items[k])
    ensures p in Pairs(n, items) <==> exists c :: c in items && WellFormed(n, c) && p in PairsOf(n, c)
  {
    if items != [] {
      LastItem(items);
      assert WellFormed(n, items[|items| - 1]);
      PairOwner(n, items[..|items| - 1], p);
    }
  }

  lemma PairOfItem(n: nat, items: seq<Connection>, c: Connection, p: Pair)
    requires ValidItems(n, items) && c in items && WellFormed(n, c) && p in PairsOf(n, c)
    ensures p in Pairs(n, items)
  {
    PairOwner(n, items, p);
  }

  /** The ports of one more connection are new to the table. */
  lemma NewPorts(n: nat, items: seq<Connection>, c: Connection, p: Pair)
    requires ValidItems(n, items) && WellFormed(n, c)
    requires forall d | d in items :: Compatible(d, c)
    requires p in Pairs(n, items)
    ensures var a, b := Index(n, c.near), Index(n, c.far);
            p.ingress != a && p.ingress != b && p.egress != a && p.egress != b
    ensures 1 <= p.ingress <= n && 1 <= p.egress <= n && p.ingress != p.egress
  {
    PairOwner(n, items, p);
    var d :| d in items && WellFormed(n, d) && p in PairsOf(n, d);
    assert Compatible(d, c);
  }

  lemma MatchingGrows(n: nat, table: set<Pair>, a: nat, b: nat)
    requires Matching(n, table) && 1 <= a <= n && 1 <= b <= n && a != b
    requires forall p | p in table :: p.ingress != a && p.ingress != b && p.egress != a && p.egress != b
    ensures Matching(n, table + {Pair(a, b), Pair(b, a)})
    ensures |table + {Pair(a, b), Pair(b, a)}| == |table| + 2
  {
    var ab, ba := Pair(a, b), Pair(b, a);
    var grown := table + {ab, ba};
    assert grown == table + {ab} + {ba};
    forall p, q | p in grown && q in grown && (p.ingress == q.ingress || p.egress == q.egress)
      ensures p == q
    {
      assert p in table || p == ab || p == ba;
      assert q in table || q == ab || q == ba;
    }
    forall p | p in grown
      ensures Pair(p.egress, p.ingress) in grown && 1 <= p.ingress <= n && 1 <= p.egress <= n && p.ingress != p.egress
    {
      if p !in table { assert p == ab || p == ba; }
    }
  }

  lemma AllNewPorts(n: nat, items: seq<Connection>, c: Connection)
    requires ValidItems(n, items) && ValidItems(n, items + [c]) && WellFormed(n, c)
    ensures forall p | p in Pairs(n, items) ::
              && p.ingress != Index(n, c.near) && p.ingress != Index(n, c.far)
              && p.egress != Index(n, c.near) && p.egress != Index(n, c.far)
  {
    CompatibleWithAll(n, items, c);
    forall p | p in Pairs(n, items)
      ensures p.ingress != Index(n, c.near) && p.ingress != Index(n, c.far)
              && p.egress != Index(n, c.near) && p.egress != Index(n, c.far)
    {
      NewPorts(n, items, c, p);
    }
  }

  /** The ports are all new to this table. */
  predicate NewTo(n: nat, table: set<Pair>, c: Connection)
    requires WellFormed(n, c)
  {
    forall p | p in table ::
      && p.ingress != Index(n, c.near) && p.ingress != Index(n, c.far)
      && p.egress != Index(n, c.near) && p.egress != Index(n, c.far)
  }

  lemma GrowsByOne(n: nat, table: set<Pair>, c: Connection)
    requires WellFormed(n, c) && Matching(n, table) && NewTo(n, table, c)
    ensures Matching(n, table + PairsOf(n, c)) && |table + PairsOf(n, c)| == |table| + 2
  {
    MatchingGrows(n, table, Index(n, c.near), Index(n, c.far));
  }

  lemma LastIsNew(n: nat, items: seq<Connection>)
    requires ValidItems(n, items) && items != []
    ensures var m := |items| - 1;
            && ValidItems(n, items[..m]) && WellFormed(n, items[m]) && NewTo(n, Pairs(n, items[..m]), items[m])
            && Pairs(n, items) == Pairs(n, items[..m]) + PairsOf(n, items[m])
  {
    var m := |items| - 1;
    PrefixValid(n, items, m);
    assert items[..m] + [items[m]] == items;
    AllNewPorts(n, items[..m], items[m]);
  }

  /** The pairs of a valid set form a symmetric matching, two for every connection. */
  lemma {:induction false} PairsMatch(n: nat, items: seq<Connection>)
    requires ValidItems(n, items)
    ensures Matching(n, Pairs(n, items)) && |Pairs(n, items)| == 2 * |items|
  {
    if items != [] {
      var m := |items| - 1;
      LastIsNew(n, items);
      PairsMatch(n, items[..m]);
      GrowsByOne(n, Pairs(n, items[..m]), items[m]);
    }
  }

  lemma {:induction false} FoundByName(n: nat, items: seq<Connection>, c: Connection)
    requires ValidItems(n, items)
    ensures c in items <==> c.name in ByName(items) && ByName(items)[c.name] == c
  {
    if items != [] {
      var m := |items| - 1;
      LastItem(items);
      PrefixValid(n, items, m);
      FoundByName(n, items[..m], c);
      assert items[..m] + [items[m]] == items;
      OneMoreValid(n, items[..m], items[m]);
    }
  }

  /** The same connections, in whatever order. */
  ghost predicate SameItems(s: ConnectionSet, t: ConnectionSet) {
    forall c :: c in s.items <==> c in t.items
  }

  /** Sets are equal by name exactly if they have the same connections. */
  lemma EqualIff(s: ConnectionSet, t: ConnectionSet)
    requires Valid(s) && Valid(t) && s.n == t.n
    ensures Equal(s, t) <==> SameItems(s, t)
  {
    forall c ensures (c in s.items <==> c.name in ByName(s.items) && ByName(s.items)[c.name] == c)
                     && (c in t.items <==> c.name in ByName(t.items) && ByName(t.items)[c.name] == c)
    {
      FoundByName(s.n, s.items, c);
      FoundByName(t.n, t.items, c);
    }
    if SameItems(s, t) {
      forall name ensures name in ByName(s.items) <==> name in ByName(t.items) {
        if name in ByName(s.items) { NamedThere(s.items, name); }
        if name in ByName(t.items) { NamedThere(t.items, name); }
      }
      forall name | name in ByName(s.items) ensures ByName(s.items)[name] == ByName(t.items)[name] {
        NamedThere(s.items, name);
      }
    }
  }

  lemma {:induction false} NamedThere(items: seq<Connection>, name: string)
    requires name in ByName(items)
    ensures ByName(items)[name] in items && ByName(items)[name].name == name
  {
    if items[|items| - 1].name != name { NamedThere(items[..|items| - 1], name); }
  }

  /** Equal sets stand for the same table, so answering "unchanged" for an equal target without
      writing is right. */
  lemma EqualSetsSamePairs(s: ConnectionSet, t: ConnectionSet)
    requires Valid(s) && Valid(t) && s.n == t.n && Equal(s, t)
    ensures DirectedPairs(s) == DirectedPairs(t)
  {
    forall c ensures c in s.items <==> c in t.items {
      FoundByName(s.n, s.items, c);
      FoundByName(t.n, t.items, c);
    }
    forall p ensures p in DirectedPairs(s) <==> p in DirectedPairs(t) {
      PairOwner(s.n, s.items, p);
      PairOwner(t.n, t.items, p);
    }
  }

  /** Between two valid connection sets no port ever has two peers: not at any instant of the
      transition, whatever fails, and not while it is rolled back. */
  lemma NoPortHasTwoPeers(b: Backend, d: Device, s: ConnectionSet, t: ConnectionSet,
                          strategy: Strategy, delay: int, transport: Transport)
    requires Valid(s) && Valid(t) && d.table == DirectedPairs(s)
    ensures var log := Apply(b, d, DirectedPairs(s), DirectedPairs(t), strategy, delay, transport).0.log;
            forall k, table | |d.log| <= k < |log| && Instant(log[k], table) :: PortExclusive(table)
  {
    var previous, target := DirectedPairs(s), DirectedPairs(t);
    NeverMixed(b, d, previous, target, strategy, delay, transport);
    PairsMatch(s.n, s.items);
    PairsMatch(t.n, t.items);
    ExclusiveThroughout(Apply(b, d, previous, target, strategy, delay, transport).0.log, |d.log|, previous, target);
  }

  lemma SetsAreExclusive(s: ValidSet)
    ensures PortExclusive(DirectedPairs(s))
  {
    PairsMatch(s.n, s.items);
  }

  lemma ExclusiveThroughout(log: seq<Request>, from: nat, a: set<Pair>, b: set<Pair>)
    requires Confined(log, from, a, b) && PortExclusive(a) && PortExclusive(b)
    ensures forall k, table | from <= k < |log| && Instant(log[k], table) :: PortExclusive(table)
  {
    forall k, table | from <= k < |log| && Instant(log[k], table) ensures PortExclusive(table) {
      assert table <= a || table <= b;
    }
  }

  // ---------------------------------------------------------------- edits

  function Without(items: seq<Connection>, name: string): seq<Connection> {
    if items == [] then []
    else
      var c := items[|items| - 1];
      Without(items[..|items| - 1], name) + if c.name == name then [] else [c]
  }

  function Replace(s: ConnectionSet, c: Connection): Result<ConnectionSet, ModelError> {
    var rest := Without(s.items, c.name);
    match Admit(s.n, rest, c)
    case Some(e) => Failure(e)
    case None => Success(ConnectionSet(s.n, rest + [c]))
  }

  function DeleteConnection(s: ConnectionSet, name: string): Result<ConnectionSet, ModelError> {
    if name in ByName(s.items) then Success(ConnectionSet(s.n, Without(s.items, name)))
    else Failure(UnknownConnection(name))
  }

  datatype Edit =
    | DeleteEdit(name: string)
    | ReplaceEdit(connection: Connection)
    | ReplaceAll(all: Option<ConnectionSet>)
    | OtherEdit

  function ApplyEdit(s: ConnectionSet, e: Edit): Result<ConnectionSet, ModelError> {
    match e
    case DeleteEdit(name) => DeleteConnection(s, name)
    case ReplaceEdit(c) => Replace(s, c)
    case ReplaceAll(Some(all)) => Success(all)
    case _ => Failure(BadOperation)
  }

  /** The fold over a batch: the first failing edit decides the whole batch. */
  function ApplyEdits(s: ConnectionSet, edits: seq<Edit>): Result<ConnectionSet, ModelError>
    decreases |edits|
  {
    if edits == [] then Success(s)
    else
      match ApplyEdit(s, edits[0])
      case Failure(e) => Failure(e)
      case Success(t) => ApplyEdits(t, edits[1..])
  }

  /** A set handed to replace_all went through the constructor. */
  predicate ValidEdit(n: nat, e: Edit) {
    e.ReplaceAll? && e.all.Some? ==> Valid(e.all.value) && e.all.value.n == n
  }

  lemma {:induction false} WithoutKeeps(n: nat, items: seq<Connection>, name: string)
    requires ValidItems(n, items)
    ensures ValidItems(n, Without(items, name))
    ensures forall c :: c in Without(items, name) <==> c in items && c.name != name
  {
    if items != [] {
      var m := |items| - 1;
      var init, c, rest := items[..m], items[m], Without(items[..m], name);
      PrefixValid(n, items, m);
      WithoutKeeps(n, init, name);
      LastItem(items);
      assert init + [c] == items;
      CompatibleWithAll(n, init, c);
      CompatibleWithAll(n, rest, c);
    }
  }

  /** One edit of a valid set gives a valid set over the same ports. */
  lemma EditKeepsValid(s: ConnectionSet, e: Edit)
    requires Valid(s) && ValidEdit(s.n, e)
    ensures var r := ApplyEdit(s, e); r.Success? ==> Valid(r.value) && r.value.n == s.n
  {
    match e
    case DeleteEdit(name) => WithoutKeeps(s.n, s.items, name);
    case ReplaceEdit(c) =>
      WithoutKeeps(s.n, s.items, c.name);
      AdmitIff(s.n, Without(s.items, c.name), c);
    case ReplaceAll(_) =>
    case OtherEdit =>
  }

  /** Deleting removes exactly the named connection.  Replacing removes it and adds the new one,
      and fails only for the new connection's own faults or for a port of another connection. */
  lemma DeleteMeaning(s: ConnectionSet, name: string)
    requires Valid(s)
    ensures var r := DeleteConnection(s, name);
            && (r.Success? <==> exists c :: c in s.items && c.name == name)
            && (r.Success? ==> forall c :: c in r.value.items <==> c in s.items && c.name != name)
  {
    NameIn(s.items, name);
    WithoutKeeps(s.n, s.items, name);
  }

  lemma ReplaceMeaning(s: ConnectionSet, c: Connection)
    requires Valid(s)
    ensures var r := Replace(s, c);
            && (r.Success? <==> WellFormed(s.n, c) && forall d | d in s.items && d.name != c.name :: Compatible(d, c))
            && (r.Success? ==> forall d :: d in r.value.items <==> d == c || (d in s.items && d.name != c.name))
  {
    var rest := Without(s.items, c.name);
    WithoutKeeps(s.n, s.items, c.name);
    AdmitIff(s.n, rest, c);
    CompatibleWithAll(s.n, rest, c);
  }

  /** Every set on the way through a batch is a valid matching with two pairs per connection. */
  lemma {:induction false} EditsKeepValid(s: ConnectionSet, edits: seq<Edit>, k: nat)
    requires Valid(s) && k <= |edits|
    requires forall i | 0 <= i < |edits| :: ValidEdit(s.n, edits[i])
    ensures var r := ApplyEdits(s, edits[..k]);
            r.Success? ==>
              && Valid(r.value) && r.value.n == s.n
              && Matching(s.n, DirectedPairs(r.value))
              && |DirectedPairs(r.value)| == 2 * |r.value.items|
    decreases |edits|
  {
    if k == 0 {
      PairsMatch(s.n, s.items);
    } else {
      EditKeepsValid(s, edits[0]);
      var r := ApplyEdit(s, edits[0]);
      if r.Success? {
        EditsKeepValid(r.value, edits[1..], k - 1);
        assert edits[..k][1..] == edits[1..][..k - 1];
      }
    }
  }

  /** Replacing everything by t leaves exactly t, whatever the edits before it made of the set, as long as
      none of them failed; an edit that no agent knows, or a malformed set, fails the batch. */
  lemma ReplaceAllMeaning(s: ConnectionSet, edits: seq<Edit>, e: Edit)
    requires ApplyEdits(s, edits).Success?
    ensures e.ReplaceAll? && e.all.Some? ==> ApplyEdits(s, edits + [e]) == Success(e.all.value)
    ensures e.OtherEdit? || (e.ReplaceAll? && e.all.None?) ==> ApplyEdits(s, edits + [e]).Failure?
  {
    EditsCompose(s, edits, [e]);
    var t := ApplyEdits(s, edits).value;
    var r := ApplyEdit(t, e);
    if r.Success? { assert ApplyEdits(t, [e]) == ApplyEdits(r.value, []); }
  }

  predicate ValidEdits(n: nat, edits: seq<Edit>) {
    forall i | 0 <= i < |edits| :: ValidEdit(n, edits[i])
  }

  /** The target of a batch, computed before anything is checked or written. */
  function Target(s: ValidSet, edits: seq<Edit>): (r: Result<ValidSet, ModelError>)
    requires ValidEdits(s.n, edits)
    ensures r.Success? ==> r.value.n == s.n
  {
    match ApplyEdits(s, edits)
    case Failure(e) => Failure(e)
    case Success(t) =>
      assert edits[..|edits|] == edits;
      EditsKeepValid(s, edits, |edits|);
      Success(t)
  }

  lemma {:induction false} EditsCompose(s: ConnectionSet, first: seq<Edit>, second: seq<Edit>)
    ensures ApplyEdits(s, first + second)
            == match ApplyEdits(s, first) { case Failure(e) => Failure(e) case Success(t) => ApplyEdits(t, second) }
    decreases |first|
  {
    if first == [] {
      assert first + second == second;
    } else {
      assert (first + second)[1..] == first[1..] + second;
      var r := ApplyEdit(s, first[0]);
      if r.Success? { EditsCompose(r.value, first[1..], second); }
    }
  }

  function Deletions(names: seq<string>): seq<Edit> {
    seq(|names|, i requires 0 <= i < |names| => DeleteEdit(names[i]))
  }

  function Replacements(items: seq<Connection>): seq<Edit> {
    seq(|items|, i requires 0 <= i < |items| => ReplaceEdit(items[i]))
  }

  /** `names` are the names of the items, each once. */
  predicate Names(items: seq<Connection>, names: seq<string>) {
    && (forall i, j | 0 <= i < j < |names| :: names[i] != names[j])
    && (forall c | c in items :: c.name in names)
    && (forall name | name in names :: exists c :: c in items && c.name == name)
  }

  lemma NamesAfterDeletion(n: nat, items: seq<Connection>, names: seq<string>)
    requires ValidItems(n, items) && Names(items, names) && names != []
    ensures ValidItems(n, Without(items, names[0])) && Names(Without(items, names[0]), names[1..])
  {
    var name, rest, left := names[0], names[1..], Without(items, names[0]);
    WithoutKeeps(n, items, name);
    forall c | c in left ensures c.name in rest { assert c.name in names; }
    forall other | other in rest ensures exists c :: c in left && c.name == other {
      assert other in names && other != name;
      var c :| c in items && c.name == other;
      assert c in left;
    }
  }

  lemma SomeItem(items: seq<Connection>)
    ensures items != [] ==> exists c :: c in items
  {
    if items != [] { assert items[0] in items; }
  }

  lemma DeletingOneName(s: ConnectionSet, names: seq<string>)
    requires Names(s.items, names) && names != []
    ensures ApplyEdits(s, Deletions(names))
            == ApplyEdits(ConnectionSet(s.n, Without(s.items, names[0])), Deletions(names[1..]))
  {
    assert names[0] in names;
    NameIn(s.items, names[0]);
    assert Deletions(names)[0] == DeleteEdit(names[0]) && Deletions(names)[1..] == Deletions(names[1..]);
  }

  /** Deleting every name of a set, in any order, succeeds and leaves nothing. */
  lemma {:induction false} DeletingAllNames(s: ConnectionSet, names: seq<string>)
    requires Valid(s) && Names(s.items, names)
    ensures ApplyEdits(s, Deletions(names)) == Success(ConnectionSet(s.n, []))
    decreases |names|
  {
    if names == [] {
      SomeItem(s.items);
    } else {
      NamesAfterDeletion(s.n, s.items, names);
      DeletingOneName(s, names);
      DeletingAllNames(ConnectionSet(s.n, Without(s.items, names[0])), names[1..]);
    }
  }

  /** Adding a connection that the constructor would have accepted, by a replace edit. */
  lemma ReplaceAppends(n: nat, init: seq<Connection>, c: Connection)
    requires ValidItems(n, init + [c]) && ValidItems(n, init)
    ensures ApplyEdits(ConnectionSet(n, init), [ReplaceEdit(c)]) == Success(ConnectionSet(n, init + [c]))
  {
    AdmitIff(n, init, c);
    OneMoreValid(n, init, c);
    WithoutAbsent(init, c.name);
    assert ApplyEdits(ConnectionSet(n, init), [ReplaceEdit(c)]) == ApplyEdits(ConnectionSet(n, init + [c]), []);
  }

  lemma OneMoreReplacement(t: ConnectionSet, k: nat)
    requires Valid(t) && k < |t.items|
    requires ApplyEdits(ConnectionSet(t.n, []), Replacements(t.items[..k])) == Success(ConnectionSet(t.n, t.items[..k]))
    ensures ApplyEdits(ConnectionSet(t.n, []), Replacements(t.items[..k]) + [ReplaceEdit(t.items[k])])
            == Success(ConnectionSet(t.n, t.items[..k] + [t.items[k]]))
  {
    PrefixValid(t.n, t.items, k);
    PrefixValid(t.n, t.items, k + 1);
    assert t.items[..k + 1] == t.items[..k] + [t.items[k]];
    ReplaceAppends(t.n, t.items[..k], t.items[k]);
    EditsCompose(ConnectionSet(t.n, []), Replacements(t.items[..k]), [ReplaceEdit(t.items[k])]);
  }

  /** Replacing one by one the connections of a valid set, from nothing, builds exactly that set. */
  lemma {:induction false} ReplacingAll(t: ConnectionSet, k: nat)
    requires Valid(t) && k <= |t.items|
    ensures ApplyEdits(ConnectionSet(t.n, []), Replacements(t.items[..k])) == Success(ConnectionSet(t.n, t.items[..k]))
    decreases k
  {
    if k > 0 {
      ReplacingAll(t, k - 1);
      OneMoreReplacement(t, k - 1);
      assert t.items[..k] == t.items[..k - 1] + [t.items[k - 1]];
      assert Replacements(t.items[..k]) == Replacements(t.items[..k - 1]) + [ReplaceEdit(t.items[k - 1])];
    }
  }

  lemma {:induction false} WithoutAbsent(items: seq<Connection>, name: string)
    requires name !in ByName(items)
    ensures Without(items, name) == items
  {
    if items != [] {
      WithoutAbsent(items[..|items| - 1], name);
      assert items == items[..|items| - 1] + [items[|items| - 1]];
    }
  }

  /** A single Set request can turn any valid set into any other: delete all its names, then
      replace each connection of the new one. */
  lemma ReachAnySet(s: ConnectionSet, t: ConnectionSet, names: seq<string>)
    requires Valid(s) && Valid(t) && s.n == t.n && Names(s.items, names)
    ensures ApplyEdits(s, Deletions(names) + Replacements(t.items)) == Success(t)
  {
    DeletingAllNames(s, names);
    EditsCompose(s, Deletions(names), Replacements(t.items));
    ReplacingAll(t, |t.items|);
    assert t.items[..|t.items|] == t.items;
  }
}
