/**
The enumeration of all full switch settings of n ports, as the benchmarks use it, and the step
from one setting to a neighbouring one.
*/
module Matchings {
  import opened Permutations
  import opened Inventory
  import opened Wrappers

  type Ports = seq<nat>
  type Edge = (nat, nat)

  // ---------------------------------------------------------------- the generator

  function Rest(ports: Ports, index: nat): Ports
    requires 0 < index < |ports|
  {
    ports[1..index] + ports[index + 1..]
  }

  function Prefixed(edge: Edge, tails: seq<seq<Edge>>): seq<seq<Edge>> {
    seq(|tails|, i requires 0 <= i < |tails| => [edge] + tails[i])
  }

  /** All ways of pairing up the ports: the first one with each of the others, in order. */
  function Pairings(ports: Ports): seq<seq<Edge>>
    decreases |ports|, 0
  {
    if ports == [] then [[]] else FirstWith(ports, 1)
  }

  function FirstWith(ports: Ports, index: nat): seq<seq<Edge>>
    requires ports != [] && index > 0
    decreases |ports|, -1, |ports| - index
  {
    if index >= |ports| then []
    else Prefixed((ports[0], ports[index]), Pairings(Rest(ports, index))) + FirstWith(ports, index + 1)
  }

  /** Who is paired with whom, later edges overwriting earlier ones. */
  function Mates(edges: seq<Edge>): map<nat, nat> {
    if edges == [] then map[]
    else
      var (left, right) := edges[|edges| - 1];
      Mates(edges[..|edges| - 1])[left := right][right := left]
  }

  /** The list form of a pairing, with zeros for unpaired slots. */
  function ListOf(n: nat, f: map<nat, nat>): seq<int> {
    seq(n, i => if i + 1 in f then f[i + 1] else 0)
  }

  function Mapping(n: nat, edges: seq<Edge>): seq<int> {
    ListOf(n, Mates(edges))
  }

  function Members(ports: Ports): set<nat> {
    set x | x in ports
  }

  predicate DistinctPorts(ports: Ports) {
    forall i, j | 0 <= i < j < |ports| :: ports[i] != ports[j]
  }

  predicate PairedBack(f: map<nat, nat>, k: nat)
    requires k in f
  {
    f[k] != k && f[k] in f && f[f[k]] == k
  }

  predicate Involution(f: map<nat, nat>, ports: set<nat>) {
    f.Keys == ports && forall k | k in f :: PairedBack(f, k)
  }

  lemma RestMembers(ports: Ports, index: nat)
    requires DistinctPorts(ports) && 0 < index < |ports|
    ensures Members(Rest(ports, index)) == Members(ports) - {ports[0], ports[index]}
    ensures DistinctPorts(Rest(ports, index))
  {
    var rest := Rest(ports, index);
    assert ports == [ports[0]] + ports[1..index] + [ports[index]] + ports[index + 1..];
    forall x ensures x in rest <==> x in ports && x != ports[0] && x != ports[index] {
      if x in ports && x != ports[0] && x != ports[index] {
        var k :| 0 <= k < |ports| && ports[k] == x;
        assert x == if k < index then rest[k - 1] else rest[k - 2];
      }
    }
  }

  lemma {:induction false} MatesKeys(edges: seq<Edge>, x: nat)
    ensures x in Mates(edges) <==> exists e :: e in edges && (e.0 == x || e.1 == x)
  {
    if edges != [] {
      var m := |edges| - 1;
      MatesKeys(edges[..m], x);
      assert edges == edges[..m] + [edges[m]];
    }
  }

  /** An edge on two new ports may as well have come last. */
  lemma {:induction false} MatesOfCons(edge: Edge, tail: seq<Edge>)
    requires edge.0 !in Mates(tail) && edge.1 !in Mates(tail)
    ensures Mates([edge] + tail) == Mates(tail)[edge.0 := edge.1][edge.1 := edge.0]
    decreases |tail|
  {
    if tail == [] {
      assert ([edge] + tail)[..0] == [];
    } else {
      var m := |tail| - 1;
      assert ([edge] + tail)[..m + 1] == [edge] + tail[..m];
      MatesKeys(tail, edge.0);
      MatesKeys(tail, edge.1);
      MatesKeys(tail[..m], edge.0);
      MatesKeys(tail[..m], edge.1);
      MatesOfCons(edge, tail[..m]);
    }
  }

  /** Where a member of the enumeration comes from. */
  lemma {:induction false} Origin(ports: Ports, index: nat, edges: seq<Edge>) returns (j: nat, tail: seq<Edge>)
    requires ports != [] && index > 0 && edges in FirstWith(ports, index)
    ensures index <= j < |ports| && tail in Pairings(Rest(ports, j)) && edges == [(ports[0], ports[j])] + tail
    decreases |ports| - index
  {
    var block := Prefixed((ports[0], ports[index]), Pairings(Rest(ports, index)));
    if edges in block {
      var i :| 0 <= i < |block| && block[i] == edges;
      j, tail := index, Pairings(Rest(ports, index))[i];
    } else {
      j, tail := Origin(ports, index + 1, edges);
    }
  }

  lemma {:induction false} Listed(ports: Ports, index: nat, j: nat, tail: seq<Edge>)
    requires ports != [] && 0 < index <= j < |ports| && tail in Pairings(Rest(ports, j))
    ensures [(ports[0], ports[j])] + tail in FirstWith(ports, index)
    decreases j - index
  {
    if index < j {
      Listed(ports, index + 1, j, tail);
    } else {
      var tails := Pairings(Rest(ports, j));
      var i :| 0 <= i < |tails| && tails[i] == tail;
      assert Prefixed((ports[0], ports[j]), tails)[i] == [(ports[0], ports[j])] + tail;
    }
  }

  /** Soundness: every listed pairing is an involution without fixed points on the ports. */
  lemma {:induction false} PairingsSound(ports: Ports, edges: seq<Edge>)
    requires DistinctPorts(ports) && edges in Pairings(ports)
    ensures Involution(Mates(edges), Members(ports))
    decreases |ports|
  {
    if ports != [] {
      var j, tail := Origin(ports, 1, edges);
      RestMembers(ports, j);
      PairingsSound(Rest(ports, j), tail);
      MatesOfCons((ports[0], ports[j]), tail);
      InvolutionGrows(Mates(tail), Members(Rest(ports, j)), ports[0], ports[j]);
      assert Members(ports) == Members(Rest(ports, j)) + {ports[0], ports[j]};
    }
  }

  lemma InvolutionGrows(f: map<nat, nat>, ports: set<nat>, a: nat, b: nat)
    requires Involution(f, ports) && a !in ports && b !in ports && a != b
    ensures Involution(f[a := b][b := a], ports + {a, b})
  {
    var g := f[a := b][b := a];
    forall k | k in g ensures PairedBack(g, k) {
      if k != a && k != b { assert PairedBack(f, k); }
    }
  }

  /** An involution on the ports, less the first port and its mate, is one on the rest. */
  lemma InvolutionOnRest(ports: Ports, f: map<nat, nat>) returns (j: nat)
    requires DistinctPorts(ports) && Involution(f, Members(ports)) && ports != []
    ensures 0 < j < |ports| && f[ports[0]] == ports[j]
    ensures Involution(f - {ports[0], ports[j]}, Members(Rest(ports, j)))
  {
    var a := ports[0];
    assert a in f && PairedBack(f, a);
    assert f[a] in Members(ports);
    j :| 0 <= j < |ports| && ports[j] == f[a];
    RestMembers(ports, j);
    var g := f - {a, ports[j]};
    forall k | k in g ensures PairedBack(g, k) {
      assert PairedBack(f, k) && PairedBack(f, f[a]);
    }
  }

  /** Completeness: every involution without fixed points on the ports is listed. */
  lemma {:induction false} PairingsComplete(ports: Ports, f: map<nat, nat>) returns (edges: seq<Edge>)
    requires DistinctPorts(ports) && Involution(f, Members(ports))
    ensures edges in Pairings(ports) && Mates(edges) == f
    decreases |ports|
  {
    if ports == [] {
      edges := [];
      assert f == map[];
    } else {
      var j := InvolutionOnRest(ports, f);
      var edge := (ports[0], ports[j]);
      assert PairedBack(f, ports[0]);
      RestMembers(ports, j);
      var tail := PairingsComplete(Rest(ports, j), f - {ports[0], ports[j]});
      edges := [edge] + tail;
      Listed(ports, 1, j, tail);
      MatesOfCons(edge, tail);
    }
  }

  predicate AllDiffer(list: seq<seq<Edge>>) {
    forall i, j | 0 <= i < j < |list| :: Mates(list[i]) != Mates(list[j])
  }

  /** No pairing is listed twice. */
  lemma {:induction false} PairingsDiffer(ports: Ports)
    requires DistinctPorts(ports)
    ensures AllDiffer(Pairings(ports))
    decreases |ports|, 1
  {
    if ports != [] { FirstWithDiffer(ports, 1); }
  }

  lemma {:induction false} FirstWithDiffer(ports: Ports, index: nat)
    requires DistinctPorts(ports) && ports != [] && index > 0
    ensures AllDiffer(FirstWith(ports, index))
    decreases |ports|, 0, |ports| - index
  {
    if index < |ports| {
      var edge, tails := (ports[0], ports[index]), Pairings(Rest(ports, index));
      var block, later := Prefixed(edge, tails), FirstWith(ports, index + 1);
      RestMembers(ports, index);
      PairingsDiffer(Rest(ports, index));
      FirstWithDiffer(ports, index + 1);
      forall i, j | 0 <= i < j < |block| ensures Mates(block[i]) != Mates(block[j]) {
        BlockMember(ports, index, i);
        BlockMember(ports, index, j);
      }
      forall i, j | 0 <= i < |block| && 0 <= j < |later| ensures Mates(block[i]) != Mates(later[j]) {
        BlockMember(ports, index, i);
        LaterMember(ports, index + 1, later[j]);
      }
    }
  }

  lemma BlockMember(ports: Ports, index: nat, i: nat)
    requires DistinctPorts(ports) && 0 < index < |ports|
    requires i < |Pairings(Rest(ports, index))|
    ensures var edges := [(ports[0], ports[index])] + Pairings(Rest(ports, index))[i];
            && ports[0] in Mates(edges) && Mates(edges)[ports[0]] == ports[index]
            && Mates(edges) - {ports[0], ports[index]} == Mates(Pairings(Rest(ports, index))[i])
  {
    var tail := Pairings(Rest(ports, index))[i];
    RestMembers(ports, index);
    PairingsSound(Rest(ports, index), tail);
    MatesOfCons((ports[0], ports[index]), tail);
  }

  lemma LaterMember(ports: Ports, index: nat, edges: seq<Edge>)
    requires DistinctPorts(ports) && ports != [] && index > 0 && edges in FirstWith(ports, index)
    ensures ports[0] in Mates(edges)
    ensures forall k | 0 <= k < |ports| && k < index :: Mates(edges)[ports[0]] != ports[k]
  {
    var j, tail := Origin(ports, index, edges);
    var i :| 0 <= i < |Pairings(Rest(ports, j))| && Pairings(Rest(ports, j))[i] == tail;
    BlockMember(ports, j, i);
  }

  /** (n-1)!! = (n-1)(n-3)...1, for even n. */
  function OddFactorial(n: nat): nat {
    if n < 2 then 1 else (n - 1) * OddFactorial(n - 2)
  }

  lemma {:induction false} PairingsCount(ports: Ports)
    requires |ports| % 2 == 0
    ensures |Pairings(ports)| == OddFactorial(|ports|)
    decreases |ports|, 1
  {
    if ports != [] { FirstWithCount(ports, 1); }
  }

  lemma {:induction false} FirstWithCount(ports: Ports, index: nat)
    requires |ports| % 2 == 0 && ports != [] && 0 < index <= |ports|
    ensures |FirstWith(ports, index)| == (|ports| - index) * OddFactorial(|ports| - 2)
    decreases |ports|, 0, |ports| - index
  {
    if index < |ports| {
      PairingsCount(Rest(ports, index));
      FirstWithCount(ports, index + 1);
      OneBlockMore(ports, index);
      Distribute(|ports| - index, OddFactorial(|ports| - 2));
    }
  }

  lemma OneBlockMore(ports: Ports, index: nat)
    requires 0 < index < |ports|
    ensures |FirstWith(ports, index)| == |Pairings(Rest(ports, index))| + |FirstWith(ports, index + 1)|
  {
  }

  lemma Distribute(m: nat, c: nat)
    requires m > 0
    ensures m * c == c + (m - 1) * c
  {
  }

  /** An odd number of ports cannot be paired up. */
  lemma {:induction false} OddHasNone(ports: Ports)
    requires |ports| % 2 == 1
    ensures Pairings(ports) == []
    decreases |ports|, 1
  {
    FirstWithNone(ports, 1);
  }

  lemma {:induction false} FirstWithNone(ports: Ports, index: nat)
    requires |ports| % 2 == 1 && index > 0
    ensures FirstWith(ports, index) == []
    decreases |ports|, 0, |ports| - index
  {
    if index < |ports| {
      OddHasNone(Rest(ports, index));
      FirstWithNone(ports, index + 1);
    }
  }

  // ---------------------------------------------------------------- lists of settings

  function AllPorts(n: nat): Ports {
    seq(n, i => i + 1)
  }

  function Settings(n: nat, pairings: seq<seq<Edge>>): seq<seq<int>> {
    seq(|pairings|, i requires 0 <= i < |pairings| => Mapping(n, pairings[i]))
  }

  /** The complete list of full settings: each of them valid, every valid one in it, none twice,
      (n-1)!! in all. */
  ghost predicate CompleteListing(n: nat, list: seq<seq<int>>) {
    && (forall pi :: pi in list <==> |pi| == n && Pairing(pi))
    && (forall i, j | 0 <= i < j < |list| :: list[i] != list[j])
    && |list| == OddFactorial(n)
  }

  lemma AllPortsAreSlots(n: nat)
    ensures Members(AllPorts(n)) == Slots(n)
  {
    forall k | k in Slots(n) ensures k in Members(AllPorts(n)) { assert AllPorts(n)[k - 1] == k; }
  }

  lemma ListAt(n: nat, f: map<nat, nat>, k: nat)
    requires Involution(f, Slots(n)) && 1 <= k <= n
    ensures k in f && ListOf(n, f)[k - 1] == f[k]
    ensures 1 <= f[k] <= n && PairedBack(f, k)
  {
    assert k in f.Keys;
    assert PairedBack(f, k);
    assert f[k] in f.Keys;
  }

  lemma ListInRange(n: nat, f: map<nat, nat>)
    requires Involution(f, Slots(n))
    ensures |ListOf(n, f)| == n && InRange(ListOf(n, f))
  {
    forall i | 0 <= i < n ensures 1 <= ListOf(n, f)[i] <= n { ListAt(n, f, i + 1); }
  }

  lemma ListMapsBack(n: nat, f: map<nat, nat>, k: nat)
    requires Involution(f, Slots(n)) && 1 <= k <= n
    requires |ListOf(n, f)| == n && InRange(ListOf(n, f))
    ensures MapsBack(ListOf(n, f), k)
  {
    ListAt(n, f, k);
    ListAt(n, f, f[k]);
  }

  lemma ListIsPairing(n: nat, f: map<nat, nat>)
    requires Involution(f, Slots(n))
    ensures |ListOf(n, f)| == n && Pairing(ListOf(n, f))
  {
    ListInRange(n, f);
    forall k | 1 <= k <= n ensures MapsBack(ListOf(n, f), k) { ListMapsBack(n, f, k); }
  }

  lemma ListDetermines(n: nat, f: map<nat, nat>, g: map<nat, nat>)
    requires Involution(f, Slots(n)) && Involution(g, Slots(n))
    requires ListOf(n, f) == ListOf(n, g)
    ensures f == g
  {
    forall k | k in f ensures f[k] == g[k] {
      ListAt(n, f, k);
      ListAt(n, g, k);
    }
  }

  lemma ListedIsInvolution(n: nat, edges: seq<Edge>)
    requires edges in Pairings(AllPorts(n))
    ensures Involution(Mates(edges), Slots(n))
  {
    AllPortsAreSlots(n);
    assert DistinctPorts(AllPorts(n));
    PairingsSound(AllPorts(n), edges);
  }

  lemma SettingsSound(n: nat, i: nat)
    requires i < |Pairings(AllPorts(n))|
    ensures var pi := Mapping(n, Pairings(AllPorts(n))[i]); |pi| == n && Pairing(pi)
  {
    ListedIsInvolution(n, Pairings(AllPorts(n))[i]);
    ListIsPairing(n, Mates(Pairings(AllPorts(n))[i]));
  }

  lemma SettingsDiffer(n: nat, i: nat, j: nat)
    requires i < j < |Pairings(AllPorts(n))|
    ensures Mapping(n, Pairings(AllPorts(n))[i]) != Mapping(n, Pairings(AllPorts(n))[j])
  {
    var first, second := Pairings(AllPorts(n))[i], Pairings(AllPorts(n))[j];
    ListedIsInvolution(n, first);
    ListedIsInvolution(n, second);
    PairingsDiffer(AllPorts(n));
    if Mapping(n, first) == Mapping(n, second) { ListDetermines(n, Mates(first), Mates(second)); }
  }

  function MateMap(pi: seq<int>): map<nat, nat>
    requires InRange(pi)
  {
    map k | k in Slots(|pi|) :: pi[k - 1]
  }

  lemma MateMapBack(pi: seq<int>, k: nat)
    requires Pairing(pi) && k in Slots(|pi|)
    ensures PairedBack(MateMap(pi), k)
  {
    assert MapsBack(pi, k);
  }

  lemma MateMapInvolution(pi: seq<int>)
    requires Pairing(pi)
    ensures Involution(MateMap(pi), Slots(|pi|))
  {
    forall k | k in MateMap(pi) ensures PairedBack(MateMap(pi), k) { MateMapBack(pi, k); }
  }

  lemma MateMapList(pi: seq<int>)
    requires Pairing(pi)
    ensures ListOf(|pi|, MateMap(pi)) == pi
  {
    var list := ListOf(|pi|, MateMap(pi));
    forall k | 0 <= k < |pi| ensures list[k] == pi[k] { assert k + 1 in Slots(|pi|); }
  }

  lemma PositionOf<T>(list: seq<T>, x: T) returns (i: nat)
    requires x in list
    ensures i < |list| && list[i] == x
  {
    i :| 0 <= i < |list| && list[i] == x;
  }

  lemma SettingListed(n: nat, pi: seq<int>) returns (i: nat)
    requires |pi| == n && Pairing(pi)
    ensures i < |Pairings(AllPorts(n))| && Mapping(n, Pairings(AllPorts(n))[i]) == pi
  {
    AllPortsAreSlots(n);
    MateMapInvolution(pi);
    MateMapList(pi);
    var edges := PairingsComplete(AllPorts(n), MateMap(pi));
    i := PositionOf(Pairings(AllPorts(n)), edges);
  }

  lemma SettingsComplete(n: nat)
    requires n % 2 == 0
    ensures CompleteListing(n, Settings(n, Pairings(AllPorts(n))))
  {
    var list := Settings(n, Pairings(AllPorts(n)));
    PairingsCount(AllPorts(n));
    forall i | 0 <= i < |list| ensures |list[i]| == n && Pairing(list[i]) { SettingsSound(n, i); }
    forall i, j | 0 <= i < j < |list| ensures list[i] != list[j] { SettingsDiffer(n, i, j); }
    forall pi: seq<int> | |pi| == n && Pairing(pi) ensures pi in list {
      var i := SettingListed(n, pi);
      assert list[i] == pi;
    }
  }

  /** One setting, written edge by edge into a list of zeros. */
  method FillMapping(n: nat, edges: seq<Edge>) returns (pi: seq<int>)
    requires EdgesWithin(n, edges)
    ensures pi == Mapping(n, edges)
  {
    var slots := new int[n](_ => 0);
    var i := 0;
    while i < |edges|
      invariant 0 <= i <= |edges|
      invariant slots[..] == Mapping(n, edges[..i])
    {
      var (left, right) := edges[i];
      assert edges[..i + 1][..i] == edges[..i];
      assert edges[i] in edges;
      slots[left - 1] := right;
      slots[right - 1] := left;
      i := i + 1;
    }
    assert edges[..i] == edges;
    pi := slots[..];
  }

  lemma EdgesInRange(n: nat, edges: seq<Edge>)
    requires edges in Pairings(AllPorts(n))
    ensures EdgesWithin(n, edges)
  {
    ListedIsInvolution(n, edges);
    forall e | e in edges ensures 1 <= e.0 <= n && 1 <= e.1 <= n {
      MatesKeys(edges, e.0);
      MatesKeys(edges, e.1);
      assert e.0 in Slots(n) && e.1 in Slots(n);
    }
  }

  /** The Python benchmark: rejects odd and non-positive counts, otherwise lists every setting. */
  method MatchingPermutations(count: int) returns (r: Result<seq<seq<int>>, PermutationError>)
    ensures r.Failure? <==> count < 2 || count % 2 != 0
    ensures r.Success? ==> CompleteListing(count, r.value)
  {
    if count < 2 || count % 2 != 0 {
      return Failure(OddOrEmpty);
    }
    var pairings := Pairings(AllPorts(count));
    var result: seq<seq<int>> := [];
    var i := 0;
    while i < |pairings|
      invariant 0 <= i <= |pairings|
      invariant result == Settings(count, pairings[..i])
    {
      EdgesInRange(count, pairings[i]);
      var mapping := FillMapping(count, pairings[i]);
      result := result + [mapping];
      i := i + 1;
    }
    assert pairings[..i] == pairings;
    SettingsComplete(count);
    return Success(result);
  }

  predicate EdgesWithin(n: nat, edges: seq<Edge>) {
    forall e | e in edges :: 1 <= e.0 <= n && 1 <= e.1 <= n
  }

  predicate PortsWithin(n: nat, ports: Ports) {
    forall x | x in ports :: 1 <= x <= n
  }

  lemma StillWithin(n: nat, remaining: Ports, chosen: seq<Edge>, index: nat)
    requires PortsWithin(n, remaining) && EdgesWithin(n, chosen) && 0 < index < |remaining|
    ensures PortsWithin(n, Rest(remaining, index))
    ensures EdgesWithin(n, chosen + [(remaining[0], remaining[index])])
  {
    assert remaining[0] in remaining && remaining[index] in remaining;
    assert forall x | x in Rest(remaining, index) :: x in remaining;
  }

  /** The Go benchmark: a recursion that carries the edges chosen so far and appends at the
      leaves. */
  method PairUp(n: nat, remaining: Ports, chosen: seq<Edge>, result: seq<seq<int>>) returns (extended: seq<seq<int>>)
    requires PortsWithin(n, remaining) && EdgesWithin(n, chosen)
    ensures extended == result + Settings(n, Extended(chosen, Pairings(remaining)))
    decreases |remaining|
  {
    if remaining == [] {
      var permutation := FillMapping(n, chosen);
      assert chosen + [] == chosen;
      assert Extended(chosen, [[]]) == [chosen];
      return result + [permutation];
    }
    extended := result;
    var index := 1;
    ghost var done: seq<seq<Edge>> := [];
    while index < |remaining|
      invariant 1 <= index <= |remaining|
      invariant done + FirstWith(remaining, index) == Pairings(remaining)
      invariant extended == result + Settings(n, Extended(chosen, done))
    {
      var edge := (remaining[0], remaining[index]);
      StillWithin(n, remaining, chosen, index);
      extended := PairUp(n, Rest(remaining, index), chosen + [edge], extended);
      done := NextBlock(n, remaining, index, chosen, done, result);
      index := index + 1;
    }
  }

  lemma NextBlock(n: nat, remaining: Ports, index: nat, chosen: seq<Edge>, done: seq<seq<Edge>>, result: seq<seq<int>>)
    returns (next: seq<seq<Edge>>)
    requires 0 < index < |remaining|
    ensures next + FirstWith(remaining, index + 1) == done + FirstWith(remaining, index)
    ensures result + Settings(n, Extended(chosen, next))
            == result + Settings(n, Extended(chosen, done))
               + Settings(n, Extended(chosen + [(remaining[0], remaining[index])], Pairings(Rest(remaining, index))))
  {
    var edge, tails := (remaining[0], remaining[index]), Pairings(Rest(remaining, index));
    next := done + Prefixed(edge, tails);
    OneBlock(n, chosen, edge, tails, done);
  }

  lemma OneBlock(n: nat, chosen: seq<Edge>, edge: Edge, tails: seq<seq<Edge>>, done: seq<seq<Edge>>)
    ensures Settings(n, Extended(chosen, done)) + Settings(n, Extended(chosen + [edge], tails))
            == Settings(n, Extended(chosen, done + Prefixed(edge, tails)))
  {
    forall i | 0 <= i < |tails| ensures chosen + [edge] + tails[i] == chosen + Prefixed(edge, tails)[i] {
      assert chosen + [edge] + tails[i] == chosen + ([edge] + tails[i]);
    }
    assert Extended(chosen + [edge], tails) == Extended(chosen, Prefixed(edge, tails));
    assert Extended(chosen, done + Prefixed(edge, tails))
           == Extended(chosen, done) + Extended(chosen, Prefixed(edge, tails));
  }

  function Extended(chosen: seq<Edge>, tails: seq<seq<Edge>>): seq<seq<Edge>> {
    seq(|tails|, i requires 0 <= i < |tails| => chosen + tails[i])
  }

  /** Both benchmarks list the same settings; the Go one answers an odd count with none. */
  method MatchingPermutationsGo(count: nat) returns (list: seq<seq<int>>)
    ensures count % 2 == 0 ==> CompleteListing(count, list)
    ensures list == Settings(count, Pairings(AllPorts(count)))
    ensures count % 2 == 1 ==> list == []
  {
    list := PairUp(count, AllPorts(count), [], []);
    assert Extended([], Pairings(AllPorts(count))) == Pairings(AllPorts(count)) by {
      forall i | 0 <= i < |Pairings(AllPorts(count))|
        ensures [] + Pairings(AllPorts(count))[i] == Pairings(AllPorts(count))[i]
      {
      }
    }
    if count % 2 == 0 {
      SettingsComplete(count);
    } else {
      OddHasNone(AllPorts(count));
    }
  }

  // ---------------------------------------------------------------- the neighbouring setting

  /** The edges of a setting, each from its lower end, among the first k slots. */
  function Edges(pi: seq<int>, k: nat): seq<(int, int)>
    requires k <= |pi| && InRange(pi)
  {
    if k == 0 then [] else Edges(pi, k - 1) + if Lower(pi, k) then [(k, pi[k - 1])] else []
  }

  lemma {:induction false} EdgesAreLower(pi: seq<int>, k: nat)
    requires k <= |pi| && InRange(pi)
    ensures |Edges(pi, k)| == |Canonical(pi, k)|
    ensures forall i | 0 <= i < |Edges(pi, k)| ::
              var (left, right) := Edges(pi, k)[i]; 1 <= left <= k && Lower(pi, left) && right == pi[left - 1]
    ensures forall i, j | 0 <= i < j < |Edges(pi, k)| :: Edges(pi, k)[i].0 < Edges(pi, k)[j].0
  {
    if k > 0 { EdgesAreLower(pi, k - 1); }
  }

  /** Slots whose peer differs. */
  function Changed(pi: seq<int>, rho: seq<int>): set<nat>
    requires |pi| == |rho|
  {
    set k | k in Slots(|pi|) && pi[k - 1] != rho[k - 1]
  }

  function Swapped(pi: seq<int>, a: nat, b: nat, c: nat, d: nat): seq<int>
    requires 1 <= a <= |pi| && 1 <= b <= |pi| && 1 <= c <= |pi| && 1 <= d <= |pi|
  {
    pi[a - 1 := c][c - 1 := a][b - 1 := d][d - 1 := b]
  }

  /** Connecting the near ends and the far ends of two pairs (a, b) and (c, d). */
  lemma SwapIsPairing(pi: seq<int>, a: nat, b: nat, c: nat, d: nat)
    requires Pairing(pi) && 1 <= a <= |pi| && 1 <= c <= |pi| && b == pi[a - 1] && d == pi[c - 1]
    requires a != c && a != d
    ensures Pairing(Swapped(pi, a, b, c, d))
    ensures Changed(pi, Swapped(pi, a, b, c, d)) == {a, b, c, d} && |{a, b, c, d}| == 4
  {
    SwapEnds(pi, a, b, c, d);
    SwapInRange(pi, a, b, c, d);
    forall k | 1 <= k <= |pi| ensures MapsBack(Swapped(pi, a, b, c, d), k) { SwapMapsBack(pi, a, b, c, d, k); }
    forall k ensures k in Changed(pi, Swapped(pi, a, b, c, d)) <==> k in {a, b, c, d} {
      SwapChanges(pi, a, b, c, d, k);
    }
  }

  lemma SwapInRange(pi: seq<int>, a: nat, b: nat, c: nat, d: nat)
    requires InRange(pi) && 1 <= a <= |pi| && 1 <= b <= |pi| && 1 <= c <= |pi| && 1 <= d <= |pi|
    ensures |Swapped(pi, a, b, c, d)| == |pi| && InRange(Swapped(pi, a, b, c, d))
  {
  }

  lemma SwapChanges(pi: seq<int>, a: nat, b: nat, c: nat, d: nat, k: nat)
    requires Pairing(pi) && 1 <= a <= |pi| && 1 <= c <= |pi| && b == pi[a - 1] && d == pi[c - 1]
    requires a != c && a != d
    ensures k in Changed(pi, Swapped(pi, a, b, c, d)) <==> k in {a, b, c, d}
  {
    SwapEnds(pi, a, b, c, d);
  }

  lemma SwapMapsBack(pi: seq<int>, a: nat, b: nat, c: nat, d: nat, k: nat)
    requires Pairing(pi) && 1 <= a <= |pi| && 1 <= c <= |pi| && b == pi[a - 1] && d == pi[c - 1]
    requires a != c && a != d && 1 <= k <= |pi|
    requires InRange(Swapped(pi, a, b, c, d))
    ensures MapsBack(Swapped(pi, a, b, c, d), k)
  {
    SwapEnds(pi, a, b, c, d);
    if k != a && k != b && k != c && k != d { Untouched(pi, a, b, c, d, k); }
  }

  lemma SwapEnds(pi: seq<int>, a: nat, b: nat, c: nat, d: nat)
    requires Pairing(pi) && 1 <= a <= |pi| && 1 <= c <= |pi| && b == pi[a - 1] && d == pi[c - 1]
    requires a != c && a != d
    ensures a != b && b != c && b != d && c != d && pi[b - 1] == a && pi[d - 1] == c
    ensures var rho := Swapped(pi, a, b, c, d);
            rho[a - 1] == c && rho[c - 1] == a && rho[b - 1] == d && rho[d - 1] == b
  {
    assert MapsBack(pi, a) && MapsBack(pi, c);
  }

  lemma Untouched(pi: seq<int>, a: nat, b: nat, c: nat, d: nat, k: nat)
    requires Pairing(pi) && 1 <= a <= |pi| && 1 <= c <= |pi| && b == pi[a - 1] && d == pi[c - 1]
    requires 1 <= k <= |pi| && k != a && k != b && k != c && k != d
    requires InRange(Swapped(pi, a, b, c, d))
    ensures MapsBack(Swapped(pi, a, b, c, d), k)
  {
    var peer: nat := pi[k - 1];
    assert MapsBack(pi, k) && MapsBack(pi, a) && MapsBack(pi, c);
    assert peer != a && peer != b && peer != c && peer != d;
  }

  /** The first two pairs of a setting of four or more ports. */
  lemma FirstTwoPairs(pi: seq<int>)
    requires Pairing(pi) && |pi| >= 4
    ensures |Edges(pi, |pi|)| >= 2
    ensures var (a, b) := Edges(pi, |pi|)[0];
            var (c, d) := Edges(pi, |pi|)[1];
            && 1 <= a <= |pi| && 1 <= c <= |pi| && b == pi[a - 1] && d == pi[c - 1]
            && 1 <= b <= |pi| && 1 <= d <= |pi| && a != c && a != d
  {
    PairingsAreEven(pi);
    EdgesAreLower(pi, |pi|);
    var (a, b) := Edges(pi, |pi|)[0];
    var (c, d) := Edges(pi, |pi|)[1];
    assert a < c;
    assert Lower(pi, a) && Lower(pi, c);
    assert MapsBack(pi, a) && MapsBack(pi, c);
  }

  /** The pairs of a setting, lower slot first, in one pass over unvisited slots. */
  method CollectPairs(current: seq<int>) returns (pairs: seq<(int, int)>)
    requires Pairing(current)
    ensures pairs == Edges(current, |current|)
  {
    pairs := [];
    var visited: set<int> := {};
    var i := 0;
    while i < |current|
      invariant 0 <= i <= |current|
      invariant forall slot :: slot in visited <==> Visited(current, i, slot)
      invariant pairs == Edges(current, i)
    {
      var source, destination := i + 1, current[i];
      UnvisitedIsLower(current, i);
      if source !in visited {
        visited := visited + {source, destination};
        pairs := pairs + [(source, destination)];
      }
      i := i + 1;
    }
  }

  /** The neighbour of a setting: for two ports the setting itself, otherwise another valid one
      that differs in exactly four slots. */
  method AlternatePi(current: seq<int>) returns (alternate: seq<int>)
    requires Pairing(current) && |current| > 0
    ensures |alternate| == |current| && Pairing(alternate)
    ensures |current| == 2 ==> alternate == current
    ensures |current| >= 4 ==> alternate != current && |Changed(current, alternate)| == 4
  {
    PairingsAreEven(current);
    if |current| == 2 {
      return current;
    }
    var pairs := CollectPairs(current);
    FirstTwoPairs(current);
    var (firstLeft, firstRight) := pairs[0];
    var (secondLeft, secondRight) := pairs[1];
    alternate := current;
    alternate := alternate[firstLeft - 1 := secondLeft];
    alternate := alternate[secondLeft - 1 := firstLeft];
    alternate := alternate[firstRight - 1 := secondRight];
    alternate := alternate[secondRight - 1 := firstRight];
    SwapIsPairing(current, firstLeft, firstRight, secondLeft, secondRight);
  }
}
