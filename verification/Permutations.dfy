/**
Full connection sets as permutations: the three ways in which the repository checks that a list
is a symmetric permutation without fixed points, and the translation between such lists and
connection sets.
*/
module Permutations {
  import opened DeviceTable
  import opened Connections
  import opened Inventory
  import opened Wrappers

  predicate InRange(pi: seq<int>) {
    forall i | 0 <= i < |pi| :: 1 <= pi[i] <= |pi|
  }

  /** Slot k is mapped to another slot, which maps back to it. */
  predicate MapsBack(pi: seq<int>, k: nat)
    requires InRange(pi) && 1 <= k <= |pi|
  {
    pi[k - 1] != k && pi[pi[k - 1] - 1] == k
  }

  /** A symmetric permutation of the slots without fixed points. */
  predicate Pairing(pi: seq<int>) {
    InRange(pi) && forall k | 1 <= k <= |pi| :: MapsBack(pi, k)
  }

  // ---------------------------------------------------------------- the sorted check

  function Range(n: nat): seq<int> {
    seq(n, i => i + 1)
  }

  function Insert(x: int, ordered: seq<int>): seq<int> {
    if ordered == [] || x <= ordered[0] then [x] + ordered
    else [ordered[0]] + Insert(x, ordered[1..])
  }

  function SortInts(values: seq<int>): seq<int> {
    if values == [] then [] else Insert(values[0], SortInts(values[1..]))
  }

  predicate Ascending(values: seq<int>) {
    forall i, j | 0 <= i < j < |values| :: values[i] <= values[j]
  }

  lemma {:induction false} InsertSorts(x: int, ordered: seq<int>)
    requires Ascending(ordered)
    ensures Ascending(Insert(x, ordered)) && multiset(Insert(x, ordered)) == multiset(ordered) + multiset{x}
    decreases |ordered|
  {
    if ordered != [] && x > ordered[0] {
      var rest := ordered[1..];
      InsertSorts(x, rest);
      var r := Insert(x, rest);
      assert ordered == [ordered[0]] + rest;
      forall k | 0 <= k < |r| ensures ordered[0] <= r[k] {
        assert r[k] in multiset(r);
        if r[k] != x {
          assert r[k] in multiset(rest);
          var m :| 0 <= m < |rest| && rest[m] == r[k];
          assert ordered[0] <= ordered[m + 1];
        }
      }
    } else {
      assert Insert(x, ordered) == [x] + ordered;
    }
  }

  lemma {:induction false} SortIntsSorts(values: seq<int>)
    ensures Ascending(SortInts(values)) && multiset(SortInts(values)) == multiset(values)
    ensures |SortInts(values)| == |values|
  {
    if values != [] {
      SortIntsSorts(values[1..]);
      InsertSorts(values[0], SortInts(values[1..]));
      assert values == [values[0]] + values[1..];
    }
    assert |multiset(SortInts(values))| == |multiset(values)|;
  }

  predicate NoRepeats(values: seq<int>) {
    forall i, j | 0 <= i < j < |values| :: values[i] != values[j]
  }

  lemma {:induction false} RepeatsByCount(values: seq<int>)
    ensures NoRepeats(values) <==> forall x :: multiset(values)[x] <= 1
  {
    if values != [] {
      var first, rest := values[0], values[1..];
      RepeatsByCount(rest);
      assert values == [first] + rest;
      assert multiset(values) == multiset{first} + multiset(rest);
      assert first in rest <==> multiset(rest)[first] > 0;
      if NoRepeats(values) {
        assert first !in rest;
      } else if NoRepeats(rest) {
        assert first in rest;
        assert multiset(values)[first] >= 2;
      } else {
        var x :| multiset(rest)[x] > 1;
        assert multiset(values)[x] > 1;
      }
    }
  }

  lemma {:induction false} StrictlyAscendingFills(values: seq<int>, k: nat)
    requires Ascending(values) && NoRepeats(values) && k < |values|
    requires InRange(values)
    ensures k + 1 <= values[k]
  {
    if k > 0 { StrictlyAscendingFills(values, k - 1); }
  }

  lemma {:induction false} StrictlyAscendingFits(values: seq<int>, k: nat)
    requires Ascending(values) && NoRepeats(values) && k < |values|
    requires InRange(values)
    ensures values[k] <= k + 1
    decreases |values| - k
  {
    if k < |values| - 1 { StrictlyAscendingFits(values, k + 1); }
  }

  lemma SameMembers(values: seq<int>, x: int)
    ensures x in SortInts(values) <==> x in values
    ensures |SortInts(values)| == |values|
  {
    SortIntsSorts(values);
    assert x in multiset(SortInts(values)) <==> x in multiset(values);
  }

  lemma SortedRangeIsPermutation(values: seq<int>)
    requires SortInts(values) == Range(|values|)
    ensures InRange(values) && NoRepeats(values)
  {
    SortIntsSorts(values);
    RepeatsByCount(values);
    RepeatsByCount(Range(|values|));
    forall i | 0 <= i < |values| ensures 1 <= values[i] <= |values| {
      SameMembers(values, values[i]);
    }
  }

  lemma SortingKeepsRange(values: seq<int>)
    requires InRange(values) && NoRepeats(values)
    ensures InRange(SortInts(values)) && NoRepeats(SortInts(values)) && |SortInts(values)| == |values|
  {
    var ordered := SortInts(values);
    SortIntsSorts(values);
    RepeatsByCount(values);
    RepeatsByCount(ordered);
    forall i | 0 <= i < |ordered| ensures 1 <= ordered[i] <= |ordered| { SameMembers(values, ordered[i]); }
  }

  lemma StrictlyAscendingIsRange(values: seq<int>)
    requires Ascending(values) && NoRepeats(values) && InRange(values)
    ensures values == Range(|values|)
  {
    forall k | 0 <= k < |values| ensures values[k] == k + 1 {
      StrictlyAscendingFills(values, k);
      StrictlyAscendingFits(values, k);
    }
  }

  lemma PermutationSortsToRange(values: seq<int>)
    requires InRange(values) && NoRepeats(values)
    ensures SortInts(values) == Range(|values|)
  {
    SortIntsSorts(values);
    SortingKeepsRange(values);
    StrictlyAscendingIsRange(SortInts(values));
  }

  /** sorted(values) == [1, ..., n] says exactly: n values, all within 1..n, none repeated. */
  lemma SortedCheckMeans(values: seq<int>)
    ensures SortInts(values) == Range(|values|) <==> InRange(values) && NoRepeats(values)
  {
    if SortInts(values) == Range(|values|) {
      SortedRangeIsPermutation(values);
    } else if InRange(values) && NoRepeats(values) {
      PermutationSortsToRange(values);
    }
  }

  lemma PairingsAreSorted(pi: seq<int>)
    requires Pairing(pi)
    ensures SortInts(pi) == Range(|pi|) && NoRepeats(pi)
  {
    forall i, j | 0 <= i < j < |pi| ensures pi[i] != pi[j] {
      assert MapsBack(pi, i + 1) && MapsBack(pi, j + 1);
    }
    PermutationSortsToRange(pi);
  }

  // ---------------------------------------------------------------- the checks

  datatype PermutationError = WrongLength | NotAPermutation | SelfMapping | NotSymmetric | OddOrEmpty

  /** The loop after the sorted check, shared in substance by the Python checks. */
  method CheckSymmetric(pi: seq<int>) returns (e: Option<PermutationError>)
    requires InRange(pi)
    ensures e.None? <==> Pairing(pi)
    ensures e.Some? ==> e.value == SelfMapping || e.value == NotSymmetric
  {
    var i := 0;
    while i < |pi|
      invariant 0 <= i <= |pi|
      invariant forall k | 1 <= k <= i :: MapsBack(pi, k)
    {
      if i + 1 == pi[i] {
        assert !MapsBack(pi, i + 1);
        return Some(SelfMapping);
      }
      if pi[pi[i] - 1] != i + 1 {
        assert !MapsBack(pi, i + 1);
        return Some(NotSymmetric);
      }
      i := i + 1;
    }
    return None;
  }

  /** The device profile's check of its initial mapping. */
  method ValidateMapping(pi: seq<int>, hosts: nat) returns (e: Option<PermutationError>)
    ensures e.None? <==> |pi| == hosts && Pairing(pi)
  {
    if |pi| != hosts {
      return Some(WrongLength);
    }
    if SortInts(pi) != Range(hosts) {
      if Pairing(pi) { PairingsAreSorted(pi); }
      return Some(NotAPermutation);
    }
    SortedCheckMeans(pi);
    e := CheckSymmetric(pi);
  }

  /** The benchmark's check, which also asks for a positive even length. */
  method ValidatePi(pi: seq<int>) returns (e: Option<PermutationError>)
    ensures e.None? <==> |pi| > 0 && Pairing(pi)
  {
    if |pi| < 2 || |pi| % 2 != 0 {
      if Pairing(pi) { PairingsAreEven(pi); }
      return Some(OddOrEmpty);
    }
    if SortInts(pi) != Range(|pi|) {
      if Pairing(pi) { PairingsAreSorted(pi); }
      return Some(NotAPermutation);
    }
    SortedCheckMeans(pi);
    e := CheckSymmetric(pi);
  }

  // ---------------------------------------------------------------- from a permutation

  function ConnectionFor(low: nat, high: nat): Connection {
    Connection(ConnectionName(low, high), PortName(low), PortName(high), true)
  }

  /** Slot k is the lower end of its pair. */
  predicate Lower(pi: seq<int>, k: nat)
    requires InRange(pi) && 1 <= k <= |pi|
  {
    k < pi[k - 1]
  }

  /** One connection for every slot that is the lower end of its pair, among the first k slots. */
  function Canonical(pi: seq<int>, k: nat): seq<Connection>
    requires k <= |pi| && InRange(pi)
  {
    if k == 0 then []
    else Canonical(pi, k - 1) + if Lower(pi, k) then [ConnectionFor(k, pi[k - 1])] else []
  }

  lemma {:induction false} CanonicalItems(pi: seq<int>, k: nat)
    requires k <= |pi| && InRange(pi)
    ensures forall c :: c in Canonical(pi, k)
                        <==> exists i :: 1 <= i <= k && Lower(pi, i) && c == ConnectionFor(i, pi[i - 1])
  {
    if k > 0 { CanonicalItems(pi, k - 1); }
  }

  lemma {:induction false} CanonicalOrigin(pi: seq<int>, k: nat, c: Connection) returns (i: nat)
    requires k <= |pi| && InRange(pi) && c in Canonical(pi, k)
    ensures 1 <= i <= k && Lower(pi, i) && c == ConnectionFor(i, pi[i - 1])
  {
    if c in Canonical(pi, k - 1) {
      i := CanonicalOrigin(pi, k - 1, c);
    } else {
      i := k;
    }
  }

  lemma CanonicalCompatible(pi: seq<int>, k: nat, d: Connection)
    requires 1 <= k <= |pi| && Pairing(pi) && Lower(pi, k) && d in Canonical(pi, k - 1)
    ensures Compatible(d, ConnectionFor(k, pi[k - 1]))
  {
    var i := CanonicalOrigin(pi, k - 1, d);
    assert MapsBack(pi, i) && MapsBack(pi, k);
    SlotsDiffer(i, pi[i - 1], k, pi[k - 1]);
  }

  /** Names and ports never clash. */
  lemma {:induction false} CanonicalValid(pi: seq<int>, k: nat)
    requires k <= |pi| && Pairing(pi)
    ensures ValidItems(|pi|, Canonical(pi, k))
  {
    if k > 0 {
      CanonicalValid(pi, k - 1);
      if Lower(pi, k) {
        var init, c := Canonical(pi, k - 1), ConnectionFor(k, pi[k - 1]);
        CompatibleWithAll(|pi|, init, c);
        WellFormedFor(|pi|, k, pi[k - 1]);
        forall d | d in init ensures Compatible(d, c) { CanonicalCompatible(pi, k, d); }
      }
    }
  }

  lemma WellFormedFor(n: nat, low: nat, high: nat)
    requires 1 <= low < high <= n
    ensures WellFormed(n, ConnectionFor(low, high))
    ensures PairsOf(n, ConnectionFor(low, high)) == {Pair(low, high), Pair(high, low)}
  {
    IndexOfPortName(n, low);
    IndexOfPortName(n, high);
  }

  lemma SlotsDiffer(i: nat, a: nat, k: nat, b: nat)
    requires i != k && i != b && a != k && a != b
    ensures Compatible(ConnectionFor(i, a), ConnectionFor(k, b))
  {
    if ConnectionName(i, a) == ConnectionName(k, b) { ConnectionNamesDiffer(i, a, k, b); }
    if PortName(i) == PortName(k) { PortNamesDiffer(i, k); }
    if PortName(i) == PortName(b) { PortNamesDiffer(i, b); }
    if PortName(a) == PortName(k) { PortNamesDiffer(a, k); }
    if PortName(a) == PortName(b) { PortNamesDiffer(a, b); }
  }

  /** The pairs (1, pi[1]) .. (k, pi[k]). */
  function Graph(pi: seq<int>, k: nat): set<Pair>
    requires k <= |pi| && InRange(pi)
  {
    if k == 0 then {} else Graph(pi, k - 1) + {Pair(k, pi[k - 1])}
  }

  lemma {:induction false} InGraph(pi: seq<int>, k: nat, p: Pair)
    requires k <= |pi| && InRange(pi)
    ensures p in Graph(pi, k) <==> 1 <= p.ingress <= k && p.egress == pi[p.ingress - 1]
  {
    if k > 0 { InGraph(pi, k - 1, p); }
  }

  lemma {:induction false} GraphSize(pi: seq<int>, k: nat)
    requires k <= |pi| && InRange(pi)
    ensures |Graph(pi, k)| == k
  {
    if k > 0 {
      GraphSize(pi, k - 1);
      InGraph(pi, k - 1, Pair(k, pi[k - 1]));
    }
  }

  /** The pairs of the resulting set are the graph of the permutation. */
  lemma CanonicalPairs(pi: seq<int>)
    requires Pairing(pi)
    ensures ValidItems(|pi|, Canonical(pi, |pi|))
    ensures Pairs(|pi|, Canonical(pi, |pi|)) == Graph(pi, |pi|)
  {
    CanonicalValid(pi, |pi|);
    forall p ensures p in Pairs(|pi|, Canonical(pi, |pi|)) <==> p in Graph(pi, |pi|) {
      if p in Graph(pi, |pi|) { GraphInPairs(pi, p); }
      if p in Pairs(|pi|, Canonical(pi, |pi|)) { PairsInGraph(pi, p); }
    }
  }

  /** The lower end of the connection that a pair of the graph belongs to. */
  lemma GraphLow(pi: seq<int>, p: Pair) returns (low: nat)
    requires Pairing(pi) && p in Graph(pi, |pi|)
    ensures 1 <= low <= |pi| && Lower(pi, low) && (p == Pair(low, pi[low - 1]) || p == Pair(pi[low - 1], low))
  {
    InGraph(pi, |pi|, p);
    assert MapsBack(pi, p.ingress);
    low := if p.ingress < p.egress then p.ingress else p.egress;
  }

  lemma GraphInPairs(pi: seq<int>, p: Pair)
    requires Pairing(pi) && ValidItems(|pi|, Canonical(pi, |pi|)) && p in Graph(pi, |pi|)
    ensures p in Pairs(|pi|, Canonical(pi, |pi|))
  {
    var n, items := |pi|, Canonical(pi, |pi|);
    var low := GraphLow(pi, p);
    WellFormedFor(n, low, pi[low - 1]);
    CanonicalItems(pi, n);
    PairOfItem(n, items, ConnectionFor(low, pi[low - 1]), p);
  }

  lemma PairsInGraph(pi: seq<int>, p: Pair)
    requires Pairing(pi) && ValidItems(|pi|, Canonical(pi, |pi|)) && p in Pairs(|pi|, Canonical(pi, |pi|))
    ensures p in Graph(pi, |pi|)
  {
    PairOwner(|pi|, Canonical(pi, |pi|), p);
    var c :| c in Canonical(pi, |pi|) && WellFormed(|pi|, c) && p in PairsOf(|pi|, c);
    var i := CanonicalOrigin(pi, |pi|, c);
    WellFormedFor(|pi|, i, pi[i - 1]);
    BothWaysInGraph(pi, i);
  }

  lemma BothWaysInGraph(pi: seq<int>, i: nat)
    requires Pairing(pi) && 1 <= i <= |pi|
    ensures Pair(i, pi[i - 1]) in Graph(pi, |pi|) && Pair(pi[i - 1], i) in Graph(pi, |pi|)
  {
    assert MapsBack(pi, i);
    InGraph(pi, |pi|, Pair(i, pi[i - 1]));
    InGraph(pi, |pi|, Pair(pi[i - 1], i));
  }

  /** A full set has exactly n/2 connections; a parity check can reject nothing more. */
  lemma PairingsAreEven(pi: seq<int>)
    requires Pairing(pi)
    ensures |pi| == 2 * |Canonical(pi, |pi|)|
  {
    CanonicalPairs(pi);
    PairsMatch(|pi|, Canonical(pi, |pi|));
    GraphSize(pi, |pi|);
  }

  /** Slots that have been visited once the pass is through the first i slots. */
  predicate Visited(pi: seq<int>, i: nat, slot: int)
    requires i <= |pi|
  {
    1 <= slot <= i || slot in pi[..i]
  }

  lemma VisitedGrows(pi: seq<int>, i: nat, slot: int)
    requires i < |pi|
    ensures Visited(pi, i + 1, slot) <==> Visited(pi, i, slot) || slot == i + 1 || slot == pi[i]
  {
    assert pi[..i + 1] == pi[..i] + [pi[i]];
  }

  lemma VisitedBefore(pi: seq<int>, i: nat)
    requires InRange(pi) && i < |pi|
    requires forall k | 1 <= k <= i + 1 :: MapsBack(pi, k)
    ensures Visited(pi, i, i + 1) <==> pi[i] < i + 1
  {
    assert MapsBack(pi, i + 1);
    if i + 1 in pi[..i] {
      var k :| 0 <= k < i && pi[..i][k] == i + 1;
      assert MapsBack(pi, k + 1);
    }
    if pi[i] < i + 1 { assert pi[..i][pi[i] - 1] == i + 1; }
  }

  /** The pass meets an unvisited slot exactly at the lower end of a pair. */
  lemma UnvisitedIsLower(pi: seq<int>, i: nat)
    requires InRange(pi) && i < |pi|
    requires forall k | 1 <= k <= i + 1 :: MapsBack(pi, k)
    ensures !Visited(pi, i, i + 1) <==> Lower(pi, i + 1)
    ensures forall slot :: Visited(pi, i + 1, slot) <==> Visited(pi, i, slot) || slot == i + 1 || slot == pi[i]
    ensures Visited(pi, i, i + 1) ==> Visited(pi, i, pi[i])
  {
    assert MapsBack(pi, i + 1);
    VisitedBefore(pi, i);
    forall slot ensures Visited(pi, i + 1, slot) <==> Visited(pi, i, slot) || slot == i + 1 || slot == pi[i] {
      VisitedGrows(pi, i, slot);
    }
  }

  /** The Python agent: sorted check, then one pass that checks symmetry and collects the
      connections of unvisited slots. */
  method FromPermutationPython(n: nat, pi: seq<int>) returns (r: Result<ConnectionSet, PermutationError>)
    ensures r.Success? <==> |pi| == n && Pairing(pi)
    ensures r.Success? ==> Valid(r.value) && r.value == ConnectionSet(n, Canonical(pi, n))
  {
    if |pi| != n {
      return Failure(WrongLength);
    }
    SortedCheckMeans(pi);
    if SortInts(pi) != Range(n) {
      if Pairing(pi) { PairingsAreSorted(pi); }
      return Failure(NotAPermutation);
    }
    var connections: seq<Connection> := [];
    var visited: set<int> := {};
    var i := 0;
    while i < n
      invariant 0 <= i <= n
      invariant forall k | 1 <= k <= i :: MapsBack(pi, k)
      invariant forall slot :: slot in visited <==> Visited(pi, i, slot)
      invariant connections == Canonical(pi, i)
    {
      var source, destination := i + 1, pi[i];
      if source == destination {
        assert !MapsBack(pi, source);
        return Failure(SelfMapping);
      }
      if pi[destination - 1] != source {
        assert !MapsBack(pi, source);
        return Failure(NotSymmetric);
      }
      UnvisitedIsLower(pi, i);
      if source !in visited {
        visited := visited + {source, destination};
        var low := if source < destination then source else destination;
        var high := if source < destination then destination else source;
        connections := connections + [ConnectionFor(low, high)];
      }
      i := i + 1;
    }
    CanonicalValid(pi, n);
    var built := NewConnectionSet(n, connections);
    return Success(built.value);
  }

  /** The first pass of the Go agent, with its seen array. */
  method CheckSeen(pi: seq<nat>) returns (e: Option<PermutationError>)
    ensures e.None? <==> InRange(pi) && NoRepeats(pi) && forall k | 0 <= k < |pi| :: pi[k] != k + 1
    ensures Pairing(pi) ==> e.None?
  {
    var n := |pi|;
    if Pairing(pi) {
      PairingsAreSorted(pi);
      forall k | 0 <= k < n ensures pi[k] != k + 1 { assert MapsBack(pi, k + 1); }
    }
    var seen := new bool[n + 1](_ => false);
    var i := 0;
    while i < n
      invariant 0 <= i <= n
      invariant forall k | 0 <= k < i :: 1 <= pi[k] <= n && pi[k] != k + 1
      invariant NoRepeats(pi[..i])
      invariant forall x | 0 <= x <= n :: seen[x] <==> x in pi[..i]
    {
      var destination := pi[i];
      assert pi[..i + 1] == pi[..i] + [destination];
      if destination == 0 || destination > n || seen[destination] {
        return Some(NotAPermutation);
      }
      seen[destination] := true;
      if destination == i + 1 {
        return Some(SelfMapping);
      }
      i := i + 1;
    }
    assert pi[..n] == pi;
    return None;
  }

  /** The Go agent: the seen check, then a pass with a visited array. */
  method FromPermutationGo(n: nat, pi: seq<nat>) returns (r: Result<ConnectionSet, PermutationError>)
    ensures r.Success? <==> |pi| == n && Pairing(pi)
    ensures r.Success? ==> Valid(r.value) && r.value == ConnectionSet(n, Canonical(pi, n))
  {
    if |pi| != n {
      return Failure(WrongLength);
    }
    var e := CheckSeen(pi);
    if e.Some? {
      return Failure(e.value);
    }
    var connections: seq<Connection> := [];
    var visited := new bool[n + 1](_ => false);
    var i := 0;
    while i < n
      invariant 0 <= i <= n
      invariant forall k | 1 <= k <= i :: MapsBack(pi, k)
      invariant forall slot | 0 <= slot <= n :: visited[slot] <==> Visited(pi, i, slot)
      invariant connections == Canonical(pi, i)
    {
      var source, destination := i + 1, pi[i];
      if pi[destination - 1] != source {
        assert !MapsBack(pi, source);
        return Failure(NotSymmetric);
      }
      assert MapsBack(pi, source);
      UnvisitedIsLower(pi, i);
      if !visited[source] {
        visited[source] := true;
        visited[destination] := true;
        var low := if source < destination then source else destination;
        var high := if source < destination then destination else source;
        connections := connections + [ConnectionFor(low, high)];
      }
      i := i + 1;
    }
    CanonicalValid(pi, n);
    var built := NewConnectionSet(n, connections);
    return Success(built.value);
  }

  // ---------------------------------------------------------------- to a permutation

  /** Every slot is the source of a pair, once the set uses all of them. */
  lemma FullSetsCover(s: ConnectionSet, k: nat)
    requires Valid(s) && 2 * |s.items| == s.n && 1 <= k <= s.n
    ensures exists p :: p in DirectedPairs(s) && p.ingress == k
  {
    var pairs := DirectedPairs(s);
    PairsMatch(s.n, s.items);
    SourcesSize(pairs);
    assert Sources(pairs) <= Slots(s.n);
    SubsetOfSameSize(Sources(pairs), Slots(s.n));
    assert k in Sources(pairs);
  }

  /** With all slots covered, nothing of the initial zeros is left. */
  lemma FullSetsFill(s: ConnectionSet, mapping: seq<nat>)
    requires Valid(s) && 2 * |s.items| == s.n && |mapping| == s.n
    requires Matching(s.n, DirectedPairs(s))
    requires forall p | p in DirectedPairs(s) :: mapping[p.ingress - 1] == p.egress
    ensures forall k | 0 <= k < s.n :: mapping[k] != 0
    ensures Pairing(mapping) && Graph(mapping, s.n) == DirectedPairs(s)
  {
    var pairs := DirectedPairs(s);
    forall k | 0 <= k < s.n ensures Pair(k + 1, mapping[k]) in pairs {
      FullSetsCover(s, k + 1);
      var p :| p in pairs && p.ingress == k + 1;
      assert p == Pair(k + 1, mapping[k]);
    }
    GraphOfFullSet(s.n, mapping, pairs);
  }

  function Sources(pairs: set<Pair>): set<nat> {
    set p | p in pairs :: p.ingress
  }

  lemma {:induction false} SourcesSize(pairs: set<Pair>)
    requires PortExclusive(pairs)
    ensures |Sources(pairs)| == |pairs|
    decreases |pairs|
  {
    if pairs != {} {
      var p :| p in pairs;
      var rest := pairs - {p};
      SourcesSize(rest);
      assert Sources(pairs) == Sources(rest) + {p.ingress};
    }
  }

  datatype ToError = Sparse | ZeroSlot

  /** The agents write the pairs of the set, in any order, into a list of zeros.  The list comes
      out exactly for full sets, and the check for a remaining zero never fires. */
  method ToPermutation(s: ConnectionSet) returns (r: Result<seq<int>, ToError>)
    requires Valid(s)
    ensures r.Success? <==> 2 * |s.items| == s.n
    ensures r.Failure? ==> r.error == Sparse
    ensures r.Success? ==> |r.value| == s.n && Pairing(r.value) && Graph(r.value, s.n) == DirectedPairs(s)
  {
    if 2 * |s.items| != s.n {
      return Failure(Sparse);
    }
    var pairs := CollectDirectedPairs(s);
    PairsMatch(s.n, s.items);
    var mapping := Fill(s.n, pairs);
    FullSetsFill(s, mapping);
    var i := 0;
    while i < s.n
      invariant 0 <= i <= s.n
    {
      if mapping[i] == 0 {
        return Failure(ZeroSlot);
      }
      i := i + 1;
    }
    return Success(mapping);
  }

  /** Write the pairs, in any order, into a list of zeros. */
  method Fill(n: nat, pairs: set<Pair>) returns (mapping: seq<nat>)
    requires Matching(n, pairs)
    ensures |mapping| == n
    ensures forall p | p in pairs :: mapping[p.ingress - 1] == p.egress
  {
    var slots := new nat[n](_ => 0);
    var rest := pairs;
    while rest != {}
      invariant rest <= pairs
      invariant forall p | p in pairs - rest :: slots[p.ingress - 1] == p.egress
      decreases rest
    {
      var p :| p in rest;
      slots[p.ingress - 1] := p.egress;
      rest := rest - {p};
    }
    return slots[..];
  }

  lemma GraphOfFullSet(n: nat, pi: seq<int>, pairs: set<Pair>)
    requires Matching(n, pairs) && |pi| == n
    requires forall k | 0 <= k < n :: pi[k] >= 0 && Pair(k + 1, pi[k]) in pairs
    ensures Pairing(pi) && Graph(pi, n) == pairs
  {
    forall k | 0 <= k < n ensures 1 <= pi[k] <= n { assert Pair(k + 1, pi[k]) in pairs; }
    forall k | 1 <= k <= n ensures MapsBack(pi, k) {
      var peer := pi[k - 1];
      assert Pair(k, peer) in pairs && Pair(peer, k) in pairs;
      assert Pair(peer, pi[peer - 1]) in pairs;
    }
    forall p ensures p in Graph(pi, n) <==> p in pairs {
      InGraph(pi, n, p);
      if p in pairs { assert Pair(p.ingress, pi[p.ingress - 1]) in pairs; }
    }
  }

  lemma GraphDetermines(pi: seq<int>, rho: seq<int>)
    requires Pairing(pi) && Pairing(rho) && |pi| == |rho| && Graph(pi, |pi|) == Graph(rho, |rho|)
    ensures pi == rho
  {
    forall k | 0 <= k < |pi| ensures pi[k] == rho[k] {
      InGraph(pi, |pi|, Pair(k + 1, pi[k]));
      InGraph(rho, |rho|, Pair(k + 1, pi[k]));
    }
  }

  /** to_permutation(from_permutation(pi)) == pi for every accepted list, through a set of
      exactly n/2 connections. */
  method PermutationRoundTrip(pi: seq<int>) returns (s: ConnectionSet, back: seq<int>)
    requires Pairing(pi)
    ensures Valid(s) && 2 * |s.items| == |pi| && back == pi
  {
    PairingsAreEven(pi);
    CanonicalPairs(pi);
    var built := FromPermutationPython(|pi|, pi);
    s := built.value;
    var r := ToPermutation(s);
    back := r.value;
    GraphDetermines(back, pi);
  }

  /** Rebuilding a full set from its permutation gives canonical names but the same table. */
  method RebuildKeepsPairs(s: ConnectionSet) returns (t: ConnectionSet)
    requires Valid(s) && 2 * |s.items| == s.n
    ensures Valid(t) && t.n == s.n && DirectedPairs(t) == DirectedPairs(s)
  {
    var r := ToPermutation(s);
    var built := FromPermutationPython(s.n, r.value);
    t := built.value;
    CanonicalPairs(r.value);
  }
}
