/** The connectivity test between all hosts: one probe per ordered pair of different hosts, and
    the flat index of each probe turned back into its pair. */
module PingAll {
  type Probe = (nat, nat)

  predicate OffDiagonal(n: nat, p: Probe) {
    1 <= p.0 <= n && 1 <= p.1 <= n && p.0 != p.1
  }

  /** The pair that the result loop computes from a flat index. */
  function Decode(n: nat, index: nat): Probe
    requires n >= 2
  {
    var source := index / (n - 1) + 1;
    var column := index % (n - 1) + 1;
    (source, if column < source then column else column + 1)
  }

  /** How many probes come before this one. */
  function Position(n: nat, p: Probe): nat
    requires OffDiagonal(n, p)
  {
    (p.0 - 1) * (n - 1) + if p.1 < p.0 then p.1 - 1 else p.1 - 2
  }

  lemma DivideBack(quotient: nat, divisor: nat, rest: nat)
    requires rest < divisor
    ensures (quotient * divisor + rest) / divisor == quotient
    ensures (quotient * divisor + rest) % divisor == rest
  {
    var whole := quotient * divisor + rest;
    var q, r := whole / divisor, whole % divisor;
    assert whole == q * divisor + r;
    Times(q + 1, quotient, divisor);
    Times(quotient + 1, q, divisor);
  }

  lemma Times(a: nat, b: nat, factor: nat)
    ensures a <= b ==> a * factor <= b * factor
  {
  }

  lemma PositionFits(n: nat, p: Probe)
    requires OffDiagonal(n, p)
    ensures Position(n, p) < n * (n - 1)
  {
    assert (p.0 - 1) * (n - 1) + (n - 1) == p.0 * (n - 1);
    assert p.0 * (n - 1) <= n * (n - 1);
  }

  /** Decoding a probe's position gives the probe. */
  lemma DecodePosition(n: nat, p: Probe)
    requires OffDiagonal(n, p)
    ensures Decode(n, Position(n, p)) == p
  {
    DivideBack(p.0 - 1, n - 1, if p.1 < p.0 then p.1 - 1 else p.1 - 2);
  }

  lemma QuotientFits(index: nat, n: nat)
    requires n >= 2 && index < n * (n - 1)
    ensures index / (n - 1) < n
  {
    Times(n, index / (n - 1), n - 1);
    assert index / (n - 1) * (n - 1) <= index;
  }

  /** Every index below n(n-1) decodes to an off-diagonal pair, whose position it is: decoding is
      a bijection. */
  lemma PositionDecode(n: nat, index: nat)
    requires n >= 2 && index < n * (n - 1)
    ensures OffDiagonal(n, Decode(n, index)) && Position(n, Decode(n, index)) == index
  {
    QuotientFits(index, n);
  }

  /** The nested loops that submit the probes. */
  method SubmitAll(n: nat) returns (futures: seq<Probe>)
    ensures |futures| == if n == 0 then 0 else n * (n - 1)
    ensures forall index | 0 <= index < |futures| :: n >= 2 && futures[index] == Decode(n, index)
  {
    futures := [];
    var source := 1;
    while source <= n
      invariant 1 <= source <= n + 1
      invariant |futures| == if n == 0 then 0 else (source - 1) * (n - 1)
      invariant forall index | 0 <= index < |futures| :: n >= 2 && futures[index] == Decode(n, index)
    {
      var destination := 1;
      while destination <= n
        invariant 1 <= destination <= n + 1
        invariant |futures|
                  == (source - 1) * (n - 1) + if destination <= source then destination - 1 else destination - 2
        invariant forall index | 0 <= index < |futures| :: n >= 2 && futures[index] == Decode(n, index)
      {
        if source != destination {
          DecodePosition(n, (source, destination));
          futures := futures + [(source, destination)];
        }
        destination := destination + 1;
      }
      assert (source - 1) * (n - 1) + (n - 1) == source * (n - 1);
      source := source + 1;
    }
  }

  /** Every off-diagonal pair is probed exactly once. */
  lemma ProbedOnce(n: nat, futures: seq<Probe>, p: Probe)
    requires OffDiagonal(n, p) && |futures| == n * (n - 1)
    requires forall index | 0 <= index < |futures| :: n >= 2 && futures[index] == Decode(n, index)
    ensures Position(n, p) < |futures| && futures[Position(n, p)] == p
    ensures forall index | 0 <= index < |futures| && futures[index] == p :: index == Position(n, p)
  {
    PositionFits(n, p);
    DecodePosition(n, p);
    forall index | 0 <= index < |futures| && futures[index] == p ensures index == Position(n, p) {
      PositionDecode(n, index);
    }
  }

  /** The result loop: each result lands in the row of its source and the column of its
      destination, and the diagonal stays false. */
  method Collect(n: nat, results: seq<bool>) returns (connectivity: array2<bool>)
    requires |results| == if n == 0 then 0 else n * (n - 1)
    ensures connectivity.Length0 == n && connectivity.Length1 == n
    ensures forall p | OffDiagonal(n, p) ::
              Position(n, p) < |results| && connectivity[p.0 - 1, p.1 - 1] == results[Position(n, p)]
    ensures forall k | 0 <= k < n :: !connectivity[k, k]
  {
    connectivity := new bool[n, n]((_, _) => false);
    forall p | OffDiagonal(n, p) ensures Position(n, p) < |results| { PositionFits(n, p); }
    for index := 0 to |results|
      invariant forall p | OffDiagonal(n, p) ::
                  Position(n, p) < index ==> connectivity[p.0 - 1, p.1 - 1] == results[Position(n, p)]
      invariant forall k | 0 <= k < n :: !connectivity[k, k]
    {
      PositionDecode(n, index);
      var source := index / (n - 1) + 1;
      var destination := index % (n - 1) + 1;
      destination := if destination < source then destination else destination + 1;
      connectivity[source - 1, destination - 1] := results[index];
      forall p | OffDiagonal(n, p) && Position(n, p) <= index
        ensures connectivity[p.0 - 1, p.1 - 1] == results[Position(n, p)]
      {
        if Position(n, p) == index { DecodePosition(n, p); }
      }
    }
  }
}
