/** The ports of an inventory: slots 1..n, named port-1 .. port-n, for any n. */
module Inventory {
  import opened Wrappers

  function Slots(n: nat): (s: set<nat>)
    ensures forall k :: k in s <==> 1 <= k <= n
    ensures |s| == n
  {
    if n == 0 then {} else Slots(n - 1) + {n}
  }

  lemma SubsetOfSameSize<T>(a: set<T>, b: set<T>)
    requires a <= b && |a| == |b|
    ensures a == b
  {
    assert |b - a| == |b| - |a|;
  }

  function Digits(k: nat): string {
    var last := [('0' as int + k % 10) as char];
    if k < 10 then last else Digits(k / 10) + last
  }

  function Value(digits: string): int {
    if digits == [] then 0
    else Value(digits[..|digits| - 1]) * 10 + (digits[|digits| - 1] as int - '0' as int)
  }

  lemma {:induction false} DigitsRead(k: nat)
    ensures Value(Digits(k)) == k && Digits(k) != []
    ensures forall c | c in Digits(k) :: c != '-'
  {
    var last := [('0' as int + k % 10) as char];
    if k < 10 {
      assert Digits(k) == last && last[..0] == [];
    } else {
      DigitsRead(k / 10);
      assert Digits(k)[..|Digits(k)| - 1] == Digits(k / 10);
    }
  }

  function PortName(k: nat): string {
    "port-" + Digits(k)
  }

  lemma PortNamesDiffer(j: nat, k: nat)
    requires PortName(j) == PortName(k)
    ensures j == k
  {
    assert Digits(j) == PortName(j)[5..] && Digits(k) == PortName(k)[5..];
    DigitsRead(j);
    DigitsRead(k);
  }

  /** The slot of a port name. */
  function FindPort(n: nat, name: string): (r: Option<nat>)
    ensures r.Some? ==> 1 <= r.value <= n && PortName(r.value) == name
    ensures r.None? ==> forall k | 1 <= k <= n :: PortName(k) != name
  {
    if n == 0 then None
    else if PortName(n) == name then Some(n)
    else FindPort(n - 1, name)
  }

  predicate KnownPort(n: nat, name: string) {
    FindPort(n, name).Some?
  }

  function Index(n: nat, name: string): (k: nat)
    requires KnownPort(n, name)
    ensures 1 <= k <= n && PortName(k) == name
  {
    FindPort(n, name).value
  }

  lemma NoEmptyPort(n: nat)
    ensures !KnownPort(n, "")
  {
    forall k | 1 <= k <= n ensures PortName(k) != "" { assert |PortName(k)| >= 5; }
  }

  lemma IndexOfPortName(n: nat, k: nat)
    requires 1 <= k <= n
    ensures KnownPort(n, PortName(k)) && Index(n, PortName(k)) == k
  {
    if KnownPort(n, PortName(k)) { PortNamesDiffer(Index(n, PortName(k)), k); }
  }

  function ConnectionName(j: nat, k: nat): string {
    "conn-" + PortName(j) + "-" + PortName(k)
  }

  function FirstDash(text: string): nat {
    if text == [] || text[0] == '-' then 0 else 1 + FirstDash(text[1..])
  }

  lemma {:induction false} FirstDashAfter(a: string, b: string)
    requires forall x | x in a :: x != '-'
    ensures FirstDash(a + "-" + b) == |a|
  {
    if a != [] {
      assert (a + "-" + b)[0] == a[0] && a[0] in a;
      assert (a + "-" + b)[1..] == a[1..] + "-" + b;
      assert forall x | x in a[1..] :: x in a;
      FirstDashAfter(a[1..], b);
    }
  }

  /** Text up to the first dash determines both sides of it. */
  lemma SplitAtDash(a: string, b: string, c: string, d: string)
    requires a + "-" + b == c + "-" + d
    requires (forall x | x in a :: x != '-') && (forall x | x in c :: x != '-')
    ensures a == c && b == d
  {
    FirstDashAfter(a, b);
    FirstDashAfter(c, d);
    assert a == (a + "-" + b)[..|a|] && c == (c + "-" + d)[..|c|];
    assert b == (a + "-" + b)[|a| + 1..] && d == (c + "-" + d)[|c| + 1..];
  }

  lemma ConnectionNameTail(j: nat, k: nat)
    ensures ConnectionName(j, k)[10..] == Digits(j) + "-" + PortName(k)
  {
  }

  lemma ConnectionNamesDiffer(i: nat, j: nat, k: nat, l: nat)
    requires ConnectionName(i, j) == ConnectionName(k, l)
    ensures i == k && j == l
  {
    DigitsRead(i);
    DigitsRead(k);
    ConnectionNameTail(i, j);
    ConnectionNameTail(k, l);
    SplitAtDash(Digits(i), PortName(j), Digits(k), PortName(l));
    PortNamesDiffer(i, k);
    PortNamesDiffer(j, l);
  }
}
