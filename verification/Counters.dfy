/** Counters that never fall, values that never change, and flags that the last decision sets. */
module Counters {
  lemma {:induction false} Stays<T>(values: seq<T>, i: nat, j: nat)
    requires i <= j < |values|
    requires forall k | i <= k < j && values[k] == values[i] :: values[k + 1] == values[i]
    ensures values[j] == values[i]
    decreases j
  {
    if i < j {
      Stays(values, i, j - 1);
      assert values[j - 1 + 1] == values[i];
    }
  }

  lemma {:induction false} Climbs(values: seq<nat>, i: nat, j: nat)
    requires i <= j < |values|
    requires forall k | i <= k < j :: values[k] <= values[k + 1]
    ensures values[i] <= values[j]
    decreases j
  {
    if i < j {
      Climbs(values, i, j - 1);
      assert values[j - 1] <= values[j - 1 + 1];
    }
  }

  /** Decision k is positive, and none has followed it before n. */
  predicate Decisive(decides: seq<bool>, verdicts: seq<bool>, k: nat, n: nat)
    requires n <= |decides| == |verdicts|
  {
    k < n && decides[k] && verdicts[k] && forall j | k < j < n :: !decides[j]
  }

  /** A flag that is down at first and that only decisions set is up when the last of them said so. */
  lemma {:induction false} LastDecision(flags: seq<bool>, decides: seq<bool>, verdicts: seq<bool>, n: nat)
    requires n <= |decides| == |verdicts| && n < |flags|
    requires !flags[0]
    requires forall k | 0 <= k < n :: flags[k + 1] == if decides[k] then verdicts[k] else flags[k]
    ensures flags[n] <==> exists k: nat :: Decisive(decides, verdicts, k, n)
  {
    if n > 0 {
      var m := n - 1;
      LastDecision(flags, decides, verdicts, m);
      assert flags[m + 1] == if decides[m] then verdicts[m] else flags[m];
      if decides[m] {
        assert verdicts[m] ==> Decisive(decides, verdicts, m, n);
      } else {
        forall k: nat ensures Decisive(decides, verdicts, k, n) <==> Decisive(decides, verdicts, k, m) {
        }
      }
    }
  }
}
