/** Over whole runs of the Python agent: which call left the status at "updating", and which one made
    the cache status READY deceive. */
module OcsStatus {
  import opened DeviceTable
  import opened AgentModel
  import opened Connections
  import opened OcsCore
  import opened OcsRest
  import opened OcsHistory
  import Counters

  lemma NeitherAtStart(c: Config, initial: ValidSet, policy: StartupPolicy, device: Device)
    ensures var start := Start(c, initial, policy, device);
            start.Some? ==>
              start.value.view.status != Updating && !Deceives(start.value.model, start.value.view)
  {
    StartAgrees(c, DirectedPairs(initial), policy, device);
  }

  // ---------------------------------------------------------------- left at "updating"

  predicate UpdatingAt(h: History, k: nat)
    requires k < |h.agents|
  {
    h.agents[k].view.status == Updating
  }

  predicate SetsStatusAt(h: History, k: nat)
    requires IsHistory(h) && k < |h.events|
  {
    assert StepsAt(h, k);
    SetsStatus(h.agents[k], h.events[k])
  }

  predicate LeavesUpdatingAt(h: History, k: nat)
    requires IsHistory(h) && k < |h.events|
  {
    assert StepsAt(h, k);
    WillStayUpdating(h.agents[k], h.events[k])
  }

  lemma UpdatingMoves(h: History, k: nat)
    requires IsHistory(h) && k < |h.events|
    ensures UpdatingAt(h, k + 1) <==> if SetsStatusAt(h, k) then LeavesUpdatingAt(h, k) else UpdatingAt(h, k)
    ensures LeavesUpdatingAt(h, k) ==> SetsStatusAt(h, k)
  {
    assert StepsAt(h, k);
    LeftUpdatingIff(h.agents[k], h.events[k]);
  }

  function Updatings(h: History): (r: seq<bool>)
    ensures |r| == |h.agents|
  {
    seq(|h.agents|, k requires 0 <= k < |h.agents| => UpdatingAt(h, k))
  }

  function StatusSettings(h: History): (r: seq<bool>)
    requires IsHistory(h)
    ensures |r| == |h.events|
  {
    seq(|h.events|, k requires 0 <= k < |h.events| => SetsStatusAt(h, k))
  }

  function UpdatingVerdicts(h: History): (r: seq<bool>)
    requires IsHistory(h)
    ensures |r| == |h.events|
  {
    seq(|h.events|, k requires 0 <= k < |h.events| => LeavesUpdatingAt(h, k))
  }

  /** Call k left "updating" behind, and none has judged the status since, before call i. */
  predicate UpdatingSince(h: History, k: nat, i: nat)
    requires IsHistory(h) && i <= |h.events|
  {
    Counters.Decisive(StatusSettings(h), UpdatingVerdicts(h), k, i)
  }

  /** In every run: the status is "updating" exactly when some write or change of mode passed the checks
      and stopped short, and since then no write has passed, no recovery has gone ahead, and no
      reconciliation has found anything to report or to clear. */
  lemma UpdatingIff(h: History, c: Config, initial: ValidSet, policy: StartupPolicy, device: Device, i: nat)
    requires FromStart(h, c, initial, policy, device) && i < |h.agents|
    ensures UpdatingAt(h, i) <==> exists k: nat :: UpdatingSince(h, k, i)
  {
    NeitherAtStart(c, initial, policy, device);
    var flags, decides, verdicts := Updatings(h), StatusSettings(h), UpdatingVerdicts(h);
    forall k | 0 <= k < i ensures flags[k + 1] == if decides[k] then verdicts[k] else flags[k] {
      UpdatingMoves(h, k);
    }
    Counters.LastDecision(flags, decides, verdicts, i);
    assert forall k: nat :: Counters.Decisive(decides, verdicts, k, i) <==> UpdatingSince(h, k, i);
  }

  // ---------------------------------------------------------------- READY over a wrong table

  predicate DeceivesAt(h: History, k: nat)
    requires k < |h.agents|
  {
    Deceives(h.agents[k].model, h.agents[k].view)
  }

  predicate SetsCacheAt(h: History, k: nat)
    requires IsHistory(h) && k < |h.events|
  {
    assert StepsAt(h, k);
    SetsCache(h.agents[k], h.events[k])
  }

  predicate FallsApartAt(h: History, k: nat)
    requires IsHistory(h) && k < |h.events|
  {
    assert StepsAt(h, k);
    WillDeceive(h.agents[k], h.events[k])
  }

  lemma DeceivingMoves(h: History, k: nat)
    requires IsHistory(h) && k < |h.events|
    ensures DeceivesAt(h, k + 1) <==> if SetsCacheAt(h, k) then FallsApartAt(h, k) else DeceivesAt(h, k)
    ensures FallsApartAt(h, k) ==> SetsCacheAt(h, k)
  {
    assert StepsAt(h, k);
    ReadyDeceivesIff(h.agents[k], h.events[k]);
  }

  function Deceptions(h: History): (r: seq<bool>)
    ensures |r| == |h.agents|
  {
    seq(|h.agents|, k requires 0 <= k < |h.agents| => DeceivesAt(h, k))
  }

  function CacheSettings(h: History): (r: seq<bool>)
    requires IsHistory(h)
    ensures |r| == |h.events|
  {
    seq(|h.events|, k requires 0 <= k < |h.events| => SetsCacheAt(h, k))
  }

  function DeceptionVerdicts(h: History): (r: seq<bool>)
    requires IsHistory(h)
    ensures |r| == |h.events|
  {
    seq(|h.events|, k requires 0 <= k < |h.events| => FallsApartAt(h, k))
  }

  /** Call k made READY deceive, and none has judged the cache since, before call i. */
  predicate DeceivingSince(h: History, k: nat, i: nat)
    requires IsHistory(h) && i <= |h.events|
  {
    Counters.Decisive(CacheSettings(h), DeceptionVerdicts(h), k, i)
  }

  /** In every run: the reported cache status is READY over a wrong table exactly when some write or
      change of mode fell apart, in its update and in its rollback, and since then no write has got to
      the table, no recovery has gone ahead and nobody has reconciled. */
  lemma DeceivingIff(h: History, c: Config, initial: ValidSet, policy: StartupPolicy, device: Device, i: nat)
    requires FromStart(h, c, initial, policy, device) && i < |h.agents|
    ensures DeceivesAt(h, i) <==> exists k: nat :: DeceivingSince(h, k, i)
  {
    NeitherAtStart(c, initial, policy, device);
    var flags, decides, verdicts := Deceptions(h), CacheSettings(h), DeceptionVerdicts(h);
    forall k | 0 <= k < i ensures flags[k + 1] == if decides[k] then verdicts[k] else flags[k] {
      DeceivingMoves(h, k);
    }
    Counters.LastDecision(flags, decides, verdicts, i);
    assert forall k: nat :: Counters.Decisive(decides, verdicts, k, i) <==> DeceivingSince(h, k, i);
  }
}
