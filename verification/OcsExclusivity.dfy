/** Port exclusivity over whole runs of the Python agent, in "ocs" mode: when it holds, and the run
    that breaks it. */
module OcsExclusivity {
  import opened DeviceTable
  import opened Transaction
  import opened Connections
  import opened AgentModel
  import opened OcsCore
  import opened OcsRest
  import opened OcsHistory
  import opened OcsStatus
  import opened Exclusivity
  import opened Wrappers
  import opened Permutations
  import DeviceWorker

  /** A call that does not ask for debug mode, which connects everything with everything. */
  predicate OcsCall(e: Event) {
    e.SetMode? ==> e.mode != Some(DEBUG)
  }

  /** The agent is in "ocs" mode over a table without two peers of a port. */
  predicate ExclusiveAgent(a: Agent) {
    a.model.mode == OCS && PortExclusive(a.view.device.table)
  }

  /** Told before the call: a write that gets as far as the device, unread, and whose plan can add
      entries to a table that has no room for them. */
  predicate Risks(a: Agent, e: Event)
    requires GoodEvent(a.model.connections.n, e)
  {
    e.Write? &&
    var target := Target(a.model.connections, e.edits);
    && target.Success? && TargetPasses(a, target.value, e.terms) && !a.config.strict
    && Accepted(P4App(a.config.nativeBatch), e.terms.strategy, e.terms.delay, e.terms.transport)
    && !Fits(P4App(a.config.nativeBatch), a.view.device.table, CurrentPairs(a.model), DirectedPairs(target.value),
             e.terms.strategy, e.terms.delay, e.terms.transport)
  }

  // ---------------------------------------------------------------- single calls

  lemma RightTableFits(b: Backend, table: set<Pair>, target: set<Pair>, strategy: Strategy, delay: int,
                       transport: Transport)
    requires Accepted(b, strategy, delay, transport) && PortExclusive(table) && PortExclusive(target)
    ensures Fits(b, table, table, target, strategy, delay, transport)
  {
    forall script
      ensures StaysExclusive(Apply(b, Device(table, script, []), table, target, strategy, delay, transport).0.log, 0)
    {
      TransitionStaysExclusive(b, Device(table, script, []), table, target, strategy, delay, transport);
    }
    AlwaysExclusiveIff(b, table, table, target, strategy, delay, transport);
  }

  lemma ExecuteStays(c: Config, v: View, current: set<Pair>, target: set<Pair>, strategy: Strategy, terms: Terms,
                     noted: LastError)
    requires PortExclusive(v.device.table) && PortExclusive(current)
    requires Accepted(P4App(c.nativeBatch), strategy, terms.delay, terms.transport) ==>
               Fits(P4App(c.nativeBatch), v.device.table, current, target, strategy, terms.delay, terms.transport)
    ensures KeptExclusive(v.device, Execute(c, v, current, target, strategy, terms, noted).0.device)
  {
    if Accepted(P4App(c.nativeBatch), strategy, terms.delay, terms.transport) {
      FittingStays(P4App(c.nativeBatch), v.device, current, target, strategy, terms.delay, terms.transport);
    }
  }

  lemma ProgramStays(c: Config, v: View, current: set<Pair>, target: set<Pair>, strategy: Strategy, terms: Terms,
                     noted: LastError)
    requires PortExclusive(v.device.table) && PortExclusive(current) && PortExclusive(target)
    requires !c.strict && Accepted(P4App(c.nativeBatch), strategy, terms.delay, terms.transport) ==>
               Fits(P4App(c.nativeBatch), v.device.table, current, target, strategy, terms.delay, terms.transport)
    ensures KeptExclusive(v.device, Program(c, v, current, target, strategy, terms, noted).0.device)
  {
    var (v1, cause) := Precheck(c.strict, v.(status := Updating), current);
    ReadKeeps(v.device);
    if cause.None? {
      if c.strict && Accepted(P4App(c.nativeBatch), strategy, terms.delay, terms.transport) {
        RightTableFits(P4App(c.nativeBatch), current, target, strategy, terms.delay, terms.transport);
      }
      ExecuteStays(c, v1, current, target, strategy, terms, noted);
      if c.strict { KeptOn(v.device, v1.device, Execute(c, v1, current, target, strategy, terms, noted).0.device); }
    }
  }

  lemma ChangeStays(c: Config, m: Model, v: View, current: set<Pair>, pairs: set<Pair>, target: ValidSet, terms: Terms)
    requires PortExclusive(v.device.table) && PortExclusive(current) && PortExclusive(pairs)
    requires !c.strict && Accepted(P4App(c.nativeBatch), terms.strategy, terms.delay, terms.transport) ==>
               Fits(P4App(c.nativeBatch), v.device.table, current, pairs, terms.strategy, terms.delay, terms.transport)
    ensures KeptExclusive(v.device, ChangeTarget(c, m, v, current, pairs, target, terms).1.device)
  {
    ProgramStays(c, v, current, pairs, terms.strategy, terms, OtherError);
  }

  lemma TargetStays(a: Agent, target: ValidSet, terms: Terms)
    requires ExclusiveAgent(a) && TargetPasses(a, target, terms)
    requires var b := P4App(a.config.nativeBatch);
             !a.config.strict && Accepted(b, terms.strategy, terms.delay, terms.transport) ==>
               Fits(b, a.view.device.table, CurrentPairs(a.model), DirectedPairs(target), terms.strategy, terms.delay,
                    terms.transport)
    ensures KeptExclusive(a.view.device, ApplyTarget(a, target, terms).0.view.device)
  {
    SetsAreExclusive(a.model.connections);
    SetsAreExclusive(target);
    ChangeStays(a.config, a.model, a.view, CurrentPairs(a.model), DirectedPairs(target), target, terms);
  }

  lemma ReprogramStays(c: Config, d: Device, desired: set<Pair>, terms: Terms)
    requires PortExclusive(d.table) && PortExclusive(desired)
    ensures KeptExclusive(d, Reprogram(c, d, desired, terms).0)
  {
    var b := P4App(c.nativeBatch);
    var (d1, outcome) := Apply(b, d, d.table, desired, terms.strategy, terms.delay, terms.transport);
    TransitionStaysExclusive(b, d, d.table, desired, terms.strategy, terms.delay, terms.transport);
    if outcome.Returned? {
      ReadKeeps(d1);
      KeptOn(d, d1, Verify(d1, desired).0);
    }
  }

  lemma RecoverStays(c: Config, v: View, desired: set<Pair>, terms: Terms)
    requires PortExclusive(v.device.table) && PortExclusive(desired)
    ensures KeptExclusive(v.device, RecoverView(c, v, desired, terms).0.device)
  {
    var (d, read) := Send(v.device, Read, {});
    ReadKeeps(v.device);
    if read {
      ReprogramStays(c, d, desired, terms);
      KeptOn(v.device, d, Reprogram(c, d, desired, terms).0);
    }
  }

  /** Every call but a risky one keeps every port to one peer at every instant, whatever fails. */
  lemma StepStaysExclusive(a: Agent, e: Event)
    requires GoodEvent(a.model.connections.n, e) && ExclusiveAgent(a) && OcsCall(e) && !Risks(a, e)
    ensures var a' := Step(a, e).0; ExclusiveAgent(a') && KeptExclusive(a.view.device, a'.view.device)
  {
    match e
    case LeaseCall(_) =>
    case Write(edits, terms) =>
      BatchAllOrNothing(a, edits, terms);
      var t := Target(a.model.connections, edits);
      if t.Success? {
        TargetRests(a, t.value, terms);
        if TargetPasses(a, t.value, terms) { TargetStays(a, t.value, terms); }
      }
    case SetMode(mode, terms) => ModeRests(a, mode, terms);
    case RecoverDevice(terms) =>
      SetsAreExclusive(a.model.connections);
      RecoverStays(a.config, a.view, CurrentPairs(a.model), terms);
    case ReconcileDevice => ReadKeeps(a.view.device);
  }

  /** The same agent, with this in store for the requests it sends. */
  function Facing(a: Agent, script: seq<Fault>): Agent {
    a.(view := a.view.(device := Device(a.view.device.table, script, [])))
  }

  lemma FacingRisks(a: Agent, e: Event, script: seq<Fault>)
    requires GoodEvent(a.model.connections.n, e)
    ensures Risks(Facing(a, script), e) <==> Risks(a, e)
  {
  }

  /** What a write that gets as far as the device, unread, does there. */
  lemma TargetReaches(a: Agent, target: ValidSet, terms: Terms)
    requires TargetPasses(a, target, terms) && !a.config.strict
    ensures ApplyTarget(a, target, terms).0.view.device
            == Apply(P4App(a.config.nativeBatch), a.view.device, CurrentPairs(a.model), DirectedPairs(target),
                     terms.strategy, terms.delay, terms.transport).0
  {
  }

  ghost predicate AlwaysStaysExclusive(a: Agent, e: Event)
    requires GoodEvent(a.model.connections.n, e)
  {
    forall script :: StaysExclusive(Step(Facing(a, script), e).0.view.device.log, 0)
  }

  lemma RiskShows(a: Agent, e: Event) returns (script: seq<Fault>)
    requires GoodEvent(a.model.connections.n, e) && ExclusiveAgent(a) && Risks(a, e)
    ensures !StaysExclusive(Step(Facing(a, script), e).0.view.device.log, 0)
  {
    var target := Target(a.model.connections, e.edits).value;
    script := MisfitShows(P4App(a.config.nativeBatch), a.view.device.table, CurrentPairs(a.model),
                          DirectedPairs(target), e.terms.strategy, e.terms.delay, e.terms.transport);
    FacingRisks(a, e, script);
    TargetReaches(Facing(a, script), target, e.terms);
  }

  /** In "ocs" mode over an exclusive table: a call keeps every port to one peer, whatever fails,
      exactly if it is not a risky one. */
  lemma StaysExclusiveIff(a: Agent, e: Event)
    requires GoodEvent(a.model.connections.n, e) && ExclusiveAgent(a) && OcsCall(e)
    ensures AlwaysStaysExclusive(a, e) <==> !Risks(a, e)
  {
    if Risks(a, e) {
      var script := RiskShows(a, e);
    } else {
      forall script ensures StaysExclusive(Step(Facing(a, script), e).0.view.device.log, 0) {
        FacingRisks(a, e, script);
        StepStaysExclusive(Facing(a, script), e);
      }
    }
  }

  /** Only a deceived agent takes such a risk. */
  lemma RisksOnlyDeceived(a: Agent, e: Event)
    requires GoodEvent(a.model.connections.n, e) && ExclusiveAgent(a) && Risks(a, e)
    ensures Deceives(a.model, a.view)
  {
    if a.view.device.table == CurrentPairs(a.model) {
      var target := Target(a.model.connections, e.edits).value;
      SetsAreExclusive(target);
      RightTableFits(P4App(a.config.nativeBatch), a.view.device.table, DirectedPairs(target), e.terms.strategy,
                     e.terms.delay, e.terms.transport);
    }
  }

  // ---------------------------------------------------------------- runs

  predicate RisksAt(h: History, k: nat)
    requires IsHistory(h) && k < |h.events|
  {
    assert StepsAt(h, k);
    Risks(h.agents[k], h.events[k])
  }

  lemma StartStays(c: Config, initial: ValidSet, policy: StartupPolicy, device: Device)
    requires PortExclusive(device.table)
    ensures var start := Start(c, initial, policy, device);
            start.Some? ==>
              ExclusiveAgent(start.value) && KeptExclusive(device, start.value.view.device)
  {
    SetsAreExclusive(initial);
    var (d, _) := Send(device, Read, {});
    ReadKeeps(device);
    TransitionStaysExclusive(P4App(c.nativeBatch), d, d.table, DirectedPairs(initial), FULL, 0, SEQUENTIAL);
    KeptOn(device, d, Apply(P4App(c.nativeBatch), d, d.table, DirectedPairs(initial), FULL, 0, SEQUENTIAL).0);
  }

  lemma MovesStayExclusive(h: History, k: nat)
    requires IsHistory(h) && k < |h.events|
    requires ExclusiveAgent(h.agents[k]) && OcsCall(h.events[k]) && !RisksAt(h, k)
    ensures ExclusiveAgent(h.agents[k + 1]) && KeptExclusive(h.agents[k].view.device, h.agents[k + 1].view.device)
  {
    assert StepsAt(h, k);
    StepStaysExclusive(h.agents[k], h.events[k]);
  }

  /** In every run without debug mode, from an exclusive table: as long as no call takes a risk, no port
      ever has two peers, at any instant of any request since startup, whatever fails. */
  lemma {:induction false} ExclusiveUnlessRisked(h: History, c: Config, initial: ValidSet, policy: StartupPolicy,
                                                 device: Device, i: nat)
    requires FromStart(h, c, initial, policy, device) && PortExclusive(device.table) && i < |h.agents|
    requires forall k | 0 <= k < i :: OcsCall(h.events[k]) && !RisksAt(h, k)
    ensures ExclusiveAgent(h.agents[i]) && KeptExclusive(device, h.agents[i].view.device)
  {
    if i == 0 {
      StartStays(c, initial, policy, device);
    } else {
      ExclusiveUnlessRisked(h, c, initial, policy, device, i - 1);
      MovesStayExclusive(h, i - 1);
      KeptOn(device, h.agents[i - 1].view.device, h.agents[i].view.device);
    }
  }

  lemma RisksAtOnlyDeceived(h: History, k: nat)
    requires IsHistory(h) && k < |h.events| && ExclusiveAgent(h.agents[k]) && RisksAt(h, k)
    ensures DeceivesAt(h, k)
  {
    assert StepsAt(h, k);
    RisksOnlyDeceived(h.agents[k], h.events[k]);
  }

  /** So nothing of the kind happens before a call has fallen apart, in its update and in its rollback. */
  lemma {:induction false} ExclusiveUntilOneFallsApart(h: History, c: Config, initial: ValidSet,
                                                       policy: StartupPolicy, device: Device, i: nat)
    requires FromStart(h, c, initial, policy, device) && PortExclusive(device.table) && i < |h.agents|
    requires forall k | 0 <= k < i :: OcsCall(h.events[k])
    requires forall k | 0 <= k < i :: !FallsApartAt(h, k)
    ensures ExclusiveAgent(h.agents[i]) && KeptExclusive(device, h.agents[i].view.device)
  {
    if i == 0 {
      StartStays(c, initial, policy, device);
    } else {
      ExclusiveUntilOneFallsApart(h, c, initial, policy, device, i - 1);
      DeceivingIff(h, c, initial, policy, device, i - 1);
      if RisksAt(h, i - 1) { RisksAtOnlyDeceived(h, i - 1); }
      MovesStayExclusive(h, i - 1);
      KeptOn(device, h.agents[i - 1].view.device, h.agents[i].view.device);
    }
  }

  /** A strict agent takes no risks: it reads the table before every write. */
  lemma StrictStaysExclusive(h: History, c: Config, initial: ValidSet, policy: StartupPolicy, device: Device, i: nat)
    requires FromStart(h, c, initial, policy, device) && PortExclusive(device.table) && i < |h.agents|
    requires c.strict && forall k | 0 <= k < i :: OcsCall(h.events[k])
    ensures ExclusiveAgent(h.agents[i]) && KeptExclusive(device, h.agents[i].view.device)
  {
    forall k | 0 <= k < i ensures !RisksAt(h, k) { ConfigStays(h, k); }
    ExclusiveUnlessRisked(h, c, initial, policy, device, i);
  }

  // ---------------------------------------------------------------- an input

  const FOUR_PORTS: ValidSet := ConnectionSet(4, [])

  /** The connection set with a single connection. */
  lemma OneConnectionSet(n: nat, low: nat, high: nat)
    requires 1 <= low < high <= n
    ensures var t := ConnectionSet(n, [ConnectionFor(low, high)]);
            && Valid(t) && DirectedPairs(t) == {Pair(low, high), Pair(high, low)}
            && ApplyEdits(ConnectionSet(n, []), [ReplaceEdit(ConnectionFor(low, high))]) == Success(t)
  {
    WellFormedFor(n, low, high);
    SingleItem(n, ConnectionFor(low, high));
    SingleEdit(n, ConnectionFor(low, high));
  }

  lemma SingleItem(n: nat, c: Connection)
    requires WellFormed(n, c)
    ensures ValidItems(n, [c]) && Pairs(n, [c]) == PairsOf(n, c)
  {
    CompatibleWithAll(n, [], c);
    assert [] + [c] == [c];
    assert Pairs(n, [c]) == Pairs(n, []) + PairsOf(n, c) by { assert [c][..0] == []; }
  }

  lemma SingleEdit(n: nat, c: Connection)
    requires ValidItems(n, [c])
    ensures ApplyEdits(ConnectionSet(n, []), [ReplaceEdit(c)]) == Success(ConnectionSet(n, [c]))
  {
    assert [] + [c] == [c];
    ReplaceAppends(n, [], c);
  }

  lemma WriteBroken(a: Agent, target: ValidSet, terms: Terms, d: Device)
    requires TargetPasses(a, target, terms) && !a.config.strict
    requires Apply(P4App(a.config.nativeBatch), a.view.device, CurrentPairs(a.model), DirectedPairs(target),
                   terms.strategy, terms.delay, terms.transport) == (d, RollbackFailed)
    ensures ApplyTarget(a, target, terms)
            == (Agent(a.config, a.model, CheckWrite(a, terms).0,
                      a.view.(device := d, status := Failed, lastError := OtherError)), Refused(Broken))
  {
  }

  /** The second device call of the run: the insert works, and shows on reading back. */
  lemma InsertedBeside(d: Device)
    requires d.table == {Pair(1, 2)} && d.script == HALFWAY && |d.log| == 3
    ensures var d' := Apply(P4App(true), d, {}, {Pair(1, 3), Pair(3, 1)}, FULL, 0, NATIVE_BATCH).0;
            && |d'.log| > 3 && d'.log[3].before == {Pair(1, 2)}
            && d'.log[3].after == {Pair(1, 2), Pair(1, 3), Pair(3, 1)}
  {
    var added := {Pair(1, 3), Pair(3, 1)};
    PhasesInLog(P4App(true), d, {}, added, FULL, 0, NATIVE_BATCH);
    var (d2, ok) := Send(d, Insert, added);
    assert Applicable(d.table, Insert, added) == added && ok;
    assert d2.table == {Pair(1, 2), Pair(1, 3), Pair(3, 1)};
    assert d2.log[3].before == d.table && d2.log[3].after == d2.table;
  }

  function Replacing(low: nat, high: nat): Event {
    Write([ReplaceEdit(ConnectionFor(low, high))], FirstTerms(NATIVE_BATCH))
  }

  /** The write of connections alone reaches the edits of a batch with that one connection. */
  lemma ReplacingStep(a: Agent, low: nat, high: nat)
    requires 1 <= low < high <= a.model.connections.n && a.model.connections.items == []
    ensures GoodEvent(a.model.connections.n, Replacing(low, high))
    ensures Valid(ConnectionSet(a.model.connections.n, [ConnectionFor(low, high)]))
    ensures Step(a, Replacing(low, high))
            == ApplyTarget(a, ConnectionSet(a.model.connections.n, [ConnectionFor(low, high)]),
                           FirstTerms(NATIVE_BATCH))
  {
    OneConnectionSet(a.model.connections.n, low, high);
  }

  /** An agent without connections, as it stands before each of the two writes. */
  predicate Waiting(a: Agent) {
    && a.config == Config(true, false, 60.0) && a.model == Model(FOUR_PORTS, OCS, 0) && CurrentPairs(a.model) == {}
    && !a.view.gate && a.view.cache == DeviceWorker.READY && MayWrite(a, FirstTerms(NATIVE_BATCH))
  }

  lemma SharedPortShows(log: seq<Request>, k: nat, table: set<Pair>, p: Pair, q: Pair)
    requires k < |log| && Instant(log[k], table)
    requires p in table && q in table && p != q && p.ingress == q.ingress
    ensures !StaysExclusive(log, k)
  {
    assert !PortExclusive(table);
  }

  lemma ChangesSomething(target: ValidSet)
    requires target.n == 4 && DirectedPairs(target) != {}
    ensures !Equal(target, FOUR_PORTS)
  {
    if Equal(target, FOUR_PORTS) { EqualSetsSamePairs(target, FOUR_PORTS); }
  }

  lemma FirstWrite(a: Agent, first: ValidSet)
    requires Waiting(a) && a.view.device == Send(Device({}, HALFWAY, []), Read, {}).0
    requires first.n == 4 && Pair(1, 2) in DirectedPairs(first)
    ensures var (a1, reply) := ApplyTarget(a, first, FirstTerms(NATIVE_BATCH));
            && reply == Refused(Broken) && Waiting(a1) && Deceives(a1.model, a1.view)
            && a1.view.device.table == {Pair(1, 2)} && a1.view.device.script == HALFWAY && |a1.view.device.log| == 3
  {
    ChangesSomething(first);
    HalfwayFallsApart(a.view.device, DirectedPairs(first));
    var terms := FirstTerms(NATIVE_BATCH);
    WriteBroken(a, first, terms, Apply(P4App(true), a.view.device, {}, DirectedPairs(first), FULL, 0, NATIVE_BATCH).0);
    NextWritePasses(a, ApplyTarget(a, first, terms).0, terms);
  }

  lemma SecondWrite(a: Agent, second: ValidSet)
    requires Waiting(a) && a.view.device.table == {Pair(1, 2)}
    requires a.view.device.script == HALFWAY && |a.view.device.log| == 3
    requires second.n == 4 && DirectedPairs(second) == {Pair(1, 3), Pair(3, 1)}
    ensures var log := ApplyTarget(a, second, FirstTerms(NATIVE_BATCH)).0.view.device.log;
            |log| > 3 && log[3].after == {Pair(1, 2), Pair(1, 3), Pair(3, 1)} && !StaysExclusive(log, 3)
  {
    ChangesSomething(second);
    TargetReaches(a, second, FirstTerms(NATIVE_BATCH));
    InsertedBeside(a.view.device);
    var log := ApplyTarget(a, second, FirstTerms(NATIVE_BATCH)).0.view.device.log;
    SharedPortShows(log, 3, log[3].after, Pair(1, 2), Pair(1, 3));
  }

  /** A run that breaks it, without debug mode: the write of a first connection falls apart with half of
      it in the table; the cache status stays READY, so the same operator's write of another connection
      is admitted, and port 1 has two peers. */
  lemma TwoPeersBehindReady()
    ensures var start := Start(Config(true, false, 60.0), FOUR_PORTS, REQUIRE_MATCH, Device({}, HALFWAY, []));
            start.Some? && GoodEvent(4, Replacing(1, 2)) && GoodEvent(4, Replacing(1, 3)) &&
            var (a1, reply) := Step(Held(start.value), Replacing(1, 2));
            && reply == Refused(Broken) && a1.view.device.table == {Pair(1, 2)} && Deceives(a1.model, a1.view)
            && a1.model == Model(FOUR_PORTS, OCS, 0)
            && var log := Step(a1, Replacing(1, 3)).0.view.device.log;
               |log| > 3 && log[3].after == {Pair(1, 2), Pair(1, 3), Pair(3, 1)} && !StaysExclusive(log, 3)
  {
    var c, script := Config(true, false, 60.0), HALFWAY;
    ReadyToWrite(c, FOUR_PORTS, script);
    var a := Held(Start(c, FOUR_PORTS, REQUIRE_MATCH, Device({}, script, [])).value);
    ReplacingStep(a, 1, 2);
    OneConnectionSet(4, 1, 2);
    FirstWrite(a, ConnectionSet(4, [ConnectionFor(1, 2)]));
    var a1 := Step(a, Replacing(1, 2)).0;
    ReplacingStep(a1, 1, 3);
    OneConnectionSet(4, 1, 3);
    SecondWrite(a1, ConnectionSet(4, [ConnectionFor(1, 3)]));
  }
}
