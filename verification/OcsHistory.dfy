/** Runs of the Python agent with all their states in view, and what they have to do with module
    OcsRuns, which computes the last state from the first. */
module OcsHistory {
  import opened DeviceTable
  import opened AgentModel
  import opened Connections
  import opened OcsCore
  import opened OcsRuns

  /** A run: the states it goes through, and the calls between them. */
  datatype History = History(agents: seq<Agent>, events: seq<Event>)

  predicate StepsAt(h: History, k: nat)
    requires k < |h.events| && |h.agents| == |h.events| + 1
  {
    GoodEvent(h.agents[k].model.connections.n, h.events[k]) && h.agents[k + 1] == Step(h.agents[k], h.events[k]).0
  }

  predicate IsHistory(h: History) {
    && |h.agents| == |h.events| + 1
    && forall k: nat | k < |h.events| :: StepsAt(h, k)
  }

  /** A history from startup. */
  predicate FromStart(h: History, c: Config, initial: ValidSet, policy: StartupPolicy, device: Device) {
    IsHistory(h) && Start(c, initial, policy, device).Some? && Start(c, initial, policy, device).value == h.agents[0]
  }

  lemma SamePorts(h: History, k: nat)
    requires IsHistory(h) && k < |h.events|
    ensures h.agents[k + 1].model.connections.n == h.agents[k].model.connections.n
  {
    assert StepsAt(h, k);
    StepKeeps(h.agents[k], h.events[k]);
  }

  lemma {:induction false} PortsStay(h: History, k: nat)
    requires IsHistory(h) && k < |h.agents|
    ensures h.agents[k].model.connections.n == h.agents[0].model.connections.n
  {
    if k > 0 {
      PortsStay(h, k - 1);
      SamePorts(h, k - 1);
    }
  }

  lemma {:induction false} ConfigStays(h: History, k: nat)
    requires IsHistory(h) && k < |h.agents|
    ensures h.agents[k].config == h.agents[0].config
  {
    if k > 0 {
      ConfigStays(h, k - 1);
      assert StepsAt(h, k - 1);
      LeaseOfStep(h.agents[k - 1], h.events[k - 1]);
    }
  }

  lemma AllGood(h: History, k: nat)
    requires IsHistory(h) && k <= |h.events|
    ensures GoodEvents(h.agents[0].model.connections.n, h.events[..k])
  {
    forall i | 0 <= i < k ensures GoodEvent(h.agents[0].model.connections.n, h.events[..k][i]) {
      assert StepsAt(h, i);
      PortsStay(h, i);
    }
  }

  lemma NextAfter(a: Agent, events: seq<Event>, k: nat)
    requires GoodEvents(a.model.connections.n, events) && k < |events|
    ensures GoodEvent(After(a, events[..k]).model.connections.n, events[k])
    ensures After(a, events[..k + 1]) == Step(After(a, events[..k]), events[k]).0
  {
    assert events[..k + 1][..k] == events[..k];
  }

  /** The states of a history are those that its first state and its calls give. */
  lemma {:induction false} StatesAreAfter(h: History, k: nat)
    requires IsHistory(h) && k < |h.agents|
    ensures GoodEvents(h.agents[0].model.connections.n, h.events[..k])
            && h.agents[k] == After(h.agents[0], h.events[..k])
  {
    AllGood(h, k);
    if k > 0 {
      StatesAreAfter(h, k - 1);
      AllGood(h, |h.events|);
      assert h.events[..|h.events|] == h.events;
      NextAfter(h.agents[0], h.events, k - 1);
      assert StepsAt(h, k - 1);
    }
  }

  /** Every agent and all good calls have a history. */
  lemma {:induction false} HasHistory(a: Agent, events: seq<Event>) returns (h: History)
    requires GoodEvents(a.model.connections.n, events)
    ensures IsHistory(h) && h.agents[0] == a && h.events == events
    decreases |events|
  {
    if events == [] {
      h := History([a], []);
    } else {
      var m := |events| - 1;
      var init := HasHistory(a, events[..m]);
      PortsStay(init, m);
      h := History(init.agents + [Step(init.agents[m], events[m]).0], events);
      forall k: nat | k < |h.events| ensures StepsAt(h, k) {
        if k < m { assert StepsAt(init, k); }
      }
    }
  }
}
