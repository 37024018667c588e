/** The state that the Python and the Go agent have in common. */
module AgentModel {
  import opened DeviceTable
  import opened Connections
  import Lease

  datatype Mode = OCS | DEBUG
  datatype Status = Updating | Ready | Failed
  datatype LastError = NoError | DriftDetected | OtherError
  datatype StartupPolicy = REQUIRE_MATCH | REAPPLY_DESIRED

  /** What the agent believes about the network, and how often it has changed it. */
  datatype Model = Model(connections: ValidSet, mode: Mode, revision: nat)

  /** The lease and the request-id counter. */
  datatype Control = Control(lease: Lease.Lease, requests: nat)

  /** The pairs that a connection set puts into the device; debug mode connects every port with
      every other one. */
  function PairsFor(connections: ValidSet, mode: Mode): set<Pair> {
    if mode == OCS then DirectedPairs(connections) else AllToAll(connections.n)
  }

  function CurrentPairs(m: Model): set<Pair> {
    PairsFor(m.connections, m.mode)
  }

  /** What the device is to hold: in "ocs" mode a symmetric matching with two pairs for every connection, in
      debug mode every pair of different ports. */
  lemma CurrentPairsMean(m: Model)
    ensures var n, pairs := m.connections.n, CurrentPairs(m);
            && (m.mode == OCS ==> Matching(n, pairs) && |pairs| == 2 * |m.connections.items|)
            && (m.mode == DEBUG ==>
                  && (forall p :: p in pairs <==> 1 <= p.ingress <= n && 1 <= p.egress <= n && p.ingress != p.egress)
                  && |pairs| == n * (n - 1))
  {
    PairsMatch(m.connections.n, m.connections.items);
    AllToAllMeans(m.connections.n);
  }
}
