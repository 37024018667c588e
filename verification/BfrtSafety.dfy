/** Port exclusivity on the device side of the BF Runtime adapter. */
module BfrtSafety {
  import opened DeviceTable
  import opened Connections
  import opened Bfrt

  /** Distinct logical ports are distinct device ports, so the device-numbered form of an exclusive
      set is exclusive. */
  lemma ImageExclusive(m: map<nat, nat>, pairs: set<Pair>)
    requires PortMap(m) && PortExclusive(pairs)
    ensures PortExclusive(Image(m, pairs))
  {
    forall d, e | d in Image(m, pairs) && e in Image(m, pairs) && (d.ingress == e.ingress || d.egress == e.egress)
      ensures d == e
    {
      var p :| p in pairs && Known(m, p) && DevicePair(m, p) == d;
      var q :| q in pairs && Known(m, q) && DevicePair(m, q) == e;
      assert p == q;
    }
  }

  /** Between two valid connection sets no device port ever has two peers, at any instant of any
      request of update and rollback, whatever fails: this is what BFRTBackend.Apply guarantees of
      its log, for sets whose logical ports are all configured. */
  lemma NoDevicePortHasTwoPeers(m: map<nat, nat>, log: seq<DeviceTable.Request>, from: nat, s: ConnectionSet,
                                t: ConnectionSet)
    requires PortMap(m) && Valid(s) && Valid(t)
    requires Confined(log, from, Image(m, DirectedPairs(s)), Image(m, DirectedPairs(t)))
    ensures forall k, table | from <= k < |log| && Instant(log[k], table) :: PortExclusive(table)
  {
    PairsMatch(s.n, s.items);
    PairsMatch(t.n, t.items);
    ImageExclusive(m, DirectedPairs(s));
    ImageExclusive(m, DirectedPairs(t));
    ExclusiveThroughout(log, from, Image(m, DirectedPairs(s)), Image(m, DirectedPairs(t)));
  }
}
