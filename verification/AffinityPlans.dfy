/**
  The plan of an affinity change (service-proxy.js): which of a service's workers to connect to and
  which to leave, given the slice of its partial range and what is connected now.
  Workers that are no peers of the service any more are stale and are audited away first.
 */
module AffinityPlans {
  import opened Options
  import opened Collections
  import opened HostOrder
  import opened PartialRanges

  /** A range that can be read: both lists are set and the relay is listed. */
  ghost predicate Ready(r: Range) {
    && Coherent(r)
    && r.workers.Some? && r.relays.Some?
    && r.relayHostPort in r.relays.value
  }

  lemma ReadyIsValid(r: Range)
    requires Ready(r)
    ensures Ready(ComputeIfNeeded(r)) && ComputeIfNeeded(r).slice.Some?
    ensures ComputeIfNeeded(r).slice ==
      Direct(r.relayHostPort, r.minPeersPerWorker, r.minPeersPerRelay, r.relays.value, r.workers.value)
    ensures !ComputeIfNeeded(r).pending
  {}

  /** The workers of the slice. */
  ghost function Affine(r: Range): set<HostPort>
    requires Ready(r)
  {
    Hosts(Direct(r.relayHostPort, r.minPeersPerWorker, r.minPeersPerRelay,
                 r.relays.value, r.workers.value).value.affineWorkers)
  }

  lemma AffineAreWorkers(r: Range)
    requires Ready(r)
    ensures Affine(r) <= Hosts(r.workers.value)
  {}

  /** Ranges that agree on their relays and on their set of workers cut the same slice. */
  lemma SameLists(r: Range, r': Range)
    requires Ready(r) && Ready(r') && r'.relays == r.relays && r'.relayHostPort == r.relayHostPort
    requires r'.minPeersPerWorker == r.minPeersPerWorker && r'.minPeersPerRelay == r.minPeersPerRelay
    requires Hosts(r'.workers.value) == Hosts(r.workers.value)
    ensures r'.workers == r.workers && Affine(r') == Affine(r)
  {
    SortedListIsUnique(r'.workers.value, r.workers.value);
  }

  // ----- the plan -----

  /** Affine workers that are not known as connected, or whose peer is missing or not connected out. */
  function ToConnect(affine: set<HostPort>, connected: set<HostPort>,
                     peers: set<HostPort>, out: set<HostPort>): set<HostPort> {
    set w | w in affine && (w !in connected || w !in peers || w !in out)
  }

  /** Connected workers that are no longer affine, unless they are being pruned already. */
  function ToDisconnect(affine: set<HostPort>, connected: set<HostPort>, pruned: set<HostPort>): set<HostPort> {
    set w | w in connected && w !in affine && w !in pruned
  }

  function Stale(affine: set<HostPort>, connected: set<HostPort>,
                 peers: set<HostPort>, out: set<HostPort>, pruned: set<HostPort>): set<HostPort> {
    (ToConnect(affine, connected, peers, out) + ToDisconnect(affine, connected, pruned)) - peers
  }

  /** Carrying the plan out leaves exactly the affine workers connected, if none of the connected was being pruned. */
  lemma PlanConverges(affine: set<HostPort>, connected: set<HostPort>,
                      peers: set<HostPort>, out: set<HostPort>, pruned: set<HostPort>)
    requires connected !! pruned
    ensures connected + ToConnect(affine, connected, peers, out) - ToDisconnect(affine, connected, pruned) == affine
  {}

  /**
    A plan leaves alone every affine worker that is connected, a peer, and connected out, and every other that is not
    connected: it is empty exactly when the connected are the affine and all of them are such peers.
   */
  lemma PlanIsMinimal(affine: set<HostPort>, connected: set<HostPort>,
                      peers: set<HostPort>, out: set<HostPort>, pruned: set<HostPort>)
    requires connected !! pruned
    ensures ToConnect(affine, connected, peers, out) == affine - connected * peers * out
    ensures ToDisconnect(affine, connected, pruned) == connected - affine
    ensures ToConnect(affine, connected, peers, out) == {} && ToDisconnect(affine, connected, pruned) == {} <==>
      connected == affine && affine <= peers && affine <= out
  {
    var c, d := ToConnect(affine, connected, peers, out), ToDisconnect(affine, connected, pruned);
    assert c == affine - connected * peers * out && d == connected - affine;
    if c == {} && d == {} {
      forall w | w in affine ensures w in connected * peers * out {
        assert w !in c;
      }
      forall w | w in connected ensures w in affine {
        assert w !in d;
      }
    }
  }

  /** With nothing to do, the connected workers are the affine ones already. */
  lemma EmptyPlanConverged(affine: set<HostPort>, connected: set<HostPort>,
                           peers: set<HostPort>, out: set<HostPort>, pruned: set<HostPort>)
    requires connected !! pruned
    requires ToConnect(affine, connected, peers, out) == {} && ToDisconnect(affine, connected, pruned) == {}
    ensures connected == affine
  {
    PlanConverges(affine, connected, peers, out, pruned);
  }

  lemma StaleIsPlannedNonPeers(affine: set<HostPort>, connected: set<HostPort>,
                               peers: set<HostPort>, out: set<HostPort>, pruned: set<HostPort>)
    ensures Stale(affine, connected, peers, out, pruned) ==
      (ToConnect(affine, connected, peers, out) + ToDisconnect(affine, connected, pruned)) - peers
  {}

  /** Affine workers are to be connected or connected out already, and none is to be left. */
  lemma PlanCoversAffine(affine: set<HostPort>, connected: set<HostPort>,
                         peers: set<HostPort>, out: set<HostPort>, pruned: set<HostPort>)
    ensures forall w :: w in affine ==> w in ToConnect(affine, connected, peers, out) || (w in connected && w in out)
    ensures ToConnect(affine, connected, peers, out) !! ToDisconnect(affine, connected, pruned)
  {}

  lemma EmptyPlanIsOut(affine: set<HostPort>, connected: set<HostPort>, peers: set<HostPort>, out: set<HostPort>)
    requires ToConnect(affine, connected, peers, out) == {}
    ensures affine <= out
  {
    forall w | w in affine ensures w in out {
      assert w !in ToConnect(affine, connected, peers, out);
    }
  }

  // ----- the audit -----

  /** Among the connected, exactly those that are no peers are stale. */
  lemma StaleAmongConnected(affine: set<HostPort>, connected: set<HostPort>,
                            peers: set<HostPort>, out: set<HostPort>, pruned: set<HostPort>)
    requires connected !! pruned
    ensures Stale(affine, connected, peers, out, pruned) * connected == connected - peers
  {}

  lemma {:induction false} SizeOfHosts(a: seq<HostPort>)
    requires StrictlySorted(a)
    ensures |Hosts(a)| == |a|
  {
    if a == [] {
      assert Hosts(a) == {};
    } else {
      HostsOfTail(a);
      SizeOfHosts(a[1..]);
      assert a[0] in Hosts(a);
    }
  }

  /** Every failed audit round shrinks the range's workers and the service's connected peers, taken together. */
  lemma FailedAuditShrinks(r: Range, r': Range, connected: set<HostPort>,
                           peers: set<HostPort>, out: set<HostPort>, pruned: set<HostPort>)
    requires Ready(r) && Ready(r')
    requires var stale := Stale(Affine(r), connected, peers, out, pruned);
      stale != {} && Hosts(r'.workers.value) == Hosts(r.workers.value) - stale
    ensures var stale := Stale(Affine(r), connected, peers, out, pruned);
      |r'.workers.value| + |connected - stale| < |r.workers.value| + |connected|
  {
    var stale := Stale(Affine(r), connected, peers, out, pruned);
    var before, after := Hosts(r.workers.value), Hosts(r'.workers.value);
    SizeOfHosts(r.workers.value);
    SizeOfHosts(r'.workers.value);
    SubsetIsSmaller(after, before);
    SubsetIsSmaller(connected - stale, connected);
    AffineAreWorkers(r);
    var x :| x in stale;
    if x in before {
      ProperSubsetIsSmaller(after, before, x);
    } else {
      ProperSubsetIsSmaller(connected - stale, connected, x);
    }
  }

  /** When every worker of the range is a peer, one failed round leaves nothing stale. */
  lemma OneFailedRoundSuffices(r: Range, r': Range, connected: set<HostPort>,
                               peers: set<HostPort>, out: set<HostPort>, pruned: set<HostPort>)
    requires Ready(r) && Ready(r') && r'.relays == r.relays && r'.relayHostPort == r.relayHostPort
    requires r'.minPeersPerWorker == r.minPeersPerWorker && r'.minPeersPerRelay == r.minPeersPerRelay
    requires Hosts(r.workers.value) <= peers
    requires var stale := Stale(Affine(r), connected, peers, out, pruned);
      Hosts(r'.workers.value) == Hosts(r.workers.value) - stale
    ensures var stale := Stale(Affine(r), connected, peers, out, pruned);
      Stale(Affine(r'), connected - stale, peers, out, pruned) == {}
  {
    var stale := Stale(Affine(r), connected, peers, out, pruned);
    assert Hosts(r'.workers.value) == Hosts(r.workers.value);
    SameLists(r, r');
    AffineAreWorkers(r);
  }
}
