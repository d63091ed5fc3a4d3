/**
  What the relays of a service achieve together: once each of them is connected to exactly the
  workers of its own slice, every worker is reached by enough relays, and all about equally.
 */
module Mesh {
  import opened Options
  import opened HostOrder
  import opened PartialRanges
  import R = RangeArithmetic
  import A = AffinityPlans
  import opened ServiceProxy

  /** Relay number `i` has converged: its range is about the shared lists, and it is connected to its slice. */
  ghost predicate RelayConverged(relays: seq<HostPort>, i: nat, workers: seq<HostPort>, perWorker: nat, perRelay: nat,
                                 range: Range, connected: set<HostPort>)
    requires i < |relays|
  {
    && A.Ready(range)
    && range.relays == Some(relays) && range.workers == Some(workers)
    && range.relayHostPort == relays[i]
    && range.minPeersPerWorker == perWorker && range.minPeersPerRelay == perRelay
    && connected == A.Affine(range)
  }

  ghost predicate AllConverged(relays: seq<HostPort>, workers: seq<HostPort>, perWorker: nat, perRelay: nat,
                               ranges: seq<Range>, connected: seq<set<HostPort>>) {
    && |ranges| == |connected| == |relays|
    && forall i :: 0 <= i < |relays| ==>
         RelayConverged(relays, i, workers, perWorker, perRelay, ranges[i], connected[i])
  }

  /** The relays connected to a worker. */
  ghost function Reaching(connected: seq<set<HostPort>>, worker: HostPort): set<int> {
    set i | 0 <= i < |connected| && worker in connected[i]
  }

  lemma ReachingIsCovering(relays: seq<HostPort>, workers: seq<HostPort>, perWorker: nat, perRelay: nat,
                           ranges: seq<Range>, connected: seq<set<HostPort>>, worker: HostPort)
    requires AllConverged(relays, workers, perWorker, perRelay, ranges, connected)
    ensures Reaching(connected, worker) == R.Covering(relays, workers, perWorker, perRelay, worker)
  {
    forall i | 0 <= i < |relays|
      ensures worker in connected[i] <==> worker in R.Affine(relays, i, workers, perWorker, perRelay)
    {
      assert RelayConverged(relays, i, workers, perWorker, perRelay, ranges[i], connected[i]);
    }
  }

  /** Every worker is connected from at least the required number of relays, or from all of them. */
  lemma ConvergedMeshCovers(relays: seq<HostPort>, workers: seq<HostPort>, perWorker: nat, perRelay: nat,
                            ranges: seq<Range>, connected: seq<set<HostPort>>, worker: HostPort)
    requires StrictlySorted(relays) && relays != [] && StrictlySorted(workers) && perRelay >= 1
    requires AllConverged(relays, workers, perWorker, perRelay, ranges, connected) && worker in workers
    ensures |Reaching(connected, worker)| >= Min(perWorker, |relays|)
  {
    ReachingIsCovering(relays, workers, perWorker, perRelay, ranges, connected, worker);
    R.Coverage(relays, workers, perWorker, perRelay, worker);
  }

  /** Any two workers are connected from the same number of relays, give or take one. */
  lemma ConvergedMeshIsBalanced(relays: seq<HostPort>, workers: seq<HostPort>, perWorker: nat, perRelay: nat,
                                ranges: seq<Range>, connected: seq<set<HostPort>>, worker: HostPort, other: HostPort)
    requires StrictlySorted(relays) && relays != [] && StrictlySorted(workers) && perRelay >= 1
    requires AllConverged(relays, workers, perWorker, perRelay, ranges, connected)
    requires worker in workers && other in workers
    ensures -1 <= |Reaching(connected, worker)| - |Reaching(connected, other)| <= 1
  {
    ReachingIsCovering(relays, workers, perWorker, perRelay, ranges, connected, worker);
    ReachingIsCovering(relays, workers, perWorker, perRelay, ranges, connected, other);
    R.Balance(relays, workers, perWorker, perRelay, worker, other);
  }

  /** And it is connected from no more relays than the minimums call for, give or take the rounding. */
  lemma ConvergedMeshIsMinimal(relays: seq<HostPort>, workers: seq<HostPort>, perWorker: nat, perRelay: nat,
                               ranges: seq<Range>, connected: seq<set<HostPort>>, worker: HostPort)
    requires StrictlySorted(relays) && relays != [] && StrictlySorted(workers) && perRelay >= 1
    requires AllConverged(relays, workers, perWorker, perRelay, ranges, connected) && worker in workers
    ensures NoMoreThan(|Reaching(connected, worker)|, |relays|, |workers|, perWorker, perRelay)
  {
    ReachingIsCovering(relays, workers, perWorker, perRelay, ranges, connected, worker);
    R.CoverIsMinimal(relays, workers, perWorker, perRelay, worker);
  }

  /** What that comes to, for a worker connected from `n` relays. */
  predicate NoMoreThan(n: nat, relays: nat, workers: nat, perWorker: nat, perRelay: nat) {
    || (n - 1) * workers < perWorker * workers + 2 * relays
    || (n - 1) * workers < (perRelay + 1) * relays
  }

  // ----- the same of handlers -----

  /** The handler of relay number `i` serves the service as an exit, on the shared lists, and has converged. */
  ghost predicate HandlerConverged(p: ServiceDispatchHandler, s: string, relays: seq<HostPort>, i: nat,
                                   workers: set<HostPort>, perWorker: nat, perRelay: nat)
    requires i < |relays|
    reads p
  {
    && p.Valid()
    && p.hostPort == relays[i] && p.minPeersPerWorker == perWorker && p.minPeersPerRelay == perRelay
    && s in p.channels && p.channels[s].mode == Exit
    && p.RelaysOf(s) == relays && p.KnownWorkers(s) == workers
    && p.Converged(s)
  }

  ghost predicate HandlersConverged(handlers: seq<ServiceDispatchHandler>, s: string, relays: seq<HostPort>,
                                    workers: set<HostPort>, perWorker: nat, perRelay: nat)
    reads handlers
  {
    && |handlers| == |relays|
    && forall i :: 0 <= i < |handlers| ==> HandlerConverged(handlers[i], s, relays, i, workers, perWorker, perRelay)
  }

  ghost function ConnectedAt(handlers: seq<ServiceDispatchHandler>, s: string): seq<set<HostPort>>
    reads handlers
  {
    seq(|handlers|, i requires 0 <= i < |handlers| reads handlers => handlers[i].Connected(s))
  }

  ghost function RangesAt(handlers: seq<ServiceDispatchHandler>, s: string): seq<Range>
    requires forall i :: 0 <= i < |handlers| ==> s in handlers[i].partialRanges
    reads handlers
  {
    seq(|handlers|, i requires 0 <= i < |handlers| && s in handlers[i].partialRanges reads handlers =>
      handlers[i].partialRanges[s])
  }

  lemma HandlerIsRelay(p: ServiceDispatchHandler, s: string, relays: seq<HostPort>, i: nat,
                       workers: seq<HostPort>, perWorker: nat, perRelay: nat)
    requires i < |relays| && StrictlySorted(workers)
    requires HandlerConverged(p, s, relays, i, Hosts(workers), perWorker, perRelay)
    ensures s in p.partialRanges && StrictlySorted(relays)
    ensures RelayConverged(relays, i, workers, OrOne(perWorker), OrOne(perRelay), p.partialRanges[s], p.Connected(s))
  {
    p.SortedWorkers(s);
    p.CutFits(s);
    p.RelaysAreSorted(s);
    SortedListIsUnique(p.WorkersOf(s), workers);
  }

  lemma HandlersAreRelays(handlers: seq<ServiceDispatchHandler>, s: string, relays: seq<HostPort>,
                          workers: seq<HostPort>, perWorker: nat, perRelay: nat)
    requires StrictlySorted(workers) && relays != []
    requires HandlersConverged(handlers, s, relays, Hosts(workers), perWorker, perRelay)
    ensures forall i :: 0 <= i < |handlers| ==> s in handlers[i].partialRanges
    ensures StrictlySorted(relays)
    ensures AllConverged(relays, workers, OrOne(perWorker), OrOne(perRelay), RangesAt(handlers, s), ConnectedAt(handlers, s))
  {
    hide HandlerConverged, RelayConverged, StrictlySorted;
    forall i | 0 <= i < |handlers|
      ensures s in handlers[i].partialRanges && StrictlySorted(relays)
      ensures RelayConverged(relays, i, workers, OrOne(perWorker), OrOne(perRelay),
                             handlers[i].partialRanges[s], handlers[i].Connected(s))
    {
      HandlerIsRelay(handlers[i], s, relays, i, workers, perWorker, perRelay);
    }
    assert StrictlySorted(relays) by {
      HandlerIsRelay(handlers[0], s, relays, 0, workers, perWorker, perRelay);
    }
  }

  /** When the handlers of all relays of a service have converged, every worker is connected from enough of them. */
  lemma HandlersCover(handlers: seq<ServiceDispatchHandler>, s: string, relays: seq<HostPort>,
                      workers: seq<HostPort>, perWorker: nat, perRelay: nat, worker: HostPort)
    requires StrictlySorted(workers) && relays != [] && worker in workers
    requires HandlersConverged(handlers, s, relays, Hosts(workers), perWorker, perRelay)
    ensures |Reaching(ConnectedAt(handlers, s), worker)| >= Min(if perWorker == 0 then 1 else perWorker, |relays|)
  {
    hide HandlersConverged, AllConverged, Reaching, StrictlySorted;
    HandlersAreRelays(handlers, s, relays, workers, perWorker, perRelay);
    ConvergedMeshCovers(relays, workers, OrOne(perWorker), OrOne(perRelay),
                        RangesAt(handlers, s), ConnectedAt(handlers, s), worker);
  }

  /** And any two workers from equally many, give or take one. */
  lemma HandlersBalance(handlers: seq<ServiceDispatchHandler>, s: string, relays: seq<HostPort>, workers: seq<HostPort>,
                        perWorker: nat, perRelay: nat, worker: HostPort, other: HostPort)
    requires StrictlySorted(workers) && relays != [] && worker in workers && other in workers
    requires HandlersConverged(handlers, s, relays, Hosts(workers), perWorker, perRelay)
    ensures -1 <= |Reaching(ConnectedAt(handlers, s), worker)| - |Reaching(ConnectedAt(handlers, s), other)| <= 1
  {
    hide HandlersConverged, AllConverged, Reaching, StrictlySorted;
    HandlersAreRelays(handlers, s, relays, workers, perWorker, perRelay);
    ConvergedMeshIsBalanced(relays, workers, OrOne(perWorker), OrOne(perRelay),
                            RangesAt(handlers, s), ConnectedAt(handlers, s), worker, other);
  }

  /** And from no more than the minimums call for, give or take the rounding. */
  lemma HandlersAreFew(handlers: seq<ServiceDispatchHandler>, s: string, relays: seq<HostPort>,
                       workers: seq<HostPort>, perWorker: nat, perRelay: nat, worker: HostPort)
    requires StrictlySorted(workers) && relays != [] && worker in workers
    requires HandlersConverged(handlers, s, relays, Hosts(workers), perWorker, perRelay)
    ensures NoMoreThan(|Reaching(ConnectedAt(handlers, s), worker)|, |relays|, |workers|,
                       if perWorker == 0 then 1 else perWorker, if perRelay == 0 then 1 else perRelay)
  {
    hide HandlersConverged, AllConverged, Reaching, StrictlySorted, NoMoreThan;
    HandlersAreRelays(handlers, s, relays, workers, perWorker, perRelay);
    ConvergedMeshIsMinimal(relays, workers, OrOne(perWorker), OrOne(perRelay),
                           RangesAt(handlers, s), ConnectedAt(handlers, s), worker);
  }
}
