# Hyperbahn, modelled and proved in Dafny

Hyperbahn routes calls between services through a ring of relays. This project models the
parts of a relay that carry hard state and arithmetic, and proves what they guarantee for all
inputs and all runs.

- **Partial affinity** (`SortedIndexOf`, `PartialRange`, `RangeArithmetic`, `AffinityPlans`, `AuditOutcomes`, `Mesh`).
  Each relay of a service cuts its own cyclic slice out of the sorted list of the service's
  workers. Main results: every worker is in the slices of at least
  `min(minPeersPerWorker, relays)` relays and of no more than the minimums call for, any two workers are
  in the same number of slices give or take one, and incremental maintenance of a range gives exactly the slice computed from
  scratch.
- **The dispatch handler** (`PeerIndex`, `PeerLinks`, `ReapHistory`, `Listings`, `ServiceProxy`, `HandlerRuns`). Advertisements,
  unadvertisements, affinity changes with their audit, the two-generation reaper, the prune and
  connect queues, and exit and forward roles, as one class whose invariant every step of every
  run keeps. Main results: convergence of the connected peers to the slice exactly when a condition on
  the state before the change says so, the index and queue invariants, exactly when a host
  is reaped and who the peers of exit channels are told from the history of the run, an advertised host dialled, and role agreement. `HandlerRuns` holds runs that end badly.
- **Circuit breaker** (`Circuits`). The reference decides by counting in the whole history; the class
  keeps the source's counters and is proved to follow the reference. Main results: the probe
  bound, exact tripping, recovery and admission, which state is entered, and at most one transition per call.
- **Rate limiter and kill switch** (`RateCounters`, `RateLimiting`). Ring counters are proved equal to
  counting in the history, and admission to a decision on that history. Main results: window
  bounds, nothing turned away while what is asked stays within the limits, kill-switch gating, and coherence of
  the limit tables.
- **Interval scanner** (`IntervalScan`). Every schedule of timers, immediates and calls leaves a history
  that a reference automaton accepts.
- **Exit selection and fan-out** (`EgressNodes`, `FanOut`). The selection loops end if and only if no index is
  met twice, and then the two agree; services are grouped by exit exactly; and one advertisement gets its one
  reply if and only if all relays were sent and each came to its end or the timer fired.

How the model is built. Where the source updates objects in place there is a class with the same
fields, and its methods are tied to functions of the old state or to a history; the theorems over
whole runs are lemmas about those functions and histories, or class invariants together with a
driver (`Play`, `Drive`, `AnyInterleaving`, `SendRelays`) that plays any list of events. Clocks, the hash ring's `lookup`,
network outcomes and the transport's view of peers are parameters or environment steps. Partial
ranges and rate counters are held by value inside the handler and the limiter; separate classes
(`PartialRange`, `RateLimiterCounter`) show that the in-place objects compute the same values.

Where code and expectation part, the model follows the code:

- `circuits.js:309` copies `minimumRequests` while `circuits.js:415` reads `minRequests`, so the effective
  value is always 5; it is a parameter here. The comment at `circuits.js:307-308` speaks of requests
  during a period, but the count is never reset within a stay (`circuits.js:459-463`).
- `AffinityChange.removeWorker` deletes from one of the two indices only (`service-proxy.js:1819-1821`). The
  indices are therefore not transposes of each other; `PeerLinks.StaleRemovalBreaksTranspose` gives the
  concrete case and `ServiceProxy.AuditKeepsTransposeIff` the exact condition.
- Under partial affinity an unadvertisement that reaches a channel that is no exit throws half-way: it makes a
  range, which is stored, and then the warning that the range is invalid counts the workers of a slice that is
  not there (`service-proxy.js:806-811`, `partial_range.js:60`). `RemoveServicePeer` throws exactly then. What
  catches the exception, if anything, is the process's own handler, which is not part of this model.
- The audit of an affinity change gives up after three rounds. A change leaves exactly the slice connected if
  and only if `AuditOutcomes.Settles` holds of the lists, the connected peers and the channel's peers before it,
  which it does whenever the range's workers are peers. In a run in which nothing throws that is so
  throughout: only exits have ranges, and every change of an exit converges (`ServiceProxy.Play`). Should
  the process survive the exception above, the range it left, about exit nodes, is kept by a channel that
  becomes an exit; `HandlerRuns.TwentyExitsStayApart` is such a run, with the default minimums of five, after
  which the service stays unconnected.
- An unadvertised worker can stay in `connectedPeerServices`: the audit takes it out of the other index, and
  the caller clears both only after a change that ends with nothing to do. It stays if and only if it was there
  and `AuditOutcomes.Empties` does not hold of the state before (`RemoveServicePeer`): so when another worker takes
  its place, but also when one that remains is yet to be dialled. `HandlerRuns.UnadvertiseLeavesEntry` is a run.
- `pruneSinglePeer` does not look whether its host is wanted again, as `connectSinglePeer` does for its queue
  (`service-proxy.js:759`). The host it drains is one that the relay means to be connected to if and only if the
  history says so (`PruneSinglePeer`): under partial affinity, it was asked to be connected since the run took its
  queue, for a service that lists it; otherwise, it advertised since, or an exit service listed it all along,
  because one service's change to forwarding queues the peers of others (`service-proxy.js:976-983`).
  `HandlerRuns.PruneRace`, `HandlerRuns.FullPruneRace` and `HandlerRuns.SharedWorkerPruned` are runs of the three.
- A service that becomes exempt after its counters were made goes on counting for its own kill
  switch (`rate_limiter.js:418-429` has no exemption test once a counter exists), so the difference of its
  two counters includes exempted requests as well as rejections.
- `iHops` comes from remote configuration unchecked (`clients/index.js:695`), and with a hop that leads back
  the loops of `egress-nodes.js` need not end (`EgressNodes.BackwardHopNeverEnds`). They end if and only if no
  index below k is met twice (`EgressNodes.EndsIff`), which as many rounds as there are indices between the
  lowest hop and k decide (`EgressNodes.EndsIffInTime`). Only the calls that run these loops require it, and
  only of the service they run for.
- Setting the default limit or the kill switch factor leaves live counters as they are; the exact conditions
  under which they still agree with the tables are in `UpdateDefaultServiceRpsLimit` and
  `SetServiceKillSwitchFactor`.
- The reaper keeps all services of a host that advertised any of them again (`service-proxy.js:1409-1411`),
  and drains the whole host when it reaps some of its pairs (`service-proxy.js:1451`).

## Model

| member | source | states |
|---|---|---|
| SortedIndexOf.Search | lib/sorted-index-of.js:27-63 | for any sorted list and either threshold: an index holding the value, or the complement of the one point that splits the list into smaller and greater entries; non-negative exactly when the value is present |
| SortedIndexOf.AnswerIsUnique | lib/sorted-index-of.js:31-62 | on a duplicate-free list the answer is unique, so both thresholds agree |
| PartialRanges.IncrementalEqualsDirect | partial_range.js:70-144 | after any run of setRelays, setWorkers, addWorker, removeWorker and reads, the worker list is the sorted list of the right set and the slice equals the one computed directly from the final lists |
| PartialRanges.RunInvariant | partial_range.js:70-112 | every such run keeps both lists strictly sorted, keeps the set of workers that set operations alone predict, and keeps the slice current unless a computation is pending |
| PartialRanges.PartialRange.constructor | partial_range.js:29-43 | a new range has no lists and no slice, and the given minimums, zero meaning one |
| PartialRanges.PartialRange.SetRelayList | partial_range.js:70-74 | replaces the relays and marks a computation pending; coherence is kept |
| PartialRanges.PartialRange.SetWorkerList | partial_range.js:76-80 | replaces the workers and marks a computation pending; coherence is kept |
| PartialRanges.PartialRange.Add | partial_range.js:92-101 | splicing at the searched point gives the sorted insertion; a present host changes nothing |
| PartialRanges.PartialRange.Remove | partial_range.js:103-112 | splicing out the found index gives the list without the host; an absent host changes nothing |
| PartialRanges.PartialRange.Compute | partial_range.js:82-90 | brings the slice up to date when pending and both lists are set, and clears the pending mark either way |
| PartialRanges.PartialRange.Recompute | partial_range.js:114-144 | the slice becomes the direct slice of the lists, whose length, start and bounds the arithmetic pins; missing when the relay is not listed |
| PartialRanges.PartialRange.IsValid | partial_range.js:64-68 | with both lists set, valid exactly when the relay is listed |
| PartialRanges.PartialRange.Perform | partial_range.js:70-112 | any one operation in place equals the pure one and keeps coherence |
| PartialRanges.Drive | partial_range.js:29-144 | a range object put through any legal run ends where the pure operations end |
| PartialRanges.SortedListIsUnique | partial_range.js:92-112 | a strictly sorted list is determined by its members |
| RangeArithmetic.Coverage | partial_range.js:114-161 | every worker lies in the slices of at least min(minPeersPerWorker, relays) distinct relays, wrapped slices included |
| RangeArithmetic.Balance | partial_range.js:130-161 | the relay counts of any two workers differ by at most one |
| RangeArithmetic.CoverSize | partial_range.js:130-161 | a worker is in all slices, or in ceil((L+1)R/W) of them or one fewer |
| RangeArithmetic.CoverIsMinimal | partial_range.js:130-161 | no worker is in more slices than the minimums call for, give or take the rounding |
| RangeArithmetic.SliceShape | partial_range.js:130-161 | a slice is cyclically contiguous, duplicate-free, and has the computed length, or one more exactly when the relay's position is fractional and the length is not all |
| RangeArithmetic.SliceIsMinimal | partial_range.js:130-144 | a slice gives the relay and the workers what the minimums ask for, as far as there are workers, and no more than rounding needs |
| RangeArithmetic.SliceBegins | partial_range.js:136-144 | a slice that is not the whole list begins at floor(i W / R) for relay number i |
| RangeArithmetic.MemberOfSlice | partial_range.js:136-161 | a worker is in a relay's slice exactly when the relay's rational position lies strictly between the worker's edges, directly or around the end |
| AffinityPlans.PlanConverges | service-proxy.js:1753-1767 | carrying out a plan leaves exactly the affine workers connected, given that no connected worker is being pruned |
| AffinityPlans.PlanIsMinimal | service-proxy.js:1753-1767 | a plan names exactly the affine workers that are not connected, no peers or not out, and the connected ones that are not affine; it is empty exactly when there are none |
| AffinityPlans.FailedAuditShrinks | service-proxy.js:1774-1807 | each failed audit round strictly decreases the range's workers plus the service's connected peers |
| AffinityPlans.OneFailedRoundSuffices | service-proxy.js:1774-1807 | if all range workers are service peers, nothing is stale after one failed round, so the audit passes within two |
| AffinityPlans.StaleAmongConnected | service-proxy.js:1783-1799 | among connected workers exactly the non-peers are found stale |
| AuditOutcomes.OnPeersSettles | service-proxy.js:1710-1728 | whenever all workers of the range are peers, two audits suffice |
| AuditOutcomes.NeverSettles | service-proxy.js:1710-1728 | with nothing connected and one peer among too many workers for the number of rounds, no audit passes |
| AuditOutcomes.SliceSize | partial_range.js:130-144 | where the relay's minimum decides, a slice has two workers or more, and at most one above the minimum |
| Mesh.ConvergedMeshCovers | service-proxy.js:929-965 | when all relays of a service have converged on the same lists, every worker is connected from at least min(minPeersPerWorker, relays) of them |
| Mesh.ConvergedMeshIsBalanced | service-proxy.js:929-965 | and any two workers are connected from equally many relays, give or take one |
| Mesh.ConvergedMeshIsMinimal | service-proxy.js:929-965 | and it is connected from no more of them than the minimums call for, give or take the rounding |
| Mesh.HandlersCover | service-proxy.js:929-965 | when the handlers of all relays of a service have converged on the same workers, every worker is connected from at least min(minPeersPerWorker, relays) of them |
| Mesh.HandlersBalance | service-proxy.js:929-965 | and any two workers are connected from equally many handlers, give or take one |
| Mesh.HandlersAreFew | service-proxy.js:929-965 | and every worker from no more handlers than the minimums call for, give or take the rounding |
| PeerIndex.Add | service-proxy.js:1863-1870 | exactly one pair is added |
| PeerIndex.Delete | service-proxy.js:1872-1880 | exactly one pair is removed, with its level when that empties |
| PeerLinks.ConnectIsSound | service-proxy.js:724-753 | connecting keeps the inverse inclusion, keeps connected hosts out of the prune queue, and keeps the queues disjoint |
| PeerLinks.DisconnectIsSound | service-proxy.js:967-984 | disconnecting keeps the same three invariants |
| PeerLinks.DisconnectQueues | service-proxy.js:976-983 | a host that loses its last service is queued for pruning and not for connecting; other hosts' queue entries stay |
| PeerLinks.ConnectedIsNotPruned | service-proxy.js:732 | a host connected for any service is never in the prune queue |
| PeerLinks.ForgetKeepsTransposeIff | service-proxy.js:1818-1821 | a stale removal keeps the indices transposed exactly when the pair was not connected |
| PeerLinks.StepsKeepTranspose | service-proxy.js:724-753 | connecting and disconnecting keep full transposition |
| PeerLinks.StaleRemovalBreaksTranspose | service-proxy.js:1818-1821 | a concrete stale removal after which the indices are not transposes |
| ReapHistory.AdRemembers | service-proxy.js:850-853 | an accepted advertisement moves its pair to the young generation; both generations stay exact |
| ReapHistory.SnapshotRemembers | service-proxy.js:218-223 | taking a snapshot ages both generations exactly and hands the old one to the run |
| ReapHistory.ReapIsSafe | service-proxy.js:1409-1444 | a snapshot pair whose host is not known again was last advertised before the previous snapshot |
| ReapHistory.ReapedOnlyWhenSilent | service-proxy.js:1405-1449 | at every point of a safe history, a reaped pair was not advertised since the second-latest snapshot |
| ReapHistory.SilentSince | service-proxy.js:211-224 | what that silence means: at least two snapshots were taken after any advertisement of the pair |
| ReapHistory.AdvertisedSince | service-proxy.js:211-224 | and the other way round: a pair within n generations has an advertisement with fewer than n snapshots after it |
| ReapHistory.UnknownIffSilent | service-proxy.js:1409-1411 | the young generation knows a host exactly unless every advertisement of it has a snapshot after it |
| ReapHistory.GenerationsAreDisjoint | service-proxy.js:704-707 | knownPeers and peersToReap never share a pair |
| Listings.ListedMeans | service-proxy.js:678-711 | a host is listed for a service exactly when some advertisement of it is not followed by its unadvertisement, its reaping, or the service's change to forwarding |
| Listings.ListedSincePrune | service-proxy.js:158-165 | the listed hosts are those that advertised since the latest prune run took its queue and those kept from before |
| ServiceProxy.Play | service-proxy.js:376-1480 | any run of advertisements, withdrawals, routed requests, unproxied channels, ring changes, updates, toggles, reap, prune and connect runs and transport events, over services whose exit loops end, keeps inclusion of the indices, the prune and queue invariants, disjoint generations and reaper safety; the peers of exit channels are the listed hosts of its history; unless an unadvertisement threw, every affinity change of an exit converges from there |
| ServiceProxy.PlanChange | service-proxy.js:1753-1767 | the two loops compute exactly the workers to connect and to disconnect |
| ServiceProxy.RemoveStale | service-proxy.js:1783-1799 | one audit loop removes exactly the candidates without a peer from range and index, and counts whether there were any |
| ServiceProxy.AuditRound | service-proxy.js:1774-1807 | a round shrinks the measure when something was stale and changes nothing otherwise; with all workers peers, nothing stale is left |
| ServiceProxy.AuditSettles | service-proxy.js:1774-1807 | an audit that takes the stale workers away leaves one audit less to settle in |
| ServiceProxy.AuditEmpties | service-proxy.js:1774-1807 | an audit decides whether the change ends with nothing to do, or leaves it to what it leaves |
| ServiceProxy.AuditKeepsTransposeIff | service-proxy.js:1783-1821 | an audit keeps the indices transposed exactly when every connected worker was still a peer |
| ServiceProxy.AffinityChange.constructor | service-proxy.js:1693-1729 | the plan fits the final state; whether it is empty, whether it is empty or passed its audit, and whether the connected peers are affine regardless, is each exactly as the state before says; an audited plan names only existing peers; failing all rounds costs the measure at least one each; with all workers peers the audit always passes; nothing but non-peers is lost |
| ServiceProxy.AffinityChange.Audit | service-proxy.js:1774-1807 | fails exactly when something was stale, then replans on a strictly smaller state |
| ServiceProxy.AffinityChange.Implement | service-proxy.js:1824-1850 | an audited plan leaves the connected peers equal to the affine workers, each connected or queued, and disconnected idle hosts queued for pruning; an unaudited plan changes nothing |
| ServiceProxy.ServiceDispatchHandler.EnsurePeerConnected | service-proxy.js:724-753 | the new links and drain state; the host is out of the prune queue and not draining; unless it was connected and not draining, it is queued to be dialled for this service; every other entry of the queues stays |
| ServiceProxy.ServiceDispatchHandler.EnsurePeerDisconnected | service-proxy.js:967-984 | the pair is gone from both indices under partial affinity; a host left without services is queued for pruning and not for connecting |
| ServiceProxy.ServiceDispatchHandler.GetPartialRange | service-proxy.js:781-815 | makes or refreshes the range and stores it; throws exactly for a channel that is no exit, after storing it |
| ServiceProxy.ServiceDispatchHandler.EnsurePartialConnections | service-proxy.js:929-965 | gives a result exactly in exit mode, as getting the range throws otherwise; passes its audits, ends with nothing to do, and leaves the connected peers equal to the slice, each exactly when the state before says so, and converges whenever the known workers are peers; connected workers are out or queued; otherwise at most stale ones are lost; hosts that are no peers keep their index entries; other services are untouched |
| ServiceProxy.ServiceDispatchHandler.ConvergesOnPeers | service-proxy.js:834-872 | after adding or removing a peer a service converges whenever its known workers are peers |
| ServiceProxy.ServiceDispatchHandler.CalmConverges | service-proxy.js:929-965 | while only exits have ranges and no range outlived an exit channel, every affinity change of an exit converges |
| ServiceProxy.ServiceDispatchHandler.AddNewPartialPeer | service-proxy.js:834-872 | a new peer's advertisement is remembered, peer and worker are added, and the service converges if and only if the state before says so; otherwise peers are at most lost |
| ServiceProxy.ServiceDispatchHandler.FreshenPartialPeer | service-proxy.js:874-927 | a refreshed peer ends up connected or on its way exactly when the slice holds it, and otherwise is queued for pruning when idle; all others stay |
| ServiceProxy.ServiceDispatchHandler.RefreshPartially | service-proxy.js:817-832 | a new peer is added, with convergence on the same condition; a known one ends up connected exactly when the slice holds it |
| ServiceProxy.ServiceDispatchHandler.CreateServiceChannel | service-proxy.js:620-676 | the channel takes the ring's role, with the exits as peers in forward mode |
| ServiceProxy.ServiceDispatchHandler.RouteRequest | service-proxy.js:376-379 | a routed request makes the channel of its service, if missing, in the ring's role; existing channels stay |
| ServiceProxy.ServiceDispatchHandler.RefreshServicePeer | service-proxy.js:678-711 | accepted exactly in exit mode, and otherwise nothing but a missing channel is made; under partial affinity the service converges with a new peer if and only if the state before says so, and a known one is settled by the slice; a peer the relay means to be connected to is connected or queued for this service, neither to be pruned nor draining |
| ServiceProxy.ServiceDispatchHandler.RemoveServicePeer | service-proxy.js:986-1064 | the peer leaves the channel; an exit service converges without it if and only if the state before says so; the pair stays in the index by peer if and only if it was there and the change does not end with nothing to do, again told from the state before; throws, before any drain, exactly for a known host of a channel that is no exit under partial affinity; unknown services and hosts change nothing |
| ServiceProxy.ServiceDispatchHandler.UpdateServiceChannel | service-proxy.js:1127-1159 | one channel takes the ring's role; forward peers are the exits; a new exit starts without peers and keeps its links and range; one that stays an exit converges if and only if the state before says so |
| ServiceProxy.ServiceDispatchHandler.UpdateAsExit | service-proxy.js:1135-1147 | the range gets the new relays; a channel that was an exit converges if and only if the state before says so; only a range left by a forward channel is inherited |
| ServiceProxy.ServiceDispatchHandler.UpdateAsForward | service-proxy.js:1195-1252 | the range goes, the former peers are disconnected and, when idle, queued for pruning, and the peers become the exits |
| ServiceProxy.ServiceDispatchHandler.UpdateServiceChannels | service-proxy.js:1103-1120 | afterwards every proxied channel has the ring's role, every forward channel's peers are the exits, exits that stay keep their peers and new ones have none; others stay |
| ServiceProxy.ServiceDispatchHandler.IsExitFor | service-proxy.js:1318-1329 | the cached mode where there is a channel, else the ring's answer |
| ServiceProxy.ServiceDispatchHandler.CachedRoleAgrees | service-proxy.js:1318-1329 | while ring, k and hops are unchanged since the last update, the cached answer equals the ring's |
| ServiceProxy.ServiceDispatchHandler.QueuedServes | service-proxy.js:976-983 | a host queued for pruning is wanted exactly when partial affinity is off and an exit service lists it |
| ServiceProxy.ServiceDispatchHandler.ServesIfWanted | service-proxy.js:1355-1380 | a host of a prune run is wanted exactly when the history since the run began says so, for either affinity |
| ServiceProxy.ServiceDispatchHandler.SetPartialAffinityEnabled | service-proxy.js:1646-1653 | ranges and both indices start over; all invariants hold on |
| ServiceProxy.ServiceDispatchHandler.BeginReap | service-proxy.js:218-223 | the generations turn and the run gets the old one: exactly the pairs last advertised between the latest two snapshots |
| ServiceProxy.ServiceDispatchHandler.ReapSinglePeer | service-proxy.js:1405-1456 | reaps exactly when every advertisement of the host has a snapshot after it, it is known to the transport, and it does not drain for another reason than pruning; then exactly the snapshot's services lose the host, exactly those pairs leave both indices, and the history records each |
| ServiceProxy.ServiceDispatchHandler.BeginPrune | service-proxy.js:158-165 | takes the whole queue; a host of it is wanted exactly when partial affinity is off and an exit service lists it |
| ServiceProxy.ServiceDispatchHandler.PruneSinglePeer | service-proxy.js:1355-1380 | drains an existing host of the run that is not draining, whether or not it is wanted; it is wanted exactly when the history says that it was asked for since, or without partial affinity listed all along |
| ServiceProxy.ServiceDispatchHandler.BeginConnect | service-proxy.js:186-193 | takes the whole queue, disjoint from the prune queue |
| ServiceProxy.ServiceDispatchHandler.ConnectSinglePeer | service-proxy.js:755-779 | dials exactly a peer of the queued channel that is neither queued for pruning nor draining; the queued service was advertised by the host, and while that stands only pruning and draining prevent the dial |
| HandlerRuns.AdIsDialled | service-proxy.js:678-779 | from any state, a host that advertises and that the relay means to be connected to is dialled by the next connect run if it was not connected |
| HandlerRuns.SilentHostReaped | service-proxy.js:1405-1456 | a run in which a host advertises once and the second reap run takes it out and drains it |
| HandlerRuns.StaysApart | service-proxy.js:1710-1728 | a run, for any ring with enough exits, in which an unadvertisement throws, and after which an exit service with a worker is connected to nothing |
| HandlerRuns.TwentyExitsStayApart | service-proxy.js:1710-1728 | such a run with twenty exits and the default minimums of five |
| HandlerRuns.PruneRace | service-proxy.js:1355-1380 | a run under partial affinity after which a host is connected for a service and draining by a prune run that began before |
| HandlerRuns.FullPruneRace | service-proxy.js:1355-1380 | the same race without partial affinity |
| HandlerRuns.SharedWorkerPruned | service-proxy.js:976-983 | a run without any race in which a host is drained that another exit service lists |
| HandlerRuns.UnadvertiseLeavesEntry | service-proxy.js:1005-1018 | a run after which an unadvertised worker is in one index and not in the other |
| Circuits.ProbeBound | circuits.js:390-406 | in one Unhealthy stay the requests let through number at most the whole periods elapsed, for every monotone clock and order of responses |
| Circuits.ProbesAreSpaced | circuits.js:537-556 | the k-th request let through falls in a period begun at least k periods after the stay |
| Circuits.TripsExactly | circuits.js:442-466 | at a period end, a whole period after the last, a healthy circuit trips if and only if the period's errors exceed the rate times its outcomes and the stay's outcomes exceed the minimum |
| Circuits.RecoversExactly | circuits.js:515-581 | back to Healthy only after probation consecutive healthy outcomes, always by one more, and no period end passes with enough of them |
| Circuits.OutcomesRecover | circuits.js:515-581 | which healthy outcome ends probation, exactly; no unhealthy one does |
| Circuits.AtMostOneTransition | circuits.js:429-440 | no event enters more than one new state, for any clock |
| Circuits.EntersRightState | circuits.js:442-466 | at any event a healthy circuit that leaves its state becomes shorted exactly when it is marked so, and unhealthy otherwise; the other states lead back to healthy |
| Circuits.RunEntersRightState | circuits.js:442-466 | the same at every event of every run, the mark being the latest one set |
| Circuits.NeverShorted | circuits.js:455 | a circuit that is never marked is never in the shorted state |
| Circuits.AdmitsExactly | circuits.js:362-406 | a shorted circuit refuses nothing; an unhealthy one refuses exactly when its period is not over and has no trial left; a healthy one exactly the request at which it becomes unhealthy, unless the clock jumps a period |
| Circuits.ChecksExactly | circuits.js:390-398 | a check leaves a mark exactly when a whole period is over |
| Circuits.OutcomesCheck | circuits.js:480-499 | which outcomes check the period: all but the unhealthy errors of a circuit that is not healthy |
| Circuits.EventLeavesMark | circuits.js:480-566 | every outcome is recorded as what it was, and a pass exactly for a request that was let through |
| Circuits.PeriodMeans | circuits.js:442-463 | what the counts of a period, and its trial, mean in the history |
| Circuits.StayMeans | circuits.js:442-463 | what the counts of a stay mean in the history |
| Circuits.StreakMeans | circuits.js:558-566 | what a streak means in the history |
| Circuits.RunIsSound | circuits.js:362-581 | every mark of every run's history is justified by what precedes it |
| Circuits.Circuit.constructor | circuits.js:226-251 | a new circuit is healthy |
| Circuits.Circuit.SetState | circuits.js:261-291 | the new state starts empty at the clock's reading |
| Circuits.Circuit.StartNewPeriod | circuits.js:442-531 | the counters decide a period end as the history does |
| Circuits.Circuit.Check | circuits.js:390-398 | a period is checked as the history does |
| Circuits.Circuit.Ask | circuits.js:537-549 | the recursion through a new state ends, and answers as the reference does |
| Circuits.Circuit.Admit | circuits.js:551-556 | a request let through uses up the period's trial |
| Circuits.Circuit.Offer | service-proxy.js:440-448 | dispatch: ask, then tell the state that is current by then |
| Circuits.Circuit.HealthyOutcome | circuits.js:558-566 | a healthy outcome is counted, and ends probation, as the history says |
| Circuits.Circuit.UnhealthyOutcome | circuits.js:480-486 | an unhealthy outcome is counted, and ends a streak, as the history says |
| Circuits.Circuit.ErrorOutcome | circuits.js:488-499 | an error counts by its class; only a healthy circuit then checks its period for an unhealthy one |
| Circuits.Circuit.SetShorted | circuits.js:251-253 | the mark of a shorted circuit changes and nothing else does |
| Circuits.Circuit.Take | circuits.js:226-581 | any one event takes the object where it takes the reference |
| Circuits.Drive | circuits.js:226-581 | a circuit fed any list of events ends where the reference run ends |
| RateCounters.TickShows | rate_limiter.js:53-67 | a refresh leaves the ring showing exactly the increments since the N-th most recent refresh |
| RateCounters.AskedShows | rate_limiter.js:69-74 | an increment does too |
| RateCounters.RefreshStaysNonNegative | rate_limiter.js:64 | the assertion in refresh never fails |
| RateCounters.RateLimiterCounter.constructor | rate_limiter.js:36-51 | a new ring shows an empty window |
| RateCounters.RateLimiterCounter.MoveOn | rate_limiter.js:53-67 | the bucket array is updated in place as the window moves |
| RateCounters.RateLimiterCounter.Count | rate_limiter.js:69-74 | the bucket array is updated in place as a request is counted |
| RateCounters.BusyIsTheDifference | service-proxy.js:567-588 | the total kill-switch window exceeds the total window by exactly the Busy rejections in it |
| RateCounters.ExcessIsTheDifference | rate_limiter.js:418-429 | a service's kill-switch window exceeds its own by the rejected and the exempted requests |
| RateLimiting.TotalStaysWithinLimit | service-proxy.js:572-586 | under a fixed positive total limit no window admits more than one request beyond it |
| RateLimiting.ServiceStaysWithinLimit | service-proxy.js:577-586 | the same of a service's limit |
| RateLimiting.DecideIsJudged | service-proxy.js:561-586 | each way to be turned away needs a positive limit that the window has passed, and a request is allowed exactly when there is none or the service is exempt |
| RateLimiting.UnpressedAreAllowed | service-proxy.js:561-586 | at every point of a justified history: while all that was asked in the window stays within every positive limit, the request is allowed |
| RateLimiting.TotalKillNeedsRejections | rate_limiter.js:511-533 | the total kill switch acts only once the buffer's worth of Busy rejections is in the window |
| RateLimiting.ServiceKillNeedsExcess | rate_limiter.js:467-485 | a service's kill switch acts only once enough requests beyond its limit were rejected or exempted |
| RateLimiting.FactorAgrees | rate_limiter.js:535-538 | live limits agree with the tables under a new factor exactly when it is the old one or every live limit is zero |
| RateLimiting.Play | service-proxy.js:548-589 | any run from any options under a fixed total limit: the difference law, the window bound, nothing turned away while what is asked stays within the limits, and equal domains of the two counter tables; without a change of the default limit or the factor, the limits stay coherent |
| RateLimiting.RateLimiter.constructor | rate_limiter.js:76-120 | options that are zero or absent take their defaults; a new limiter is coherent and has refreshed once |
| RateLimiting.RateLimiter.RefreshAll | rate_limiter.js:169-199 | every counter moves on together; counts stay exact and limits stay coherent |
| RateLimiting.RateLimiter.PrepareCounters | rate_limiter.js:334-390 | a service gets both counters or neither, with the limits the tables give |
| RateLimiting.RateLimiter.LiveLimits | rate_limiter.js:334-390 | with coherent tables a live service's limit is its entry or the default, its kill switch's the factor times that, and the total's a buffer apart |
| RateLimiting.RateLimiter.RateLimit | service-proxy.js:548-589 | allowed exactly when the service is exempt or no positive limit is passed by its window, and turned away as the passed limit says; counters stay exact, limits coherent, domains equal |
| RateLimiting.RateLimiter.Judge | service-proxy.js:561-580 | the same of the stages in order: kill switches, total limit, service limit |
| RateLimiting.RateLimiter.UpdateServiceLimit | rate_limiter.js:289-311 | the entry is set or removed, the others stay, and both counters get the limit; coherence elsewhere makes it hold everywhere |
| RateLimiting.RateLimiter.UpdateRpsLimitForAllServices | rate_limiter.js:258-287 | the table becomes exactly the new one, and coherence is kept |
| RateLimiting.RateLimiter.UpdateTotalLimit | rate_limiter.js:324-332 | both total limits change together, a buffer apart; counts stay |
| RateLimiting.RateLimiter.UpdateDefaultServiceRpsLimit | rate_limiter.js:313-322 | coherence survives exactly when the default did not change or every live service has an entry |
| RateLimiting.RateLimiter.SetServiceKillSwitchFactor | rate_limiter.js:535-538 | the given factor, raised to one when below it, zero meaning the default; counters stay, so coherence survives exactly when the factor did not change or every live limit is zero |
| IntervalScans.CompletedRunVisitsEveryKey | lib/interval-scan.js:189-218 | a completed run visits every snapshot key exactly once, in order, and completes once |
| IntervalScans.RunsDoNotOverlap | lib/interval-scan.js:125-134 | no run begins before the one in progress is over |
| IntervalScans.RunVisitsInOrder | lib/interval-scan.js:181-203 | at any point a run has visited a prefix of its keys in order |
| IntervalScans.Play | lib/interval-scan.js:67-218 | every schedule, with whatever changes to what is scanned, leaves an accepted history, never a timer together with a run, and the calls that the history asks for |
| IntervalScans.IntervalScan.SetInterval | lib/interval-scan.js:67-82 | when the timer is armed after a change of interval |
| IntervalScans.IntervalScan.StopScanning | lib/interval-scan.js:103-113 | drops timer and run; a dropped run never completes |
| IntervalScans.IntervalScan.RunNow | lib/interval-scan.js:125-158 | refused exactly during a run; an empty collection completes at once |
| IntervalScans.IntervalScan.FireTimer | lib/interval-scan.js:59-62 | the timer's run is always accepted |
| IntervalScans.IntervalScan.FireImmediate | lib/interval-scan.js:174-218 | one key per immediate, called back with its value exactly if the collection still has one, and completion after the last |
| IntervalScans.IntervalScan.FinishRun | lib/interval-scan.js:189-218 | over a collection that nobody changes, a run calls back once for every key, in order, with its value, and completes |
| EgressNodes.CollectExits | egress-nodes.js:90-121 | whenever the service's loop ends, it lists exactly the owners of the visited shards, each with its own keys in order |
| EgressNodes.FindSelf | egress-nodes.js:123-146 | and the other loop answers whether this node is among those owners |
| EgressNodes.EgressTable.ExitsFor | egress-nodes.js:90-121 | the same on the object, whose lazily filled hops change no answer |
| EgressNodes.EgressTable.IsExitFor | egress-nodes.js:123-146 | true exactly when this node is a key of exitsFor |
| EgressNodes.EgressTable.IHopsFor | egress-nodes.js:71-77 | fills in a missing entry without changing any service's hops |
| EgressNodes.EgressTable.SetKValueFor | egress-nodes.js:65-88 | a service's k becomes the given one, zero meaning the default, and no other service's changes |
| EgressNodes.ShardsAreDistinct | egress-nodes.js:103-119 | no shard key is visited twice, whatever the hops |
| EgressNodes.ShardsAreFew | egress-nodes.js:103-119 | at most as many shards are visited as there are indices between the lowest hop and k |
| EgressNodes.ShardsFollowHops | egress-nodes.js:103-107 | which shards are visited, one after the other: from zero on, an index with a hop leads to where it hops, and the count goes on from there up to k |
| EgressNodes.ShardKeyIsInjective | egress-nodes.js:107 | no two services share a shard key, nor two indices of one |
| EgressNodes.ShardKeyParts | egress-nodes.js:107 | a shard key begins with its service's name and a separator, and the index is the rest |
| EgressNodes.KeysOfOwner | egress-nodes.js:107-118 | a host's keys are exactly the visited keys the ring gives to it |
| EgressNodes.EndsIff | egress-nodes.js:103-106 | for every k and hops: the loops end if and only if no index below k is met in two rounds |
| EgressNodes.EndsIffInTime | egress-nodes.js:103-106 | so as many rounds as there are indices between the lowest hop and k decide it |
| EgressNodes.BackwardHopNeverEnds | egress-nodes.js:103-106 | a concrete case: with one hop back the loop for k of two never ends |
| EgressNodes.HarmlessBackwardHop | egress-nodes.js:103-106 | a concrete case: a hop back that is taken, and the loop ends |
| EgressNodes.ForwardHopsEnd | egress-nodes.js:103-106 | hops that never lead back always let the loop end |
| FanOut.GroupByExit | handler.js:153-178 | the groups are the exact transpose of the exits over the named services, in order |
| FanOut.ContactedIffExit | handler.js:165-177 | a host is contacted exactly when it is an exit of some named service |
| FanOut.ToldAsAdvertised | handler.js:153-177 | an exit is told of services as they were advertised, under the address they were advertised from, and only of those it is an exit of |
| FanOut.ToldIffExit | handler.js:165-184 | a host is told something exactly when it is among the exits of the named services |
| FanOut.AttemptsAreBounded | handler.js:337-348 | attempts stop at the first final outcome, and at the maximum plus one |
| FanOut.SendRelay | handler.js:293-351 | exactly the attempts needed, and exactly one callback, whatever the outcomes |
| FanOut.Relay.OnResponse | handler.js:331-349 | another attempt exactly after a retryable error within the maximum, else one callback |
| FanOut.Relay.Move | handler.js:293-349 | the n-th response or retry timer calls back exactly when it is the last one the outcomes call for |
| FanOut.Countdown.Complete | handler.js:203-207 | a callback counts down; the reply goes out when all are in, and an armed timer stays armed until then |
| FanOut.Countdown.Launched | handler.js:194-199 | the sender's own share is taken off last, so early callbacks cannot reply early |
| FanOut.Countdown.Timeout | handler.js:209-222 | the timer replies unless a reply is out |
| FanOut.AnyInterleaving | handler.js:180-222 | for every interleaving: one reply exactly when all relays were sent and are back or the timer fired after that, never two |
| FanOut.SendRelays | handler.js:180-349 | the same of relays with any outcomes: one reply exactly when all were sent, and each came to its last attempt or the timer fired |
| FanOut.FanOutAd | handler.js:146-222 | and of a whole advertisement, whose reply tells the number of exits of its named services |

## Left out

- Floating point: the ratio of workers to relays and the rounding of its products are exact rationals here, doubles in `partial_range.js`.
- Logging, statistics, stat tags and the edge counters of the rate limiter, which decide nothing, save for the one warning that throws, which is modelled.
- The transport: peers are known, connected or draining as environment steps say; `connectTo` is taken to connect, and a later step may undo that. Draining itself and its timeouts are not modelled.
- Aliasing: counters and partial ranges are values inside the limiter and the handler; `affineWorkers` sharing its array with `workers` is not modelled, since every read goes through a recomputation first.
- What makes unproxied sub-channels and their peers: they appear as events of a run.
- The drain decision at the end of `removeServicePeer`: its loop over remaining services compares an index with the array of their names, which never holds unless there is one sub-channel only and its name is a positive number; otherwise a host serving other services is drained. The model sets the drain mark in every case and promises nothing about those services.
- The service purger, whose period is never set on the handler, and `exitServices`, which only it and the log read.
- `Circuits.updateServices`, code names and the tables of shorted circuits: they are keyed differently from the circuits they look up; `shorted` is an input.
- The period timers of circuit states, which are never armed because `onNewPeriod` always declines.
- Limits that are not numbers in the remote configuration, and counters removed by hand.
- Calls whose exit loop never ends: the model says exactly when that is, and not what a relay that hangs does.
- Scans over arrays, and `stop` called from inside a scan's own callback.
- `rps_counters.js`, `lib/collect-parallel.js`, clients, endpoints and start-up wiring.
