/**
  Runs of the dispatch handler (service-proxy.js): two that end as they should, an advertised host dialled and a
  silent one reaped; and others that end where one would not expect: audits that do not suffice, a peer that
  is drained although it was wanted again, and an index entry that is left behind.
 */
module HandlerRuns {
  import opened Arithmetic
  import opened Collections
  import opened Options
  import opened HostOrder
  import opened PartialRanges
  import opened EgressNodes
  import opened PeerIndex
  import opened PeerLinks
  import opened ReapHistory
  import opened AffinityPlans
  import opened AuditOutcomes
  import opened ServiceProxy
  import R = RangeArithmetic

  // ----- an advertised host is dialled -----

  /**
    From any state: a host that advertises, and that the relay means to be connected to, is dialled by the next
    connect run if it was not connected, and is connected and not draining in any case.
   */
  method AdIsDialled(proxy: ServiceDispatchHandler, s: string, h: HostPort, now: Time) returns (dialled: bool)
    requires proxy.Valid() && proxy.connecting.None? && (s !in proxy.channels ==> EndsFor(proxy.egress, s))
    modifies proxy
    ensures proxy.Valid() && s in proxy.channels
    ensures proxy.channels[s].mode == Exit && Wanted(proxy, s, h, old(proxy.channels), old(proxy.Connected(s))) ==>
      && (h !in old(proxy.connectedOut) ==> dialled)
      && h in proxy.connectedOut && h !in proxy.draining
  {
    hide ServiceDispatchHandler.Valid, ServiceDispatchHandler.ConvergesAdding, ServiceDispatchHandler.Converged;
    hide ServiceDispatchHandler.KnownWorkers, ServiceDispatchHandler.NeedsDial, EndsFor, IsExit, ExitHosts, Has,
      Affine;
    hide ServiceDispatchHandler.OnTheWay, ServiceDispatchHandler.LinksNow;
    proxy.RefreshServicePeer(s, h, now);
    dialled := DialNext(proxy, s, h);
  }

  /** The next connect run, up to the host's turn. */
  method DialNext(proxy: ServiceDispatchHandler, s: string, h: HostPort) returns (dialled: bool)
    requires proxy.Valid() && proxy.connecting.None?
    modifies proxy`connectedOut, proxy`peersToConnect, proxy`connecting
    ensures proxy.Valid()
    ensures old(proxy.OnTheWay(s, h)) && s in proxy.channels && h in proxy.channels[s].peers ==>
      && (h !in old(proxy.connectedOut) ==> dialled)
      && h in proxy.connectedOut && h !in proxy.draining
  {
    hide ServiceDispatchHandler.Valid;
    var collection := proxy.BeginConnect();
    dialled := false;
    if h in collection {
      dialled := proxy.ConnectSinglePeer(h);
    }
  }

  /** Every exit's peer is wanted without partial affinity; else one in the slice, known before or new to it. */
  ghost predicate Wanted(proxy: ServiceDispatchHandler, s: string, h: HostPort,
                         before: map<string, Channel>, connected: set<HostPort>)
    reads proxy
  {
    proxy.partialAffinityEnabled ==>
      h in proxy.Connected(s) && ((s in before && h in before[s].peers) || h !in connected)
  }

  // ----- a silent host is reaped -----

  /** A host advertises once. The second reap run after that takes it out and drains it. */
  method SilentHostReaped(me: HostPort, perWorker: nat, perRelay: nat, ring: Egress, partial: bool,
                          s: string, h: HostPort, now: Time)
    returns (proxy: ServiceDispatchHandler, reaped: bool)
    requires ring.whoami == me && EndsFor(ring, s) && IsExit(ring, s)
    ensures proxy.Valid() && reaped
    ensures s in proxy.channels && h !in proxy.channels[s].peers && Reaped(h, s) in proxy.log
    ensures h in proxy.draining && proxy.draining[h] == ReapDrain
  {
    hide ServiceDispatchHandler.Valid, EndsFor, IsExit, ExitHosts, Silent, Level, Within;
    proxy := new ServiceDispatchHandler(me, perWorker, perRelay, ring, partial);
    AdvertiseOnce(proxy, s, h, now);
    SecondRun(proxy, s, h);
    reaped := proxy.ReapSinglePeer(h);
  }

  /** A first reap run comes and goes, and a second one begins: the host is among its own. */
  method SecondRun(proxy: ServiceDispatchHandler, s: string, h: HostPort)
    requires proxy.Valid() && proxy.log == [Ad(h, s)] && proxy.reaping.None?
    modifies proxy
    ensures proxy.Valid() && proxy.channels == old(proxy.channels) && proxy.topPeers == old(proxy.topPeers)
    ensures proxy.draining == old(proxy.draining) && Silent(proxy.log, h)
    ensures proxy.reaping.Some? && h in proxy.reaping.value && s in Level(proxy.reaping.value, h)
  {
    hide ServiceDispatchHandler.Valid, Within, Silent, Level;
    var _ := proxy.BeginReap();
    proxy.EndReap();
    OnceThenSilent(h, s);
    assert proxy.log == [Ad(h, s), Snapshot];
    var collection := proxy.BeginReap();
    assert proxy.log == [Ad(h, s), Snapshot, Snapshot];
    HasLevel(collection, h, s);
  }

  method AdvertiseOnce(proxy: ServiceDispatchHandler, s: string, h: HostPort, now: Time)
    requires proxy.Valid() && EndsFor(proxy.egress, s) && IsExit(proxy.egress, s)
    requires proxy.channels == map[] && proxy.log == [] && proxy.draining == map[]
    modifies proxy
    ensures proxy.Valid() && proxy.log == [Ad(h, s)] && proxy.draining == map[] && proxy.reaping == old(proxy.reaping)
    ensures s in proxy.channels && h in proxy.topPeers
  {
    hide ServiceDispatchHandler.Valid, ServiceDispatchHandler.ConvergesAdding, ServiceDispatchHandler.Converged;
    hide ServiceDispatchHandler.KnownWorkers, ServiceDispatchHandler.NeedsDial, EndsFor, IsExit, ExitHosts, Has,
      Affine;
    proxy.RefreshServicePeer(s, h, now);
  }

  lemma OnceThenSilent(h: HostPort, s: string)
    ensures Within([Ad(h, s), Snapshot], h, s, 2) && !Within([Ad(h, s), Snapshot], h, s, 1)
    ensures Silent([Ad(h, s), Snapshot, Snapshot], h)
  {
    var log: History := [Ad(h, s)];
    assert [Ad(h, s), Snapshot] == log + [Snapshot];
    Extend(log, Snapshot);
    Extend([], Ad(h, s));
    assert log == [] + [Ad(h, s)];
    assert Within(log, h, s, 1);
    var all: History := [Ad(h, s), Snapshot, Snapshot];
    assert all[1].Snapshot?;
  }

  // ----- audits that do not suffice -----

  /** The hosts a range is left with when a forward channel loses one exit and later gains a worker. */
  ghost function Inherited(before: Egress, s: string, x: HostPort, h: HostPort): set<HostPort> {
    ExitHosts(before, s) - {x} + {h}
  }

  /**
    The relay forwards a service, one of the exits is unadvertised, which throws, but only after a range about the
    others was stored. If the process survives that, and the relay becomes an exit itself, and there were
    enough exits, then the first worker to advertise is not connected: every audit takes away one slice's
    worth of former exits, and after the last there are more.
   */
  method StaysApart(me: HostPort, perWorker: nat, perRelay: nat, before: Egress, after: Egress,
                    s: string, x: HostPort, h: HostPort, now: Time)
    returns (proxy: ServiceDispatchHandler, threw: bool)
    requires before.whoami == me == after.whoami && EndsFor(before, s) && EndsFor(after, s)
    requires !IsExit(before, s) && IsExit(after, s) && x in ExitHosts(before, s)
    requires perRelay >= 2 && ExitHosts(after, s) != {}
    requires |Inherited(before, s, x, h)| >= 2 * (perRelay + 1) + 2
    requires CeilDiv(OrOne(perWorker) * |Inherited(before, s, x, h)|, |ExitHosts(after, s)|) <= perRelay
    ensures threw
    ensures proxy.Valid() && proxy.partialAffinityEnabled && proxy.hostPort == me
    ensures proxy.minPeersPerWorker == perWorker && proxy.minPeersPerRelay == perRelay
    ensures s in proxy.channels && proxy.channels[s] == Channel(Exit, {h})
    ensures proxy.Connected(s) == {} && !proxy.Converged(s)
  {
    hide ServiceDispatchHandler.Valid, ServiceDispatchHandler.KnownWorkers, ServiceDispatchHandler.Connected;
    hide ServiceDispatchHandler.Converged, EndsFor, IsExit, ExitHosts, CeilDiv;
    proxy := new ServiceDispatchHandler(me, perWorker, perRelay, before, true);
    threw := LoseExit(proxy, s, x, now);
    BecomeExit(proxy, after, s, now);
    assert proxy.KnownWorkers(s) + {h} == Inherited(before, s, x, h);
    TooManyWorkers(proxy, s, h);
    NothingConverged(proxy, s, h, now);
  }

  /** A routed request makes a forward channel; then one of its exits is unadvertised. */
  method LoseExit(proxy: ServiceDispatchHandler, s: string, x: HostPort, now: Time) returns (threw: bool)
    requires proxy.Valid() && proxy.partialAffinityEnabled && EndsFor(proxy.egress, s)
    requires proxy.channels == map[] && proxy.connectedServicePeers == map[]
    requires !IsExit(proxy.egress, s) && x in ExitHosts(proxy.egress, s)
    modifies proxy
    ensures proxy.Valid() && proxy.partialAffinityEnabled
    ensures s in proxy.channels && proxy.channels[s].mode == Forward && s in proxy.partialRanges
    ensures proxy.KnownWorkers(s) == ExitHosts(old(proxy.egress), s) - {x} && proxy.Connected(s) == {}
    ensures threw
  {
    hide ServiceDispatchHandler.Valid, ServiceDispatchHandler.ConvergesRemoving, ServiceDispatchHandler.Converged;
    hide EndsFor, IsExit, ExitHosts, Has;
    proxy.RouteRequest(s);
    threw := proxy.RemoveServicePeer(s, x, now);
  }

  /** The ring changes so that a forwarder becomes an exit; it keeps its range. */
  method BecomeExit(proxy: ServiceDispatchHandler, after: Egress, s: string, now: Time)
    requires proxy.Valid() && after.whoami == proxy.hostPort && EndsFor(after, s) && IsExit(after, s)
    requires s in proxy.channels && proxy.channels[s].mode == Forward
    modifies proxy
    ensures proxy.Valid() && proxy.partialAffinityEnabled == old(proxy.partialAffinityEnabled)
    ensures s in proxy.channels && proxy.channels[s] == Channel(Exit, {})
    ensures proxy.partialRanges.Keys == old(proxy.partialRanges.Keys) && proxy.WorkersOf(s) == old(proxy.WorkersOf(s))
    ensures proxy.Connected(s) == old(proxy.Connected(s))
    ensures s in old(proxy.partialRanges) ==> proxy.KnownWorkers(s) == old(proxy.KnownWorkers(s))
    ensures |proxy.RelaysOf(s)| == |ExitHosts(after, s)|
    ensures old(proxy.topPeers) <= proxy.topPeers && proxy.draining.Keys <= old(proxy.draining.Keys)
    ensures proxy.pruning == old(proxy.pruning)
  {
    hide ServiceDispatchHandler.PeersOk, ServiceDispatchHandler.ReaperOk, ServiceDispatchHandler.ListOk,
      ServiceDispatchHandler.QueueOk;
    hide ServiceDispatchHandler.RolesOk, ServiceDispatchHandler.RingOk, ServiceDispatchHandler.RingRelays;
    hide ServiceDispatchHandler.WillSettle, ServiceDispatchHandler.WillConverge, ServiceDispatchHandler.Converged;
    hide ServiceDispatchHandler.KnownWorkers, ServiceDispatchHandler.WorkersOf;
    hide EndsFor, IsExit, ExitHosts, RolesAgree, Level;
    KnownAreListed(proxy, s);
    proxy.SetEgress(after);
    RingIsOk(proxy);
    proxy.UpdateServiceChannel(s, now);
    UnstableRoles(proxy);
    KnownAreListed(proxy, s);
    RelaysAreExits(proxy, s);
  }

  lemma RingIsOk(proxy: ServiceDispatchHandler)
    requires proxy.Valid()
    ensures proxy.RingOk()
  {}

  /** Until the next update of all channels, roles may lag behind the ring. */
  lemma UnstableRoles(proxy: ServiceDispatchHandler)
    requires proxy.RingOk() && !proxy.ringStable
    ensures proxy.RolesOk()
  {}

  lemma RelaysAreExits(proxy: ServiceDispatchHandler, s: string)
    ensures |proxy.RingRelays(s)| == |ExitHosts(proxy.egress, s)|
  {
    SizeOfHosts(proxy.RingRelays(s));
  }

  lemma KnownAreListed(proxy: ServiceDispatchHandler, s: string)
    requires s in proxy.channels
    ensures s in proxy.partialRanges ==> proxy.KnownWorkers(s) == Hosts(proxy.WorkersOf(s))
  {}

  /** Before the first worker advertises, it can be told that no audit will pass. */
  lemma TooManyWorkers(proxy: ServiceDispatchHandler, s: string, h: HostPort)
    requires proxy.Valid() && s in proxy.channels && proxy.channels[s] == Channel(Exit, {}) && s in proxy.partialRanges
    requires proxy.Connected(s) == {} && proxy.minPeersPerRelay >= 2
    requires var workers := |proxy.KnownWorkers(s) + {h}|;
      && workers >= 2 * (proxy.minPeersPerRelay + 1) + 2
      && CeilDiv(OrOne(proxy.minPeersPerWorker) * workers, |proxy.RelaysOf(s)|) <= proxy.minPeersPerRelay
    ensures !proxy.ConvergesAdding(s, h)
  {
    hide Settles, StrictlySorted, Insert, Sound, AllFit, RolesAgree, CeilDiv;
    proxy.SortedWorkers(s);
    proxy.FitsAt(s);
    var workers := Insert(proxy.WorkersOf(s), h);
    InsertKeepsOrder(proxy.WorkersOf(s), h);
    SizeOfHosts(workers);
    assert h in Hosts(workers);
    var c := Cut(proxy.hostPort, OrOne(proxy.minPeersPerWorker), OrOne(proxy.minPeersPerRelay), proxy.RelaysOf(s));
    NeverSettles(c, workers, h, proxy.connectedOut, proxy.peersToPrune.Keys, MAX_AFFINITY_AUDIT_ROUNDS, true);
    var none: set<HostPort> := {};
    assert none + {h} == {h};
  }

  /** So it is not connected, and neither is anything else. */
  method NothingConverged(proxy: ServiceDispatchHandler, s: string, h: HostPort, now: Time)
    requires proxy.Valid() && proxy.partialAffinityEnabled
    requires s in proxy.channels && proxy.channels[s] == Channel(Exit, {}) && proxy.Connected(s) == {}
    requires !proxy.ConvergesAdding(s, h)
    modifies proxy
    ensures proxy.Valid() && proxy.partialAffinityEnabled
    ensures s in proxy.channels && proxy.channels[s] == Channel(Exit, {h})
    ensures proxy.Connected(s) == {} && !proxy.Converged(s)
  {
    hide Settles, Sound, AllFit, RolesAgree, EndsFor, IsExit, ExitHosts, Affine, Has;
    proxy.RefreshServicePeer(s, h, now);
    proxy.SomeAreAffine(s);
  }

  // ----- the defaults, and twenty exits -----

  /** A ring that gives every shard to a host of its own, save for the relay's own share. */
  function Spread(k: int, me: HostPort, mine: seq<string>): Egress {
    Egress((key: string) => if key in mine then me else key, me, k, map[], map[])
  }

  lemma {:induction false} PlainIndex(n: nat, k: nat)
    ensures IndexAfter(n, k, map[]) == if n <= k then n else k
  {
    if n > 0 {
      PlainIndex(n - 1, k);
    }
  }

  /** Without hops, shard number `i` is `i`. */
  lemma PlainShards(e: Egress, s: string)
    requires e.kValues == map[] && e.iHops == map[] && e.defaultKValue >= 0
    ensures EndsFor(e, s) && |Shards(e, s)| == e.defaultKValue
    ensures forall i :: 0 <= i < e.defaultKValue ==> Shards(e, s)[i] == i
  {
    var k: nat := e.defaultKValue;
    forall n: nat ensures IndexAfter(n, k, map[]) == if n <= k then n else k {
      PlainIndex(n, k);
    }
    assert IndexAfter(k, k, map[]) >= k;
  }

  /** The first `n` owners are `n` different hosts when the ring tells the shards apart. */
  ghost function FirstOwners(e: Egress, s: string, n: nat): set<HostPort> {
    if n == 0 then {} else FirstOwners(e, s, n - 1) + {Owner(e, s, n - 1)}
  }

  lemma {:induction false} OwnersDiffer(e: Egress, s: string, n: nat)
    requires forall i: nat, j: nat :: i < j < n ==> Owner(e, s, i) != Owner(e, s, j)
    ensures |FirstOwners(e, s, n)| == n
  {
    hide Owner;
    if n > 0 {
      OwnersDiffer(e, s, n - 1);
      if Owner(e, s, n - 1) in FirstOwners(e, s, n - 1) {
        var i := AmongFirst(e, s, n - 1, Owner(e, s, n - 1));
        assert false;
      }
    }
  }

  lemma {:induction false} AmongFirst(e: Egress, s: string, n: nat, h: HostPort) returns (i: nat)
    requires h in FirstOwners(e, s, n)
    ensures i < n && Owner(e, s, i) == h
  {
    hide Owner;
    if Owner(e, s, n - 1) == h {
      i := n - 1;
    } else {
      i := AmongFirst(e, s, n - 1, h);
    }
  }

  lemma {:induction false} FirstHasAll(e: Egress, s: string, n: nat, i: nat)
    requires i < n
    ensures Owner(e, s, i) in FirstOwners(e, s, n)
  {
    hide Owner;
    if i < n - 1 {
      FirstHasAll(e, s, n - 1, i);
    }
  }

  /** On such a ring the exits are the owners of the shards in turn. */
  lemma ExitsAreFirstOwners(e: Egress, s: string)
    requires e.kValues == map[] && e.iHops == map[] && e.defaultKValue >= 0
    ensures ExitHosts(e, s) == FirstOwners(e, s, e.defaultKValue)
  {
    hide Owner, Shards;
    PlainShards(e, s);
    var k := e.defaultKValue;
    forall h | h in ExitHosts(e, s) ensures h in FirstOwners(e, s, k) {
      var i :| i in Shards(e, s) && Owner(e, s, i) == h;
      FirstHasAll(e, s, k, i);
    }
    forall h | h in FirstOwners(e, s, k) ensures h in ExitHosts(e, s) {
      var i := AmongFirst(e, s, k, h);
      assert Shards(e, s)[i] == i;
    }
  }

  lemma SpreadExits(k: nat, me: HostPort, s: string, mine: seq<string>)
    requires mine == [] || mine == [ShardKey(s, 0)]
    requires forall i: nat :: ShardKey(s, i) != me
    ensures var e := Spread(k, me, mine);
      && EndsFor(e, s) && |ExitHosts(e, s)| == k
      && (IsExit(e, s) <==> k > 0 && mine != [])
      && (forall i: nat :: 0 < i < k ==> ShardKey(s, i) in ExitHosts(e, s))
  {
    hide ShardKey, Shards, EndsFor, ExitHosts, FirstOwners;
    var e := Spread(k, me, mine);
    PlainShards(e, s);
    ExitsAreFirstOwners(e, s);
    forall i: nat, j: nat | i < j < k ensures Owner(e, s, i) != Owner(e, s, j) {
      if ShardKey(s, i) == ShardKey(s, j) {
        ShardKeyIsInjective(s, i, s, j);
      }
      if i > 0 && ShardKey(s, i) == ShardKey(s, 0) {
        ShardKeyIsInjective(s, i, s, 0);
      }
      if ShardKey(s, j) == ShardKey(s, 0) {
        ShardKeyIsInjective(s, j, s, 0);
      }
    }
    OwnersDiffer(e, s, k);
    forall i: nat | 0 < i < k ensures ShardKey(s, i) in ExitHosts(e, s) {
      FirstHasAll(e, s, k, i);
      if ShardKey(s, i) == ShardKey(s, 0) {
        ShardKeyIsInjective(s, i, s, 0);
      }
    }
    if k > 0 {
      FirstHasAll(e, s, k, 0);
    }
    if me in FirstOwners(e, s, k) {
      var i := AmongFirst(e, s, k, me);
      assert Owner(e, s, i) == me;
    }
  }

  /** With twenty exits, and the default minimums of five. */
  method TwentyExitsStayApart(now: Time) returns (proxy: ServiceDispatchHandler, threw: bool)
    ensures threw
    ensures proxy.Valid() && proxy.minPeersPerWorker == proxy.minPeersPerRelay == 5
    ensures "svc" in proxy.channels && proxy.channels["svc"] == Channel(Exit, {"worker"})
    ensures proxy.Connected("svc") == {} && !proxy.Converged("svc")
  {
    hide Spread, EndsFor, IsExit, ExitHosts, ShardKey, ServiceDispatchHandler.Valid, ServiceDispatchHandler.Converged;
    var before, after := Spread(20, "me", []), Spread(20, "me", [ShardKey("svc", 0)]);
    OtherNames();
    SpreadExits(20, "me", "svc", []);
    SpreadExits(20, "me", "svc", [ShardKey("svc", 0)]);
    SpreadIsMine(20, "me", []);
    SpreadIsMine(20, "me", [ShardKey("svc", 0)]);
    var x := ShardKey("svc", 1);
    OwnersAreKeys(20, "me", "svc", "worker");
    assert |Inherited(before, "svc", x, "worker")| == 20;
    proxy, threw := StaysApart("me", 5, 5, before, after, "svc", x, "worker", now);
  }

  lemma SpreadIsMine(k: int, me: HostPort, mine: seq<string>)
    ensures Spread(k, me, mine).whoami == me
  {}

  /** No shard key of the service is the name of the relay or of the worker. */
  lemma OtherNames()
    ensures forall i: nat :: ShardKey("svc", i) != "me" && ShardKey("svc", i) != "worker"
  {
    forall i: nat ensures ShardKey("svc", i)[0] == 's' {}
  }

  lemma OwnersAreKeys(k: nat, me: HostPort, s: string, h: HostPort)
    requires forall i: nat :: ShardKey(s, i) != h
    ensures h !in ExitHosts(Spread(k, me, []), s)
  {
    hide ShardKey, Shards;
    var e := Spread(k, me, []);
    PlainShards(e, s);
    ExitsAreFirstOwners(e, s);
    if h in FirstOwners(e, s, k) {
      var i := AmongFirst(e, s, k, h);
      OwnKey(k, me, s, i);
      assert false;
    }
  }

  lemma OwnKey(k: nat, me: HostPort, s: string, i: nat)
    ensures Owner(Spread(k, me, []), s, i) == ShardKey(s, i)
  {}

  // ----- a prune run that is overtaken -----

  /**
    A relay stops being an exit, so the service's only worker is queued for pruning; a prune run takes the
    queue. Before the run gets to the worker, the relay is an exit again and the worker advertises. It is
    connected, and then the run drains it.
   */
  method PruneRace(me: HostPort, perWorker: nat, perRelay: nat, here: Egress, away: Egress,
                   s: string, h: HostPort, now: Time)
    returns (proxy: ServiceDispatchHandler, drained: bool)
    requires here.whoami == me == away.whoami && EndsFor(here, s) && EndsFor(away, s)
    requires IsExit(here, s) && !IsExit(away, s)
    ensures proxy.Valid() && s in proxy.channels && proxy.channels[s] == Channel(Exit, {h})
    ensures Has(proxy.connectedServicePeers, s, h) && proxy.Serves(h)
    ensures drained && h in proxy.draining && proxy.draining[h] == PruneDrain
  {
    hide ServiceDispatchHandler.Valid, ServiceDispatchHandler.KnownWorkers, ServiceDispatchHandler.Connected;
    hide ServiceDispatchHandler.Converged, EndsFor, IsExit, ExitHosts, Has;
    proxy := new ServiceDispatchHandler(me, perWorker, perRelay, here, false);
    QueueForPruning(proxy, away, s, h, now);
    var _ := proxy.BeginPrune();
    BecomeExit(proxy, here, s, now);
    ConnectOnly(proxy, s, h, now);
    drained := proxy.PruneSinglePeer(h);
    assert ListedBy(proxy.channels, s, h);
  }

  /** The worker advertises, and then the relay stops being an exit. Partial affinity is switched on later. */
  method QueueForPruning(proxy: ServiceDispatchHandler, away: Egress, s: string, h: HostPort, now: Time)
    requires proxy.Valid() && !proxy.partialAffinityEnabled && EndsFor(proxy.egress, s) && IsExit(proxy.egress, s)
    requires away.whoami == proxy.hostPort && EndsFor(away, s) && !IsExit(away, s)
    requires proxy.channels == map[] && proxy.connectedPeerServices == map[]
    requires proxy.draining == map[] && proxy.pruning.None?
    modifies proxy
    ensures proxy.Valid() && proxy.partialAffinityEnabled && proxy.pruning.None?
    ensures s in proxy.channels && proxy.channels[s].mode == Forward && proxy.partialRanges == map[]
    ensures h in proxy.peersToPrune && proxy.draining == map[]
  {
    hide ServiceDispatchHandler.Valid, EndsFor, IsExit, ExitHosts, Has;
    AdvertiseFully(proxy, s, h, now);
    StopBeingExit(proxy, away, s, h, now);
    proxy.SetPartialAffinityEnabled(true);
  }

  /** Without partial affinity: the first advertisement of a service. */
  method AdvertiseFully(proxy: ServiceDispatchHandler, s: string, h: HostPort, now: Time)
    requires proxy.Valid() && !proxy.partialAffinityEnabled && EndsFor(proxy.egress, s) && IsExit(proxy.egress, s)
    requires s !in proxy.channels && proxy.draining == map[]
    modifies proxy
    ensures proxy.Valid() && !proxy.partialAffinityEnabled && proxy.pruning == old(proxy.pruning)
    ensures proxy.channels == old(proxy.channels)[s := Channel(Exit, {h})] && proxy.egress == old(proxy.egress)
    ensures h in proxy.topPeers && old(proxy.topPeers) <= proxy.topPeers
    ensures proxy.connectedPeerServices == old(proxy.connectedPeerServices) && proxy.draining == map[]
  {
    hide ServiceDispatchHandler.Valid, ServiceDispatchHandler.ConvergesAdding, ServiceDispatchHandler.Converged;
    hide ServiceDispatchHandler.KnownWorkers, EndsFor, IsExit, ExitHosts, Has, Affine, Ready;
    proxy.RefreshServicePeer(s, h, now);
    assert proxy.channels[s].peers == {h};
  }

  method StopBeingExit(proxy: ServiceDispatchHandler, away: Egress, s: string, h: HostPort, now: Time)
    requires proxy.Valid() && !proxy.partialAffinityEnabled
    requires away.whoami == proxy.hostPort && EndsFor(away, s) && !IsExit(away, s)
    requires s in proxy.channels && proxy.channels[s] == Channel(Exit, {h})
    requires proxy.connectedPeerServices == map[] && proxy.draining == map[]
    modifies proxy
    ensures proxy.Valid() && !proxy.partialAffinityEnabled && proxy.pruning == old(proxy.pruning)
    ensures s in proxy.channels && proxy.channels[s].mode == Forward
    ensures h in proxy.peersToPrune && proxy.draining == map[]
    ensures forall x :: x in old(proxy.channels) && x != s ==> x in proxy.channels && proxy.channels[x] == old(proxy.channels)[x]
    ensures proxy.egress == away && !proxy.ringStable && old(proxy.topPeers) <= proxy.topPeers
  {
    hide ServiceDispatchHandler.PeersOk, ServiceDispatchHandler.ReaperOk, ServiceDispatchHandler.ListOk,
      ServiceDispatchHandler.QueueOk;
    hide ServiceDispatchHandler.RolesOk, ServiceDispatchHandler.RingOk, ServiceDispatchHandler.RingRelays;
    hide ServiceDispatchHandler.WillSettle, ServiceDispatchHandler.WillConverge, ServiceDispatchHandler.Converged,
      ServiceDispatchHandler.LinksNow;
    hide EndsFor, IsExit, ExitHosts, RolesAgree;
    proxy.SetEgress(away);
    RingIsOk(proxy);
    proxy.UpdateServiceChannel(s, now);
    UnstableRoles(proxy);
  }

  /** The first worker of an exit is connected. */
  method ConnectOnly(proxy: ServiceDispatchHandler, s: string, h: HostPort, now: Time)
    requires proxy.Valid() && proxy.partialAffinityEnabled && s !in proxy.partialRanges
    requires s in proxy.channels && proxy.channels[s] == Channel(Exit, {}) && proxy.draining == map[]
    modifies proxy
    ensures proxy.Valid() && proxy.pruning == old(proxy.pruning) && proxy.draining == map[]
    ensures s in proxy.channels && proxy.channels[s] == Channel(Exit, {h}) && h in proxy.topPeers
    ensures Has(proxy.connectedServicePeers, s, h)
  {
    hide Settles, EndsFor, IsExit, ExitHosts, RolesAgree, Sound, AllFit, Affine, Ready;
    proxy.NewConvergesAdding(s, h);
    proxy.RefreshServicePeer(s, h, now);
    proxy.SomeAreAffine(s);
    proxy.AffineAreKnown(s);
    HasLevel(proxy.connectedServicePeers, s, h);
  }

  // ----- the same without partial affinity -----

  /**
    The same race without partial affinity: the worker advertises between the run's snapshot and its turn, is
    queued for connecting, and drained.
   */
  method FullPruneRace(me: HostPort, perWorker: nat, perRelay: nat, here: Egress, away: Egress,
                       s: string, h: HostPort, now: Time)
    returns (proxy: ServiceDispatchHandler, drained: bool)
    requires here.whoami == me == away.whoami && EndsFor(here, s) && EndsFor(away, s)
    requires IsExit(here, s) && !IsExit(away, s)
    ensures proxy.Valid() && !proxy.partialAffinityEnabled
    ensures s in proxy.channels && proxy.channels[s] == Channel(Exit, {h}) && proxy.Serves(h)
    ensures drained && h in proxy.draining && proxy.draining[h] == PruneDrain
  {
    hide ServiceDispatchHandler.Valid, ServiceDispatchHandler.KnownWorkers, ServiceDispatchHandler.Connected;
    hide ServiceDispatchHandler.Converged, EndsFor, IsExit, ExitHosts, Has;
    proxy := new ServiceDispatchHandler(me, perWorker, perRelay, here, false);
    AdvertiseFully(proxy, s, h, now);
    StopBeingExit(proxy, away, s, h, now);
    var _ := proxy.BeginPrune();
    BecomeExit(proxy, here, s, now);
    AdvertiseAgain(proxy, s, h, now);
    drained := proxy.PruneSinglePeer(h);
    assert ListedBy(proxy.channels, s, h);
  }

  method AdvertiseAgain(proxy: ServiceDispatchHandler, s: string, h: HostPort, now: Time)
    requires proxy.Valid() && !proxy.partialAffinityEnabled && proxy.draining == map[]
    requires s in proxy.channels && proxy.channels[s] == Channel(Exit, {})
    modifies proxy
    ensures proxy.Valid() && !proxy.partialAffinityEnabled && proxy.pruning == old(proxy.pruning)
    ensures s in proxy.channels && proxy.channels[s] == Channel(Exit, {h})
    ensures h in proxy.topPeers && proxy.draining == map[]
  {
    hide ServiceDispatchHandler.Valid, ServiceDispatchHandler.ConvergesAdding, ServiceDispatchHandler.Converged;
    hide ServiceDispatchHandler.KnownWorkers, EndsFor, IsExit, ExitHosts, Has, Affine, Ready;
    proxy.RefreshServicePeer(s, h, now);
  }

  /**
    And one without any race: a worker advertises two services, the relay stops being an exit of one of them, and
    the worker is drained while the other lists it.
   */
  method SharedWorkerPruned(me: HostPort, perWorker: nat, perRelay: nat, here: Egress, away: Egress,
                            s: string, t: string, h: HostPort, now: Time)
    returns (proxy: ServiceDispatchHandler, drained: bool)
    requires here.whoami == me == away.whoami && s != t
    requires EndsFor(here, s) && EndsFor(here, t) && EndsFor(away, s) && EndsFor(away, t)
    requires IsExit(here, s) && IsExit(here, t) && !IsExit(away, s) && IsExit(away, t)
    ensures proxy.Valid() && !proxy.partialAffinityEnabled
    ensures t in proxy.channels && proxy.channels[t] == Channel(Exit, {h}) && proxy.Serves(h)
    ensures drained && h in proxy.draining && proxy.draining[h] == PruneDrain
  {
    hide ServiceDispatchHandler.Valid, ServiceDispatchHandler.Converged, EndsFor, IsExit, ExitHosts, Has;
    proxy := new ServiceDispatchHandler(me, perWorker, perRelay, here, false);
    AdvertiseFully(proxy, s, h, now);
    AdvertiseFully(proxy, t, h, now);
    StopBeingExitOfOne(proxy, away, s, t, h, now);
    var _ := proxy.BeginPrune();
    drained := proxy.PruneSinglePeer(h);
    assert ListedBy(proxy.channels, t, h);
  }

  method StopBeingExitOfOne(proxy: ServiceDispatchHandler, away: Egress, s: string, t: string, h: HostPort, now: Time)
    requires proxy.Valid() && !proxy.partialAffinityEnabled && s != t
    requires away.whoami == proxy.hostPort && EndsFor(away, s) && EndsFor(away, t) && !IsExit(away, s) && IsExit(away, t)
    requires s in proxy.channels && proxy.channels[s] == Channel(Exit, {h})
    requires t in proxy.channels && proxy.channels[t] == Channel(Exit, {h})
    requires proxy.connectedPeerServices == map[] && proxy.draining == map[]
    modifies proxy
    ensures proxy.Valid() && !proxy.partialAffinityEnabled && proxy.pruning == old(proxy.pruning)
    ensures t in proxy.channels && proxy.channels[t] == Channel(Exit, {h})
    ensures h in proxy.peersToPrune && proxy.draining == map[] && old(proxy.topPeers) <= proxy.topPeers
  {
    hide ServiceDispatchHandler.Valid, EndsFor, IsExit, ExitHosts, ServiceDispatchHandler.RingOk;
    StopBeingExit(proxy, away, s, h, now);
    StayExit(proxy, t, now);
  }

  /** The other service's turn in the same update changes nothing. */
  method StayExit(proxy: ServiceDispatchHandler, t: string, now: Time)
    requires proxy.Valid() && !proxy.partialAffinityEnabled && !proxy.ringStable
    requires t in proxy.channels && proxy.channels[t].mode == Exit && EndsFor(proxy.egress, t) && IsExit(proxy.egress, t)
    modifies proxy
    ensures proxy.Valid() && !proxy.partialAffinityEnabled && proxy.pruning == old(proxy.pruning)
    ensures proxy.channels == old(proxy.channels) && proxy.LinksNow() == old(proxy.LinksNow())
    ensures proxy.draining.Keys <= old(proxy.draining.Keys) && old(proxy.topPeers) <= proxy.topPeers
  {
    hide ServiceDispatchHandler.PeersOk, ServiceDispatchHandler.ReaperOk, ServiceDispatchHandler.ListOk,
      ServiceDispatchHandler.QueueOk;
    hide ServiceDispatchHandler.RolesOk, ServiceDispatchHandler.RingOk, ServiceDispatchHandler.RingRelays;
    hide ServiceDispatchHandler.WillSettle, ServiceDispatchHandler.WillConverge, ServiceDispatchHandler.Converged;
    hide EndsFor, IsExit, ExitHosts, RolesAgree;
    RingIsOk(proxy);
    proxy.UpdateServiceChannel(t, now);
    UnstableRoles(proxy);
  }

  // ----- an index entry that is left behind -----

  lemma OneOfTwo(c: Cut, workers: seq<HostPort>)
    requires StrictlySorted(c.relays) && c.me in c.relays && StrictlySorted(workers)
    requires |c.relays| == |workers| == 2 && c.perWorker == c.perRelay == 1
    ensures |AffineOf(c, workers)| == 1
  {
    hide Direct, R.Consecutive, StrictlySorted, R.StrictlyDistinct;
    var i: nat :| i < |c.relays| && c.relays[i] == c.me;
    assert SliceLength(2, 2, 1, 1) == 1;
    R.SliceShape(c.relays, i, workers, c.perWorker, c.perRelay);
    SizeOfDistinct(R.Affine(c.relays, i, workers, c.perWorker, c.perRelay));
  }

  /**
    One of two exits, with two workers and minimums of one, is connected to one of the workers. When that one is
    unadvertised the other is connected instead, and the first stays behind in the index by peer: the audit
    took it out of the index by service, so nothing disconnects it.
   */
  method UnadvertiseLeavesEntry(me: HostPort, ring: Egress, s: string, a: HostPort, b: HostPort, now: Time)
    returns (proxy: ServiceDispatchHandler, gone: HostPort)
    requires ring.whoami == me && EndsFor(ring, s) && IsExit(ring, s) && |ExitHosts(ring, s)| == 2 && a != b
    ensures proxy.Valid() && s in proxy.channels && gone in {a, b} && proxy.channels[s].peers == {a, b} - {gone}
    ensures !Has(proxy.connectedServicePeers, s, gone) && Has(proxy.connectedPeerServices, gone, s)
    ensures !Transposed(proxy.connectedServicePeers, proxy.connectedPeerServices)
  {
    hide ServiceDispatchHandler.Valid, ServiceDispatchHandler.Converged, ServiceDispatchHandler.KnownWorkers;
    hide EndsFor, IsExit, ExitHosts, Has;
    proxy := new ServiceDispatchHandler(me, 1, 1, ring, true);
    TwoWorkers(proxy, s, a, b, now);
    gone := if a in Level(proxy.connectedServicePeers, s) then a else b;
    Replace(proxy, s, gone, if gone == a then b else a, now);
  }

  method TwoWorkers(proxy: ServiceDispatchHandler, s: string, a: HostPort, b: HostPort, now: Time)
    requires proxy.Valid() && proxy.partialAffinityEnabled && proxy.channels == map[] && proxy.inherited == {}
    requires proxy.minPeersPerWorker == proxy.minPeersPerRelay == 1 && a != b
    requires EndsFor(proxy.egress, s) && IsExit(proxy.egress, s) && |ExitHosts(proxy.egress, s)| == 2
    modifies proxy
    ensures proxy.Valid() && proxy.partialAffinityEnabled && proxy.inherited == {}
    ensures s in proxy.channels && proxy.channels[s] == Channel(Exit, {a, b}) && {a, b} <= proxy.topPeers
    ensures proxy.Connected(s) == {a} || proxy.Connected(s) == {b}
  {
    hide ServiceDispatchHandler.Valid, ServiceDispatchHandler.Converged, ServiceDispatchHandler.Connected;
    hide EndsFor, IsExit, ExitHosts;
    proxy.RouteRequest(s);
    RelaysAreExits(proxy, s);
    AddWorkerTo(proxy, s, a, now);
    AddWorkerTo(proxy, s, b, now);
    OneIsConnected(proxy, s, a, b);
  }

  /** An exit that never was a forwarder converges with every new worker. */
  method AddWorkerTo(proxy: ServiceDispatchHandler, s: string, h: HostPort, now: Time)
    requires proxy.Valid() && proxy.partialAffinityEnabled && proxy.inherited == {}
    requires s in proxy.channels && proxy.channels[s].mode == Exit && h !in proxy.channels[s].peers
    modifies proxy
    ensures proxy.Valid() && proxy.partialAffinityEnabled && proxy.inherited == {} && proxy.Converged(s)
    ensures s in proxy.channels && proxy.channels[s] == Channel(Exit, old(proxy.channels)[s].peers + {h})
    ensures old(proxy.topPeers) + {h} <= proxy.topPeers && proxy.RelaysOf(s) == old(proxy.RelaysOf(s))
  {
    hide ServiceDispatchHandler.Valid, ServiceDispatchHandler.KnownWorkers, ServiceDispatchHandler.ConvergesAdding;
    hide ServiceDispatchHandler.Converged, ServiceDispatchHandler.Connected, ServiceDispatchHandler.LinksNow;
    hide EndsFor, IsExit, ExitHosts, Has, Affine, Ready;
    proxy.RefreshServicePeer(s, h, now);
  }

  lemma OneIsConnected(proxy: ServiceDispatchHandler, s: string, a: HostPort, b: HostPort)
    requires proxy.Valid() && s in proxy.channels && proxy.channels[s] == Channel(Exit, {a, b}) && a != b
    requires proxy.inherited == {} && proxy.minPeersPerWorker == proxy.minPeersPerRelay == 1
    requires |proxy.RelaysOf(s)| == 2 && proxy.Converged(s)
    ensures proxy.Connected(s) == {a} || proxy.Connected(s) == {b}
  {
    hide Sound, AllFit, RolesAgree, Affine, AffineOf;
    proxy.KnownArePeers(s);
    proxy.CutFits(s);
    proxy.AffineAreKnown(s);
    AffineIsAffineOf(proxy.partialRanges[s]);
    SizeOfHosts(proxy.WorkersOf(s));
    OneOfTwo(CutOf(proxy.partialRanges[s]), proxy.WorkersOf(s));
    OneMember(proxy.Connected(s), a, b);
  }

  lemma OneMember(x: set<HostPort>, a: HostPort, b: HostPort)
    requires |x| == 1 && x <= {a, b} && a != b
    ensures x == {a} || x == {b}
  {
    var y :| y in x;
    if a in x && b in x {
      SubsetIsSmaller({a, b}, x);
    } else {
      assert x == {y};
    }
  }

  method Replace(proxy: ServiceDispatchHandler, s: string, gone: HostPort, stays: HostPort, now: Time)
    requires proxy.Valid() && proxy.partialAffinityEnabled && proxy.inherited == {}
    requires s in proxy.channels && proxy.channels[s] == Channel(Exit, {gone, stays}) && gone != stays
    requires proxy.Connected(s) == {gone} && gone in proxy.topPeers
    modifies proxy
    ensures proxy.Valid() && s in proxy.channels && proxy.channels[s].peers == {stays}
    ensures !Has(proxy.connectedServicePeers, s, gone) && Has(proxy.connectedPeerServices, gone, s)
  {
    hide ServiceDispatchHandler.Valid, ServiceDispatchHandler.ConvergesRemoving, ServiceDispatchHandler.Converged;
    hide ServiceDispatchHandler.KnownWorkers, Has, Level, Ready;
    Listed(proxy, s, gone);
    var _ := proxy.RemoveServicePeer(s, gone, now);
    OnlyOne(proxy, s, stays);
    HasLevel(proxy.connectedServicePeers, s, gone);
    HasLevel(proxy.connectedPeerServices, gone, s);
  }

  lemma Listed(proxy: ServiceDispatchHandler, s: string, h: HostPort)
    requires proxy.Valid() && h in proxy.Connected(s)
    ensures s in Level(proxy.connectedPeerServices, h)
  {
    HasLevel(proxy.connectedServicePeers, s, h);
    HasLevel(proxy.connectedPeerServices, h, s);
  }

  /** An exit that has converged on its only worker is connected to it. */
  lemma OnlyOne(proxy: ServiceDispatchHandler, s: string, h: HostPort)
    requires proxy.Valid() && proxy.inherited == {} && proxy.Converged(s)
    requires s in proxy.channels && proxy.channels[s] == Channel(Exit, {h})
    ensures proxy.Connected(s) == {h}
  {
    hide Sound, AllFit, RolesAgree, Affine, Ready;
    proxy.KnownArePeers(s);
    proxy.SomeAreAffine(s);
    proxy.AffineAreKnown(s);
  }
}
