/**
  The service dispatch handler (service-proxy.js): advertisements, partial affinity, the peer
  reaper, the prune and connect queues, and the exit and forward roles of its channels.
  Dictionaries are fields of the class; partial ranges are held by value.
 */
module ServiceProxy {
  import opened Options
  import opened HostOrder
  import opened PartialRanges
  import opened EgressNodes
  import opened PeerIndex
  import opened PeerLinks
  import opened ReapHistory
  import opened Listings
  import opened AffinityPlans
  import opened AuditOutcomes

  const MAX_AFFINITY_AUDIT_ROUNDS := 3

  /** `Other` channels are not proxied: they carry no mode in the source. */
  datatype Mode = Exit | Forward | Other

  datatype Channel = Channel(mode: Mode, peers: set<HostPort>)

  /** What an affinity change came to. */
  datatype ChangeResult = ChangeResult(noop: bool, audited: bool, isAffine: set<HostPort>) {
    predicate Settled() { noop || audited }
  }

  datatype Drain = PruneDrain | ReapDrain | UnadvertiseDrain

  function Get<V>(m: map<string, V>, key: string): Option<V> {
    if key in m then Some(m[key]) else None
  }

  // ----- what holds of each service -----

  /**
    A service's partial range: it is about this relay and the service's current relays, and in exit
    mode its workers are the channel's peers, unless the range dates from before the channel
    became an exit.
   */
  ghost predicate RangeFits(r: Range, ch: Channel, relays: Option<seq<HostPort>>,
                            me: HostPort, perWorker: nat, perRelay: nat, inherited: bool) {
    && Coherent(r)
    && r.relayHostPort == me
    && r.minPeersPerWorker == OrOne(perWorker) && r.minPeersPerRelay == OrOne(perRelay)
    && r.workers.Some?
    && r.relays == relays
    && (relays.None? ==> r.slice.None?)
    && (ch.mode == Exit && !inherited ==> Hosts(r.workers.value) == ch.peers)
  }

  /** A proxied channel is in exit mode exactly when this relay is among the service's relays. */
  ghost predicate ServiceFits(ch: Channel, relays: Option<seq<HostPort>>, range: Option<Range>,
                              me: HostPort, perWorker: nat, perRelay: nat, inherited: bool) {
    && (ch.mode == Other <==> relays.None?)
    && (relays.Some? ==> StrictlySorted(relays.value) && (ch.mode == Exit <==> me in relays.value))
    && (range.Some? ==> RangeFits(range.value, ch, relays, me, perWorker, perRelay, inherited))
  }

  lemma ExitRangeIsReady(ch: Channel, relays: Option<seq<HostPort>>, r: Range,
                         me: HostPort, perWorker: nat, perRelay: nat, inherited: bool)
    requires ServiceFits(ch, relays, Some(r), me, perWorker, perRelay, inherited)
    ensures ch.mode == Exit <==> Ready(r)
    ensures ComputeIfNeeded(r).slice.Some? <==> ch.mode == Exit
    ensures RangeFits(ComputeIfNeeded(r), ch, relays, me, perWorker, perRelay, inherited)
  {}

  ghost predicate AllFit(channels: map<string, Channel>, relaysFor: map<string, seq<HostPort>>,
                         ranges: map<string, Range>, inherited: set<string>,
                         me: HostPort, perWorker: nat, perRelay: nat) {
    && ranges.Keys <= channels.Keys
    && relaysFor.Keys <= channels.Keys
    && inherited <= ranges.Keys
    && forall s :: s in channels ==>
         ServiceFits(channels[s], Get(relaysFor, s), Get(ranges, s), me, perWorker, perRelay, s in inherited)
  }

  /** Changing one service's entries keeps all services fitting when it keeps that one so. */
  lemma AllFitPut(channels: map<string, Channel>, relaysFor: map<string, seq<HostPort>>,
                  ranges: map<string, Range>, inherited: set<string>,
                  channels': map<string, Channel>, relaysFor': map<string, seq<HostPort>>,
                  ranges': map<string, Range>, inherited': set<string>,
                  me: HostPort, perWorker: nat, perRelay: nat, s: string)
    requires AllFit(channels, relaysFor, ranges, inherited, me, perWorker, perRelay)
    requires s in channels' && (s in inherited' ==> s in ranges')
    requires forall x :: x != s ==>
      && Get(channels', x) == Get(channels, x) && Get(relaysFor', x) == Get(relaysFor, x)
      && Get(ranges', x) == Get(ranges, x) && (x in inherited' <==> x in inherited)
    requires ServiceFits(channels'[s], Get(relaysFor', s), Get(ranges', s), me, perWorker, perRelay, s in inherited')
    ensures AllFit(channels', relaysFor', ranges', inherited', me, perWorker, perRelay)
  {
    hide ServiceFits;
    forall x | x in channels'
      ensures ServiceFits(channels'[x], Get(relaysFor', x), Get(ranges', x), me, perWorker, perRelay, x in inherited')
    {
      if x != s {
        assert Get(channels', x) == Get(channels, x) && Get(relaysFor', x) == Get(relaysFor, x);
      }
    }
    forall x | x in ranges' ensures x in channels' {
      if x != s {
        assert Get(ranges', x) == Get(ranges, x) && Get(channels', x) == Get(channels, x);
      }
    }
    forall x | x in relaysFor' ensures x in channels' {
      if x != s {
        assert Get(relaysFor', x) == Get(relaysFor, x) && Get(channels', x) == Get(channels, x);
      }
    }
    forall x | x in inherited' ensures x in ranges' {
      if x != s {
        assert Get(ranges', x) == Get(ranges, x);
      }
    }
  }

  lemma SameKeys(ranges: map<string, Range>, ranges': map<string, Range>, s: string)
    requires forall x :: x != s ==> Get(ranges', x) == Get(ranges, x)
    requires s in ranges <==> s in ranges'
    ensures ranges'.Keys == ranges.Keys
  {
    forall x ensures x in ranges <==> x in ranges' {
      assert x != s ==> Get(ranges', x) == Get(ranges, x);
    }
  }

  lemma NoRangesFit(channels: map<string, Channel>, relaysFor: map<string, seq<HostPort>>,
                    ranges: map<string, Range>, inherited: set<string>,
                    me: HostPort, perWorker: nat, perRelay: nat)
    requires AllFit(channels, relaysFor, ranges, inherited, me, perWorker, perRelay)
    ensures AllFit(channels, relaysFor, map[], {}, me, perWorker, perRelay)
  {}

  lemma AddedPeerFits(r: Range, ch: Channel, relays: Option<seq<HostPort>>,
                      me: HostPort, perWorker: nat, perRelay: nat, inherited: bool, h: HostPort)
    requires RangeFits(r, ch, relays, me, perWorker, perRelay, inherited)
    ensures RangeFits(AddWorker(r, h), ch.(peers := ch.peers + {h}), relays, me, perWorker, perRelay, inherited)
  {
    InsertKeepsOrder(r.workers.value, h);
    if h in r.workers.value {
      assert h in Hosts(r.workers.value);
      assert Hosts(r.workers.value) + {h} == Hosts(r.workers.value);
    }
  }

  /** A proxied channel that is an exit by the new relays fits, with its range if it has one. */
  lemma ExitFits(was: Channel, relays: Option<seq<HostPort>>, range: Option<Range>,
                 me: HostPort, perWorker: nat, perRelay: nat, inherited: bool, exitNames: seq<HostPort>)
    requires ServiceFits(was, relays, range, me, perWorker, perRelay, inherited) && was.mode != Other
    requires StrictlySorted(exitNames) && me in exitNames
    ensures ServiceFits(if was.mode == Forward then Channel(Exit, {}) else was, Some(exitNames),
                        if range.Some? then Some(SetRelays(range.value, Some(exitNames))) else None,
                        me, perWorker, perRelay, range.Some? && (inherited || was.mode == Forward))
  {}

  lemma AddedWorkers(r: Range, h: HostPort)
    requires r.workers.Some? && StrictlySorted(r.workers.value)
    ensures AddWorker(r, h).workers == Some(Insert(r.workers.value, h))
    ensures Hosts(Insert(r.workers.value, h)) == Hosts(r.workers.value) + {h}
  {
    InsertKeepsOrder(r.workers.value, h);
    if h in r.workers.value {
      assert h in Hosts(r.workers.value);
      SortedListIsUnique(Insert(r.workers.value, h), r.workers.value);
    }
  }

  lemma RemovedWorkers(r: Range, h: HostPort)
    requires r.workers.Some? && StrictlySorted(r.workers.value)
    ensures RemoveWorker(r, h).workers == Some(Without(r.workers.value, h))
    ensures Hosts(Without(r.workers.value, h)) == Hosts(r.workers.value) - {h}
  {
    WithoutKeepsOrder(r.workers.value, h);
    if h !in r.workers.value {
      assert h !in Hosts(r.workers.value);
      SortedListIsUnique(Without(r.workers.value, h), r.workers.value);
    }
  }

  lemma RemovedPeerFits(r: Range, ch: Channel, relays: Option<seq<HostPort>>,
                        me: HostPort, perWorker: nat, perRelay: nat, inherited: bool, h: HostPort)
    requires RangeFits(r, ch, relays, me, perWorker, perRelay, inherited)
    ensures RangeFits(RemoveWorker(r, h), ch.(peers := ch.peers - {h}), relays, me, perWorker, perRelay, inherited)
  {
    WithoutKeepsOrder(r.workers.value, h);
    if h !in r.workers.value {
      assert h !in Hosts(r.workers.value);
      assert Hosts(r.workers.value) - {h} == Hosts(r.workers.value);
    }
  }

  /** An exit channel lists the host. */
  predicate ListedBy(channels: map<string, Channel>, s: string, h: HostPort) {
    s in channels && channels[s].mode == Exit && h in channels[s].peers
  }

  ghost predicate Lists(channels: map<string, Channel>, log: History) {
    forall s, h :: ListedBy(channels, s, h) <==> Listed(log, h, s)
  }

  ghost predicate AllAsked(queue: map<HostPort, ConnectInfo>, log: History) {
    forall h :: h in queue ==> Ad(h, queue[h].serviceName) in log
  }

  lemma AskedStays(queue: map<HostPort, ConnectInfo>, log: History, m: Mark)
    requires AllAsked(queue, log)
    ensures AllAsked(queue, log + [m])
  {}

  /** A channel is changed, or made, without any change to what exit channels list. */
  lemma ListsAnyway(channels: map<string, Channel>, log: History, s: string, ch: Channel)
    requires Lists(channels, log)
    requires if s in channels && channels[s].mode == Exit then ch == channels[s] else ch.mode == Exit ==> ch.peers == {}
    ensures Lists(channels[s := ch], log)
  {
    hide Listed;
  }

  lemma ListsAdvertised(channels: map<string, Channel>, log: History, s: string, h: HostPort)
    requires Lists(channels, log) && s in channels && channels[s].mode == Exit
    ensures Lists(channels[s := channels[s].(peers := channels[s].peers + {h})], log + [Ad(h, s)])
  {
    hide Listed;
    forall x, y ensures Listed(log + [Ad(h, s)], y, x) <==> (x == s && y == h) || Listed(log, y, x) {
      ListedNext(log, Ad(h, s), y, x);
    }
  }

  /** Advertising again lists nothing new. */
  lemma ListsFreshened(channels: map<string, Channel>, log: History, s: string, h: HostPort)
    requires Lists(channels, log) && s in channels && channels[s].mode == Exit && h in channels[s].peers
    ensures Lists(channels, log + [Ad(h, s)])
  {
    ListsAdvertised(channels, log, s, h);
    assert channels[s].peers + {h} == channels[s].peers;
    assert channels[s := channels[s].(peers := channels[s].peers + {h})] == channels;
  }

  lemma ListsTakenBack(channels: map<string, Channel>, log: History, s: string, h: HostPort, m: Mark)
    requires Lists(channels, log) && (m == Withdrawn(h, s) || m == Reaped(h, s))
    ensures Lists(if s in channels then channels[s := channels[s].(peers := channels[s].peers - {h})] else channels,
                  log + [m])
  {
    hide Listed;
    forall x, y ensures Listed(log + [m], y, x) <==> !(x == s && y == h) && Listed(log, y, x) {
      ListedNext(log, m, y, x);
    }
  }

  lemma ListsCleared(channels: map<string, Channel>, log: History, s: string, ch: Channel)
    requires Lists(channels, log) && ch.mode != Exit
    ensures Lists(channels[s := ch], log + [Cleared(s)])
  {
    hide Listed;
    forall x, y ensures Listed(log + [Cleared(s)], y, x) <==> x != s && Listed(log, y, x) {
      ListedNext(log, Cleared(s), y, x);
    }
  }

  lemma ListsOnRun(channels: map<string, Channel>, log: History, m: Mark)
    requires Lists(channels, log) && (m.PruneRun? || m.Snapshot?)
    ensures Lists(channels, log + [m])
  {
    hide Listed;
    forall x, y ensures Listed(log + [m], y, x) <==> Listed(log, y, x) {
      ListedNext(log, m, y, x);
    }
  }

  /** The mode of every proxied channel is the one the ring gives it. */
  ghost predicate RolesAgree(channels: map<string, Channel>, egress: Egress) {
    forall s :: s in channels && channels[s].mode != Other ==> (channels[s].mode == Exit <==> IsExit(egress, s))
  }

  lemma RolesAgreePut(channels: map<string, Channel>, egress: Egress, s: string, ch: Channel)
    requires RolesAgree(channels, egress)
    requires ch.mode == Other || (ch.mode == Exit <==> IsExit(egress, s)) || (s in channels && ch.mode == channels[s].mode)
    ensures RolesAgree(channels[s := ch], egress)
  {
    hide IsExit;
  }

  /** The sorted list of a set of hosts. */
  ghost function SortedList(hosts: set<HostPort>): (a: seq<HostPort>)
    ensures StrictlySorted(a) && Hosts(a) == hosts
  {
    if hosts == {} then []
    else
      var h :| h in hosts;
      InsertKeepsOrder(SortedList(hosts - {h}), h);
      Insert(SortedList(hosts - {h}), h)
  }

  lemma SortedListWithout(hosts: set<HostPort>, h: HostPort)
    ensures SortedList(hosts - {h}) == Without(SortedList(hosts), h)
  {
    WithoutKeepsOrder(SortedList(hosts), h);
    SortedListIsUnique(SortedList(hosts - {h}), Without(SortedList(hosts), h));
  }

  /** Sorts a set of hosts. */
  method SortHosts(hosts: set<HostPort>) returns (a: seq<HostPort>)
    ensures StrictlySorted(a) && Hosts(a) == hosts && a == SortedList(hosts)
  {
    a := [];
    var todo := hosts;
    while todo != {}
      invariant StrictlySorted(a) && Hosts(a) == hosts - todo && todo <= hosts
    {
      var h :| h in todo;
      InsertKeepsOrder(a, h);
      a := Insert(a, h);
      todo := todo - {h};
    }
    SortedListIsUnique(a, SortedList(hosts));
  }

  /** The two loops of `AffinityChange.compute`. */
  method PlanChange(affine: seq<HostPort>, connected: set<HostPort>,
                    peers: set<HostPort>, out: set<HostPort>, pruned: set<HostPort>)
    returns (isAffine: set<HostPort>, toConnect: set<HostPort>, toDisconnect: set<HostPort>)
    ensures isAffine == Hosts(affine)
    ensures toConnect == ToConnect(isAffine, connected, peers, out)
    ensures toDisconnect == ToDisconnect(isAffine, connected, pruned)
  {
    toConnect, toDisconnect, isAffine := {}, {}, {};
    for i := 0 to |affine|
      invariant isAffine == Hosts(affine[..i])
      invariant toConnect == ToConnect(isAffine, connected, peers, out)
    {
      var worker := affine[i];
      assert affine[..i + 1] == affine[..i] + [worker];
      isAffine := isAffine + {worker};
      if worker !in connected || !(worker in peers && worker in out) {
        toConnect := toConnect + {worker};
      }
    }
    assert affine[..|affine|] == affine;
    var todo := connected;
    while todo != {}
      invariant todo <= connected
      invariant toDisconnect == ToDisconnect(isAffine, connected - todo, pruned)
    {
      var worker :| worker in todo;
      if worker !in isAffine && worker !in pruned {
        toDisconnect := toDisconnect + {worker};
      }
      todo := todo - {worker};
    }
    assert connected - todo == connected;
  }

  /** `r'` is `r` after some workers were removed, in any order. */
  ghost predicate Shrunk(r: Range, r': Range, gone: set<HostPort>) {
    && Coherent(r')
    && r.workers.Some? && r'.workers.Some?
    && r' == r.(workers := r'.workers, pending := r'.pending)
    && Hosts(r'.workers.value) == Hosts(r.workers.value) - gone
  }

  /** `index'` is `index` after some entries of one level were dropped. */
  ghost predicate Dropped(index: Index, index': Index, s: string, gone: set<HostPort>) {
    forall x :: Level(index', x) == if x == s then Level(index, x) - gone else Level(index, x)
  }

  lemma ShrunkOneMore(r: Range, r': Range, gone: set<HostPort>, worker: HostPort)
    requires Shrunk(r, r', gone)
    ensures Shrunk(r, RemoveWorker(r', worker), gone + {worker})
  {
    WithoutKeepsOrder(r'.workers.value, worker);
    assert Hosts(r.workers.value) - (gone + {worker}) == Hosts(r'.workers.value) - {worker};
  }

  /** One loop of `audit`: candidates that are no peers are removed from the range and from one side of the index. */
  method RemoveStale(r: Range, servicePeers: Index, s: string, candidates: set<HostPort>, peers: set<HostPort>)
    returns (r': Range, servicePeers': Index, stale: nat)
    requires Coherent(r) && r.workers.Some?
    ensures Shrunk(r, r', candidates - peers)
    ensures Dropped(servicePeers, servicePeers', s, candidates - peers)
    ensures stale > 0 <==> candidates - peers != {}
  {
    r', servicePeers', stale := r, servicePeers, 0;
    var todo := candidates;
    while todo != {}
      invariant todo <= candidates
      invariant Shrunk(r, r', candidates - todo - peers)
      invariant Dropped(servicePeers, servicePeers', s, candidates - todo - peers)
      invariant stale > 0 <==> candidates - todo - peers != {}
    {
      var worker :| worker in todo;
      if worker !in peers {
        ghost var gone := candidates - todo - peers;
        assert candidates - (todo - {worker}) - peers == gone + {worker};
        ShrunkOneMore(r, r', gone, worker);
        r' := RemoveWorker(r', worker);
        servicePeers' := Drop(servicePeers', s, worker);
        stale := stale + 1;
      } else {
        assert candidates - (todo - {worker}) - peers == candidates - todo - peers;
      }
      todo := todo - {worker};
    }
  }

  lemma ShrunkIs(r: Range, r': Range, gone: set<HostPort>)
    requires Coherent(r) && Shrunk(r, r', gone)
    ensures r'.workers.value == WithoutAll(r.workers.value, gone) && CutOf(r') == CutOf(r)
  {
    WithoutAllKeepsOrder(r.workers.value, gone);
    SortedListIsUnique(r'.workers.value, WithoutAll(r.workers.value, gone));
  }

  /** An audit that takes the stale workers away leaves one audit less to settle in. */
  lemma AuditSettles(r: Range, r': Range, connected: set<HostPort>, peers: set<HostPort>,
                     out: set<HostPort>, pruned: set<HostPort>, n: nat, anyway: bool)
    requires Ready(r) && Ready(r') && Shrunk(r, r', Stale(Affine(r), connected, peers, out, pruned))
    ensures var stale := Stale(Affine(r), connected, peers, out, pruned);
      Settles(CutOf(r), r.workers.value, connected, peers, out, pruned, n + 1, anyway) <==>
      stale == {} || Settles(CutOf(r'), r'.workers.value, connected - stale, peers, out, pruned, n, anyway)
  {
    AffineIsAffineOf(r);
    ShrunkIs(r, r', Stale(Affine(r), connected, peers, out, pruned));
    hide Settles, Stale, Affine, AffineOf, Ready, Shrunk;
    SettlesNext(CutOf(r), r.workers.value, connected, peers, out, pruned, n, anyway);
  }

  lemma AuditEmpties(r: Range, r': Range, connected: set<HostPort>, peers: set<HostPort>,
                     out: set<HostPort>, pruned: set<HostPort>, n: nat)
    requires Ready(r) && Ready(r') && Shrunk(r, r', Stale(Affine(r), connected, peers, out, pruned))
    ensures var stale := Stale(Affine(r), connected, peers, out, pruned);
      Empties(CutOf(r), r.workers.value, connected, peers, out, pruned, n + 1) <==>
      if stale == {} then NothingToDo(Affine(r), connected, peers, out, pruned)
      else Empties(CutOf(r'), r'.workers.value, connected - stale, peers, out, pruned, n)
  {
    AffineIsAffineOf(r);
    ShrunkIs(r, r', Stale(Affine(r), connected, peers, out, pruned));
    hide Empties, Stale, Affine, AffineOf, Ready, Shrunk, NothingToDo;
    EmptiesNext(CutOf(r), r.workers.value, connected, peers, out, pruned, n);
  }

  lemma ShrunkTwice(r: Range, r': Range, r'': Range, a: set<HostPort>, b: set<HostPort>)
    requires Shrunk(r, r', a) && Shrunk(r', r'', b)
    ensures Shrunk(r, r'', a + b)
  {}

  lemma DroppedTwice(x: Index, x': Index, x'': Index, s: string, a: set<HostPort>, b: set<HostPort>)
    requires Dropped(x, x', s, a) && Dropped(x', x'', s, b)
    ensures Dropped(x, x'', s, a + b)
  {}

  /** Both loops of `audit`, over the plan's two lists. */
  method RemoveAllStale(r: Range, servicePeers: Index, s: string,
                        toConnect: set<HostPort>, toDisconnect: set<HostPort>, peers: set<HostPort>)
    returns (r'': Range, servicePeers'': Index, failed: bool)
    requires Coherent(r) && r.workers.Some?
    ensures var gone := (toConnect + toDisconnect) - peers;
      Shrunk(r, r'', gone) && Dropped(servicePeers, servicePeers'', s, gone) && (failed <==> gone != {})
  {
    hide Dropped, Coherent;
    var r', servicePeers', staleToConnect := RemoveStale(r, servicePeers, s, toConnect, peers);
    var staleToDisconnect;
    r'', servicePeers'', staleToDisconnect := RemoveStale(r', servicePeers', s, toDisconnect, peers);
    ShrunkTwice(r, r', r'', toConnect - peers, toDisconnect - peers);
    DroppedTwice(servicePeers, servicePeers', servicePeers'', s, toConnect - peers, toDisconnect - peers);
    assert (toConnect - peers) + (toDisconnect - peers) == (toConnect + toDisconnect) - peers;
    failed := staleToConnect > 0 || staleToDisconnect > 0;
  }

  lemma ReadyToShrink(r: Range)
    requires Ready(r)
    ensures Coherent(r) && r.workers.Some?
  {}

  /** Removing only workers that are no peers leaves a fitting range fitting. */
  lemma ShrunkFits(r: Range, r': Range, gone: set<HostPort>, ch: Channel, relays: Option<seq<HostPort>>,
                   me: HostPort, perWorker: nat, perRelay: nat, inherited: bool)
    requires RangeFits(r, ch, relays, me, perWorker, perRelay, inherited)
    requires Shrunk(r, r', gone) && gone !! ch.peers
    ensures RangeFits(r', ch, relays, me, perWorker, perRelay, inherited)
    ensures Ready(r) ==> Ready(r')
  {}

  /** What one audit round achieves. */
  lemma AuditRound(r: Range, r': Range, connected: set<HostPort>, connected': set<HostPort>,
                   peers: set<HostPort>, out: set<HostPort>, pruned: set<HostPort>)
    requires Ready(r) && Ready(r')
    requires var stale := Stale(Affine(r), connected, peers, out, pruned);
      Shrunk(r, r', stale) && connected' == connected - stale
    ensures var stale := Stale(Affine(r), connected, peers, out, pruned);
      && (stale != {} ==> |r'.workers.value| + |connected'| < |r.workers.value| + |connected|)
      && (stale == {} ==> r'.workers == r.workers && Affine(r') == Affine(r) && connected' == connected)
    ensures Hosts(r.workers.value) <= peers ==>
      Hosts(r'.workers.value) <= peers && Stale(Affine(r'), connected', peers, out, pruned) == {}
  {
    var stale := Stale(Affine(r), connected, peers, out, pruned);
    if stale != {} {
      FailedAuditShrinks(r, r', connected, peers, out, pruned);
    } else {
      SameLists(r, r');
    }
    if Hosts(r.workers.value) <= peers {
      OneFailedRoundSuffices(r, r', connected, peers, out, pruned);
    }
  }

  /** At most workers that are no peers are gone, from one service's range and connected peers. */
  ghost predicate OnlyGone(ranges: map<string, Range>, index: Index, ranges': map<string, Range>, index': Index,
                           s: string, peers: set<HostPort>) {
    && s in ranges && s in ranges' && ranges[s].workers.Some? && ranges'[s].workers.Some?
    && ranges' == ranges[s := ranges'[s]]
    && Hosts(ranges'[s].workers.value) <= Hosts(ranges[s].workers.value)
    && Hosts(ranges[s].workers.value) * peers <= Hosts(ranges'[s].workers.value)
    && Level(index', s) <= Level(index, s)
    && Level(index, s) * peers <= Level(index', s)
    && forall x :: x != s ==> Level(index', x) == Level(index, x)
  }

  lemma OnlyGoneTwice(ranges: map<string, Range>, index: Index, ranges': map<string, Range>, index': Index,
                      ranges'': map<string, Range>, index'': Index, s: string, peers: set<HostPort>)
    requires OnlyGone(ranges, index, ranges', index', s, peers) && OnlyGone(ranges', index', ranges'', index'', s, peers)
    ensures OnlyGone(ranges, index, ranges'', index'', s, peers)
  {}

  lemma OnlyGoneElsewhere(ranges: map<string, Range>, index: Index, ranges': map<string, Range>, index': Index,
                          s: string, peers: set<HostPort>)
    requires OnlyGone(ranges, index, ranges', index', s, peers)
    ensures s in ranges && s in ranges' && ranges[s].workers.Some? && ranges'[s].workers.Some?
    ensures ranges'.Keys == ranges.Keys
    ensures forall x :: x != s && x in ranges ==> ranges'[x] == ranges[x]
    ensures forall x :: x != s ==> Level(index', x) == Level(index, x)
    ensures Level(index', s) <= Level(index, s)
    ensures Hosts(ranges[s].workers.value) * peers <= Hosts(ranges'[s].workers.value) <= Hosts(ranges[s].workers.value)
  {}

  lemma OnlyGoneNone(ranges: map<string, Range>, index: Index, s: string, peers: set<HostPort>)
    requires s in ranges && ranges[s].workers.Some?
    ensures OnlyGone(ranges, index, ranges, index, s, peers)
  {}

  lemma OnlyGoneAudit(ranges: map<string, Range>, index: Index, r: Range, index': Index,
                      s: string, peers: set<HostPort>, gone: set<HostPort>)
    requires s in ranges && Shrunk(ranges[s], r, gone) && Dropped(index, index', s, gone) && gone !! peers
    ensures OnlyGone(ranges, index, ranges[s := r], index', s, peers)
  {}

  lemma OnlyGoneCompute(ranges: map<string, Range>, index: Index, s: string, peers: set<HostPort>)
    requires s in ranges && ranges[s].workers.Some?
    ensures OnlyGone(ranges, index, ranges[s := ComputeIfNeeded(ranges[s])], index, s, peers)
  {}

  ghost function Pairs(s: string, hosts: set<HostPort>): set<(string, HostPort)> {
    set h | h in hosts :: (s, h)
  }

  lemma DroppedIsSound(l: Links, servicePeers: Index, s: string, gone: set<HostPort>)
    requires Sound(l) && Dropped(l.servicePeers, servicePeers, s, gone)
    ensures Sound(l.(servicePeers := servicePeers, asked := l.asked - Pairs(s, gone)))
  {
    forall x, h ensures Has(servicePeers, x, h) <==> Has(l.servicePeers, x, h) && (x, h) !in Pairs(s, gone) {
      HasLevel(servicePeers, x, h);
      HasLevel(l.servicePeers, x, h);
    }
  }

  /**
    The audit forgets stale workers on one side of the index only, so it keeps the two indices
    transposed exactly when every connected worker of the service still was a peer of its channel.
   */
  lemma AuditKeepsTransposeIff(l: Links, servicePeers: Index, s: string, r: Range,
                               peers: set<HostPort>, out: set<HostPort>)
    requires Sound(l) && Transposed(l.servicePeers, l.peerServices) && Ready(r)
    requires Dropped(l.servicePeers, servicePeers, s,
                     Stale(Affine(r), Level(l.servicePeers, s), peers, out, l.toPrune.Keys))
    ensures Transposed(servicePeers, l.peerServices) <==> Level(l.servicePeers, s) <= peers
  {
    var connected := Level(l.servicePeers, s);
    var gone := Stale(Affine(r), connected, peers, out, l.toPrune.Keys);
    NonePruned(l, s);
    StaleAmongConnected(Affine(r), connected, peers, out, l.toPrune.Keys);
    forall x, h ensures Has(servicePeers, x, h) <==> Has(l.servicePeers, x, h) && !(x == s && h in gone) {
      HasLevel(servicePeers, x, h);
      HasLevel(l.servicePeers, x, h);
    }
    hide Stale, Dropped;
    if h :| h in connected && h !in peers {
      HasLevel(l.servicePeers, s, h);
      assert h in gone * connected;
      assert Has(l.peerServices, h, s) && !Has(servicePeers, s, h);
    } else {
      assert gone * connected == {};
    }
  }

  /** Exactly a host's pairs with some services are gone, from both indices. */
  ghost predicate Erased(servicePeers: Index, servicePeers': Index, peerServices: Index, peerServices': Index,
                         h: HostPort, services: set<string>) {
    && (forall x, y :: Has(servicePeers', x, y) <==> Has(servicePeers, x, y) && !(y == h && x in services))
    && (forall x, y :: Has(peerServices', x, y) <==> Has(peerServices, x, y) && !(x == h && y in services))
  }

  lemma ErasedNone(a: Index, b: Index, h: HostPort)
    ensures Erased(a, a, b, b, h, {})
  {}

  lemma ErasedTwice(a: Index, a': Index, a'': Index, b: Index, b': Index, b'': Index,
                    h: HostPort, services: set<string>, more: set<string>)
    requires Erased(a, a', b, b', h, services) && Erased(a', a'', b', b'', h, more)
    ensures Erased(a, a'', b, b'', h, services + more)
  {}

  // ----- the handler -----

  class ServiceDispatchHandler {
    const hostPort: HostPort
    const minPeersPerWorker: nat
    const minPeersPerRelay: nat
    var egress: Egress
    var partialAffinityEnabled: bool
    var channels: map<string, Channel>
    var relaysFor: map<string, seq<HostPort>>
    var partialRanges: map<string, Range>
    var connectedServicePeers: Index
    var connectedPeerServices: Index
    var peersToPrune: map<HostPort, Time>
    var peersToConnect: map<HostPort, ConnectInfo>
    var knownPeers: Index
    var peersToReap: Index
    var reaping: Option<Index>
    var pruning: Option<map<HostPort, Time>>
    var connecting: Option<map<HostPort, ConnectInfo>>
    // the peers themselves, as the transport reports them
    var topPeers: set<HostPort>
    var connectedOut: set<HostPort>
    var draining: map<HostPort, Drain>
    ghost var log: History
    ghost var inherited: set<string>
    ghost var ringStable: bool
    ghost var asked: set<(string, HostPort)>

    ghost function LinksNow(): Links
      reads this`connectedServicePeers, this`connectedPeerServices, this`peersToPrune, this`peersToConnect,
        this`pruning, this`asked
    {
      Links(connectedServicePeers, connectedPeerServices, peersToPrune, peersToConnect,
            if pruning.Some? then pruning.value.Keys else {}, asked)
    }

    ghost predicate ServicesOk()
      reads this`channels, this`relaysFor, this`partialRanges, this`inherited, this`partialAffinityEnabled
    {
      && AllFit(channels, relaysFor, partialRanges, inherited, hostPort, minPeersPerWorker, minPeersPerRelay)
      && (!partialAffinityEnabled ==> partialRanges == map[])
    }

    ghost predicate RingOk()
      reads this`egress
    {
      egress.whoami == hostPort
    }

    ghost predicate RolesOk()
      reads this`egress, this`channels, this`ringStable
    {
      RingOk() && (ringStable ==> RolesAgree(channels, egress))
    }

    /** What affinity changes depend on and keep. */
    ghost predicate PeersOk()
      reads this`connectedServicePeers, this`connectedPeerServices, this`peersToPrune, this`peersToConnect,
        this`pruning, this`asked, this`channels, this`relaysFor, this`partialRanges, this`inherited, this`partialAffinityEnabled
    {
      Sound(LinksNow()) && ServicesOk()
    }

    ghost predicate ReaperOk()
      reads this`knownPeers, this`peersToReap, this`reaping, this`log
    {
      Remembers(knownPeers, peersToReap, reaping, log) && Safe(log)
    }

    /** The peers of exit channels are the hosts that advertised and were not taken back. */
    ghost predicate ListOk()
      reads this`channels, this`log
    {
      Lists(channels, log)
    }

    /** Whatever is queued for a service, now or in a run in progress, has advertised it. */
    ghost predicate QueueOk()
      reads this`peersToConnect, this`connecting, this`log
    {
      AllAsked(peersToConnect, log) && (connecting.Some? ==> AllAsked(connecting.value, log))
    }

    /** No range outlived an exit channel: only exits have ranges, and each is about its channel's peers. */
    ghost predicate Calm()
      reads this`channels, this`partialRanges, this`inherited
    {
      inherited == {} && forall s :: s in partialRanges && s in channels ==> channels[s].mode == Exit
    }

    /** Kept by every step of every run. */
    ghost predicate Valid()
      reads this
    {
      PeersOk() && RolesOk() && ReaperOk() && ListOk() && QueueOk()
    }

    constructor (hostPort: HostPort, perWorker: nat, perRelay: nat, egress: Egress, partial: bool)
      requires egress.whoami == hostPort
      ensures Valid() && Calm() && channels == map[] && log == [] && ringStable
      ensures connectedServicePeers == map[] == connectedPeerServices && partialRanges == map[] && draining == map[]
      ensures reaping.None? && pruning.None? && connecting.None? && inherited == {}
      ensures minPeersPerWorker == perWorker && minPeersPerRelay == perRelay
      ensures partialAffinityEnabled == partial && this.egress == egress && this.hostPort == hostPort
    {
      this.hostPort, minPeersPerWorker, minPeersPerRelay := hostPort, perWorker, perRelay;
      this.egress, partialAffinityEnabled := egress, partial;
      channels, relaysFor, partialRanges := map[], map[], map[];
      connectedServicePeers, connectedPeerServices, peersToPrune, peersToConnect := map[], map[], map[], map[];
      knownPeers, peersToReap := map[], map[];
      reaping, pruning, connecting, asked := None, None, None, {};
      topPeers, connectedOut, draining := {}, {}, map[];
      log, inherited, ringStable := [], {}, true;
    }

    // ----- connecting and disconnecting one peer -----

    predicate NeedsDial(h: HostPort)
      reads this`connectedOut, this`draining
    {
      !(h in connectedOut && h !in draining)
    }

    /** Connected already, or about to be dialled. */
    predicate OutOrQueued(h: HostPort)
      reads this`connectedOut, this`peersToConnect
    {
      h in connectedOut || h in peersToConnect
    }

    /** On its way for a service: connected, or queued to be dialled for it, and neither to be pruned nor draining. */
    predicate OnTheWay(s: string, h: HostPort)
      reads this`connectedOut, this`peersToConnect, this`peersToPrune, this`draining
    {
      && h !in peersToPrune && h !in draining
      && (h in connectedOut || (h in peersToConnect && peersToConnect[h].serviceName == s))
    }

    /** Against the queue before: what is queued now was so then, or is a peer of the service, queued for it. */
    ghost predicate QueuedOnlyFor(s: string, before: map<HostPort, ConnectInfo>)
      reads this`peersToConnect, this`channels
    {
      forall h :: h in peersToConnect ==>
        || (h in before && before[h] == peersToConnect[h])
        || (peersToConnect[h].serviceName == s && s in channels && h in channels[s].peers)
    }

    method EnsurePeerConnected(s: string, h: HostPort, now: Time)
      modifies this`asked, this`connectedServicePeers, this`connectedPeerServices, this`peersToPrune,
        this`peersToConnect, this`draining
      ensures LinksNow() == Connect(old(LinksNow()), partialAffinityEnabled, old(NeedsDial(h)), s, h, now)
      ensures draining == if old(NeedsDial(h)) then old(draining) - {h} else old(draining)
      ensures h !in peersToPrune && (NeedsDial(h) ==> h in peersToConnect)
      ensures OutOrQueued(h) && forall x :: old(OutOrQueued(x)) ==> OutOrQueued(x)
      ensures !partialAffinityEnabled ==>
        connectedServicePeers == old(connectedServicePeers) && connectedPeerServices == old(connectedPeerServices)
      ensures if h in connectedOut && h !in old(draining) then peersToConnect == old(peersToConnect)
              else h in peersToConnect && peersToConnect[h] == ConnectInfo(now, s)
      ensures peersToPrune == old(peersToPrune) - {h}
      ensures forall x :: x != h && x in peersToConnect ==> x in old(peersToConnect) && old(peersToConnect)[x] == peersToConnect[x]
      ensures forall x :: x != h && x in old(peersToConnect) ==> x in peersToConnect
      ensures h !in draining && draining - {h} == old(draining) - {h}
      ensures OnTheWay(s, h) && forall x :: old(OnTheWay(s, x)) ==> OnTheWay(s, x)
    {
      hide Add;
      if partialAffinityEnabled {
        connectedServicePeers := Add(connectedServicePeers, s, h, now);
        connectedPeerServices := Add(connectedPeerServices, h, s, now);
        asked := asked + {(s, h)};
      }
      peersToPrune := peersToPrune - {h};
      if h in connectedOut && h !in draining {
        return;
      }
      draining := draining - {h};
      peersToConnect := peersToConnect[h := ConnectInfo(now, s)];
    }

    method EnsurePeerDisconnected(s: string, h: HostPort, now: Time)
      modifies this`asked, this`connectedServicePeers, this`connectedPeerServices, this`peersToPrune,
        this`peersToConnect
      ensures LinksNow() == Disconnect(old(LinksNow()), partialAffinityEnabled, s, h, now)
      ensures partialAffinityEnabled ==> !Has(connectedServicePeers, s, h) && !Has(connectedPeerServices, h, s)
      ensures Level(connectedPeerServices, h) == {} ==> h in peersToPrune && h !in peersToConnect
      ensures peersToPrune - {h} == old(peersToPrune) - {h}
      ensures forall x :: x in peersToConnect ==> x in old(peersToConnect) && old(peersToConnect)[x] == peersToConnect[x]
      ensures forall x :: x != h && x in old(peersToConnect) ==> x in peersToConnect
      ensures Level(connectedPeerServices, h) != {} ==> peersToConnect == old(peersToConnect) && peersToPrune == old(peersToPrune)
      ensures forall x, t :: x != h && old(OnTheWay(t, x)) ==> OnTheWay(t, x)
    {
      hide Delete, Has;
      if partialAffinityEnabled {
        connectedServicePeers := Delete(connectedServicePeers, s, h);
        connectedPeerServices := Delete(connectedPeerServices, h, s);
        asked := asked - {(s, h)};
      }
      if h !in connectedPeerServices || connectedPeerServices[h].Keys == {} {
        peersToConnect := peersToConnect - {h};
        peersToPrune := peersToPrune[h := now];
      }
    }

    // ----- partial ranges -----

    /**
      The range of a service, made on first use and brought up to date. It is valid exactly in exit mode; for any
      other channel it is stored all the same, and then the warning about it throws, for want of a slice to count.
     */
    method GetPartialRange(s: string) returns (threw: bool)
      requires ServicesOk() && partialAffinityEnabled && s in channels
      modifies this`partialRanges
      ensures ServicesOk() && s in partialRanges
      ensures partialRanges == old(partialRanges)[s := partialRanges[s]]
      ensures s in old(partialRanges) ==> partialRanges[s] == ComputeIfNeeded(old(partialRanges)[s])
      ensures partialRanges[s].workers.Some? && KnownWorkers(s) == old(KnownWorkers(s))
      ensures WorkersOf(s) == old(KnownList(s))
      ensures !partialRanges[s].pending
      ensures threw <==> channels[s].mode != Exit
      ensures !threw ==> Ready(partialRanges[s])
      ensures channels[s].mode == Exit && old(Calm()) ==> Calm()
    {
      hide AllFit, Coherent, Direct;
      FitsAt(s);
      var r;
      if s in partialRanges {
        r := partialRanges[s];
      } else {
        r := NewRange(s);
      }
      ExitRangeIsReady(channels[s], Get(relaysFor, s), r, hostPort, minPeersPerWorker, minPeersPerRelay, s in inherited);
      r := ComputeIfNeeded(r);
      AllFitPut(channels, relaysFor, partialRanges, inherited, channels, relaysFor, partialRanges[s := r], inherited,
                hostPort, minPeersPerWorker, minPeersPerRelay, s);
      partialRanges := partialRanges[s := r];
      threw := r.slice.None?;
    }

    /** A range for a service that has none, about the channel's peers and the service's relays. */
    method NewRange(s: string) returns (r: Range)
      requires s in channels
      requires ServiceFits(channels[s], Get(relaysFor, s), None, hostPort, minPeersPerWorker, minPeersPerRelay, s in inherited)
      ensures ServiceFits(channels[s], Get(relaysFor, s), Some(r), hostPort, minPeersPerWorker, minPeersPerRelay, s in inherited)
      ensures r.workers == Some(SortedList(channels[s].peers))
    {
      var workers := SortHosts(channels[s].peers);
      r := New(hostPort, minPeersPerWorker, minPeersPerRelay);
      r := SetRelays(r, if s in relaysFor then Some(relaysFor[s]) else None);
      r := SetWorkers(r, workers);
    }

    /** What one service's range may be replaced by. */
    method PutRange(s: string, r: Range)
      requires ServicesOk() && s in partialRanges
      requires RangeFits(r, channels[s], Get(relaysFor, s), hostPort, minPeersPerWorker, minPeersPerRelay, s in inherited)
      modifies this`partialRanges
      ensures ServicesOk() && partialRanges == old(partialRanges)[s := r]
    {
      partialRanges := partialRanges[s := r];
    }

    // ----- affinity -----

    /** What the plan of an affinity change for a service is made from. */
    ghost function Connected(s: string): set<HostPort>
      reads this`connectedServicePeers
    {
      Level(connectedServicePeers, s)
    }

    ghost function StaleNow(s: string): set<HostPort>
      requires s in channels && s in partialRanges && Ready(partialRanges[s])
      reads this
    {
      Stale(Affine(partialRanges[s]), Connected(s), channels[s].peers, connectedOut, peersToPrune.Keys)
    }

    /** An exit service under partial affinity whose range has been made. */
    ghost predicate Affinable(s: string)
      reads this
    {
      && Sound(LinksNow()) && ServicesOk() && partialAffinityEnabled
      && s in channels && channels[s].mode == Exit && s in partialRanges
      && Ready(partialRanges[s])
    }

    ghost predicate WorkersArePeers(s: string)
      requires s in channels && s in partialRanges && partialRanges[s].workers.Some?
      reads this
    {
      Hosts(partialRanges[s].workers.value) <= channels[s].peers
    }

    /** The range's list of workers; empty while there is no range. */
    ghost function WorkersOf(s: string): seq<HostPort>
      reads this`partialRanges
    {
      if s in partialRanges && partialRanges[s].workers.Some? then partialRanges[s].workers.value else []
    }

    ghost function RelaysOf(s: string): seq<HostPort>
      reads this`relaysFor
    {
      if s in relaysFor then relaysFor[s] else []
    }

    /** The workers the next affinity change goes by: the range's, or the peers a range would be made from. */
    ghost function KnownWorkers(s: string): set<HostPort>
      requires s in channels
      reads this`channels, this`partialRanges
    {
      if s in partialRanges then Hosts(WorkersOf(s)) else channels[s].peers
    }

    /** The service's relays as the ring gives them now. */
    ghost function RingRelays(s: string): seq<HostPort>
      reads this`egress
    {
      SortedList(ExitHosts(egress, s))
    }

    /** `n` audits settle the plan of a service, or leave its connected peers affine anyway. */
    ghost predicate SettlesIn(s: string, n: nat, anyway: bool)
      reads this
    {
      && s in channels && s in partialRanges
      && Settles(CutOf(partialRanges[s]), WorkersOf(s), Connected(s),
                 channels[s].peers, connectedOut, peersToPrune.Keys, n, anyway)
    }

    /** The next affinity change of the service settles, if its lists are these by then. */
    ghost predicate WillSettle(s: string, relays: seq<HostPort>, workers: seq<HostPort>, peers: set<HostPort>, anyway: bool)
      reads this`partialRanges, this`connectedServicePeers, this`connectedOut, this`peersToPrune
    {
      || s !in partialRanges
      || Settles(Cut(hostPort, OrOne(minPeersPerWorker), OrOne(minPeersPerRelay), relays), workers,
                 Connected(s), peers, connectedOut, peersToPrune.Keys, MAX_AFFINITY_AUDIT_ROUNDS, anyway)
    }

    /** `n` audits leave nothing to do. */
    ghost predicate EmptiesIn(s: string, n: nat)
      reads this
    {
      && s in channels && s in partialRanges
      && Empties(CutOf(partialRanges[s]), WorkersOf(s), Connected(s),
                 channels[s].peers, connectedOut, peersToPrune.Keys, n)
    }

    /** The next affinity change of the service ends with nothing to do, if its lists are these by then. */
    ghost predicate WillEmpty(s: string, relays: seq<HostPort>, workers: seq<HostPort>, peers: set<HostPort>)
      reads this`connectedServicePeers, this`connectedOut, this`peersToPrune
    {
      Empties(Cut(hostPort, OrOne(minPeersPerWorker), OrOne(minPeersPerRelay), relays), workers,
              Connected(s), peers, connectedOut, peersToPrune.Keys, MAX_AFFINITY_AUDIT_ROUNDS)
    }

    /** The list of workers the next affinity change goes by. */
    ghost function KnownList(s: string): seq<HostPort>
      requires s in channels
      reads this`channels, this`partialRanges
    {
      if s in partialRanges then WorkersOf(s) else SortedList(channels[s].peers)
    }

    /** It ends so after the host was taken from the channel and the range. */
    ghost predicate EmptiesRemoving(s: string, h: HostPort)
      reads this`channels, this`relaysFor, this`partialRanges, this`connectedServicePeers, this`connectedOut,
        this`peersToPrune
    {
      s in channels ==> WillEmpty(s, RelaysOf(s), Without(KnownList(s), h), channels[s].peers - {h})
    }

    /** After the next affinity change, if its lists are these by then, the connected peers are the affine ones. */
    ghost predicate WillConverge(s: string, relays: seq<HostPort>, workers: seq<HostPort>, peers: set<HostPort>)
      reads this`partialRanges, this`connectedServicePeers, this`connectedOut, this`peersToPrune
    {
      WillSettle(s, relays, workers, peers, true)
    }

    /** It is so whenever the workers are peers. */
    lemma OnPeersWillConverge(s: string, relays: seq<HostPort>, workers: seq<HostPort>, peers: set<HostPort>)
      requires StrictlySorted(workers) && Hosts(workers) <= peers
      ensures WillConverge(s, relays, workers, peers)
    {
      OnPeersSettles(Cut(hostPort, OrOne(minPeersPerWorker), OrOne(minPeersPerRelay), relays), workers,
                     Connected(s), peers, connectedOut, peersToPrune.Keys, MAX_AFFINITY_AUDIT_ROUNDS, true);
    }

    /** The service converges after the host was added to, or taken from, the channel and the range. */
    ghost predicate ConvergesAdding(s: string, h: HostPort)
      reads this`channels, this`relaysFor, this`partialRanges, this`connectedServicePeers, this`connectedOut,
        this`peersToPrune
    {
      s in channels ==> WillConverge(s, RelaysOf(s), Insert(WorkersOf(s), h), channels[s].peers + {h})
    }

    ghost predicate ConvergesRemoving(s: string, h: HostPort)
      reads this`channels, this`relaysFor, this`partialRanges, this`connectedServicePeers, this`connectedOut,
        this`peersToPrune
    {
      s in channels ==> WillConverge(s, RelaysOf(s), Without(WorkersOf(s), h), channels[s].peers - {h})
    }

    lemma ConvergesOnPeers(s: string, h: HostPort)
      requires ServicesOk() && s in channels
      ensures KnownWorkers(s) <= channels[s].peers + {h} ==> ConvergesAdding(s, h)
      ensures KnownWorkers(s) - {h} <= channels[s].peers ==> ConvergesRemoving(s, h)
    {
      hide Settles, Insert, Without, AllFit;
      if s in partialRanges {
        SortedWorkers(s);
        InsertKeepsOrder(WorkersOf(s), h);
        WithoutKeepsOrder(WorkersOf(s), h);
        if KnownWorkers(s) <= channels[s].peers + {h} {
          OnPeersWillConverge(s, RelaysOf(s), Insert(WorkersOf(s), h), channels[s].peers + {h});
        }
        if KnownWorkers(s) - {h} <= channels[s].peers {
          OnPeersWillConverge(s, RelaysOf(s), Without(WorkersOf(s), h), channels[s].peers - {h});
        }
      }
    }

    lemma AffineAreKnown(s: string)
      requires s in channels && s in partialRanges && Ready(partialRanges[s])
      ensures Affine(partialRanges[s]) <= KnownWorkers(s)
    {
      AffineAreWorkers(partialRanges[s]);
    }

    lemma SomeAreAffine(s: string)
      requires ServicesOk() && s in channels && s in partialRanges && Ready(partialRanges[s]) && KnownWorkers(s) != {}
      ensures Affine(partialRanges[s]) != {}
    {
      hide AllFit, Affine, AffineOf;
      FitsAt(s);
      AffineIsAffineOf(partialRanges[s]);
      AffineOfSome(CutOf(partialRanges[s]), WorkersOf(s));
    }

    /** While no range outlived an exit channel, every affinity change of an exit converges. */
    lemma CalmConverges()
      requires ServicesOk() && Calm()
      ensures forall s, h :: s in channels && channels[s].mode == Exit ==> ConvergesAdding(s, h) && ConvergesRemoving(s, h)
    {
      hide AllFit, ConvergesAdding, ConvergesRemoving, KnownWorkers;
      forall s, h | s in channels && channels[s].mode == Exit
        ensures ConvergesAdding(s, h) && ConvergesRemoving(s, h)
      {
        KnownArePeers(s);
        ConvergesOnPeers(s, h);
      }
    }

    lemma RelaysAreSorted(s: string)
      requires ServicesOk() && s in channels && channels[s].mode == Exit
      ensures StrictlySorted(RelaysOf(s)) && hostPort in RelaysOf(s)
      ensures s in partialRanges ==>
        && partialRanges[s].relays == Some(RelaysOf(s)) && partialRanges[s].relayHostPort == hostPort
        && partialRanges[s].minPeersPerWorker == OrOne(minPeersPerWorker)
        && partialRanges[s].minPeersPerRelay == OrOne(minPeersPerRelay)
    {
      FitsAt(s);
    }

    lemma SortedWorkers(s: string)
      requires ServicesOk() && s in channels && s in partialRanges
      ensures StrictlySorted(WorkersOf(s)) && partialRanges[s].workers == Some(WorkersOf(s))
    {
      FitsAt(s);
    }

    /** Removes what is stale in a plan. */
    method AuditAway(s: string, toConnect: set<HostPort>, toDisconnect: set<HostPort>) returns (failed: bool)
      requires Affinable(s)
      modifies this`partialRanges, this`asked, this`connectedServicePeers
      ensures Affinable(s)
      ensures var gone := (toConnect + toDisconnect) - channels[s].peers;
        && (failed <==> gone != {})
        && Shrunk(old(partialRanges[s]), partialRanges[s], gone)
        && Dropped(old(connectedServicePeers), connectedServicePeers, s, gone)
      ensures partialRanges == old(partialRanges)[s := partialRanges[s]]
    {
      hide AllFit, Sound, Dropped, Shrunk, Ready, RangeFits;
      FitsAt(s);
      var peers := channels[s].peers;
      ghost var gone := (toConnect + toDisconnect) - peers;
      ReadyToShrink(partialRanges[s]);
      var r, index;
      r, index, failed := RemoveAllStale(partialRanges[s], connectedServicePeers, s, toConnect, toDisconnect, peers);
      ShrunkFits(partialRanges[s], r, gone, channels[s], Get(relaysFor, s),
                 hostPort, minPeersPerWorker, minPeersPerRelay, s in inherited);
      DroppedIsSound(LinksNow(), index, s, gone);
      PutRange(s, r);
      connectedServicePeers, asked := index, asked - Pairs(s, gone);
    }

    /** Brings a service's range up to date and reads its slice. */
    method AffineWorkers(s: string) returns (affine: seq<HostPort>)
      requires Affinable(s)
      modifies this`partialRanges
      ensures Affinable(s)
      ensures partialRanges == old(partialRanges)[s := ComputeIfNeeded(old(partialRanges)[s])]
      ensures Hosts(affine) == Affine(partialRanges[s])
    {
      hide Sound;
      ExitRangeIsReady(channels[s], Get(relaysFor, s), partialRanges[s],
                       hostPort, minPeersPerWorker, minPeersPerRelay, s in inherited);
      ReadyIsValid(partialRanges[s]);
      var r := ComputeIfNeeded(partialRanges[s]);
      PutRange(s, r);
      affine := r.slice.value.affineWorkers;
    }

    /** The range's workers and the service's connected peers, taken together. */
    ghost function Measure(s: string): nat
      requires s in partialRanges && partialRanges[s].workers.Some?
      reads this
    {
      |partialRanges[s].workers.value| + |Connected(s)|
    }

    // ----- affinity changes of one service -----

    /** The service's connected peers are exactly the workers of its slice. */
    ghost predicate Converged(s: string)
      reads this`partialRanges, this`connectedServicePeers
    {
      && s in partialRanges
      && Ready(partialRanges[s])
      && Connected(s) == Affine(partialRanges[s])
    }

    /**
      Brings the connected peers of a service in line with its partial range. Outside exit mode there is no
      result, as getting the range throws; in exit mode the peers converge whenever the plan passed its audit
      or was empty, which can be told beforehand, and is so whenever the range's workers are peers of the channel.
     */
    method EnsurePartialConnections(s: string, now: Time) returns (result: Option<ChangeResult>)
      requires PeersOk() && partialAffinityEnabled && s in channels
      modifies this`partialRanges, this`asked, this`connectedServicePeers, this`connectedPeerServices,
        this`peersToPrune, this`peersToConnect, this`draining
      ensures PeersOk()
      ensures result.Some? <==> channels[s].mode == Exit
      ensures result.None? ==> LinksNow() == old(LinksNow()) && KnownWorkers(s) == old(KnownWorkers(s))
      ensures result.Some? ==>
        && (result.value.Settled() <==> old(WillSettle(s, RelaysOf(s), WorkersOf(s), channels[s].peers, false)))
        && (Converged(s) <==> old(WillConverge(s, RelaysOf(s), WorkersOf(s), channels[s].peers)))
        && (result.value.noop <==> old(WillEmpty(s, RelaysOf(s), KnownList(s), channels[s].peers)))
      ensures result.Some? && result.value.Settled() ==>
        && Converged(s) && result.value.isAffine == Connected(s)
        && forall w :: w in Connected(s) ==> OutOrQueued(w)
      ensures result.Some? && (!result.value.Settled() || result.value.noop) ==> Connected(s) <= old(Connected(s))
      ensures forall w :: w !in channels[s].peers ==> Level(connectedPeerServices, w) == Level(old(connectedPeerServices), w)
      ensures result.Some? ==> s in partialRanges && Ready(partialRanges[s])
      ensures old(KnownWorkers(s)) * channels[s].peers <= KnownWorkers(s) <= old(KnownWorkers(s))
      ensures result.Some? && old(KnownWorkers(s)) <= channels[s].peers ==> result.value.audited
      ensures result.Some? && s !in inherited ==> result.value.audited
      ensures draining.Keys <= old(draining.Keys)
      ensures partialRanges.Keys == old(partialRanges).Keys + {s}
      ensures forall x :: x != s ==> Connected(x) == old(Connected(x))
      ensures forall x :: x != s && x in old(partialRanges) ==> partialRanges[x] == old(partialRanges[x])
      ensures channels[s].mode == Exit && old(Calm()) ==> Calm()
      ensures result.None? ==> draining == old(draining)
      ensures result.Some? ==> forall w :: w in Connected(s) && w !in old(Connected(s)) ==> OnTheWay(s, w)
      ensures QueuedOnlyFor(s, old(peersToConnect))
      ensures forall w :: w !in channels[s].peers ==> Get(draining, w) == Get(old(draining), w)
    {
      hide Calm, ServicesOk, RolesOk, ReaperOk, ListOk, AllFit, Sound, RolesAgree, Remembers, Safe, Affine, Coherent,
        Settles, Ready;
      var threw := GetPartialRange(s);
      if threw {
        return None;
      }
      CutFits(s);
      if s !in inherited {
        ExitWorkersArePeers(s);
      }
      if s !in old(partialRanges) || Hosts(WorkersOf(s)) <= channels[s].peers {
        OnPeersSettles(CutOf(partialRanges[s]), WorkersOf(s), Connected(s), channels[s].peers,
                       connectedOut, peersToPrune.Keys, MAX_AFFINITY_AUDIT_ROUNDS, true);
        OnPeersSettles(CutOf(partialRanges[s]), WorkersOf(s), Connected(s), channels[s].peers,
                       connectedOut, peersToPrune.Keys, MAX_AFFINITY_AUDIT_ROUNDS, false);
      }
      var change := ChangeAffinity(s, now);
      result := Some(change);
    }

    lemma CutFits(s: string)
      requires ServicesOk() && s in channels && s in partialRanges && Ready(partialRanges[s])
      ensures CutOf(partialRanges[s]) == Cut(hostPort, OrOne(minPeersPerWorker), OrOne(minPeersPerRelay), RelaysOf(s))
      ensures StrictlySorted(WorkersOf(s))
    {
      FitsAt(s);
    }

    method ChangeAffinity(s: string, now: Time) returns (result: ChangeResult)
      requires Affinable(s)
      modifies this`partialRanges, this`asked, this`connectedServicePeers, this`connectedPeerServices,
        this`peersToPrune, this`peersToConnect, this`draining
      ensures Affinable(s)
      ensures result.Settled() <==> old(SettlesIn(s, MAX_AFFINITY_AUDIT_ROUNDS, false))
      ensures Converged(s) <==> old(SettlesIn(s, MAX_AFFINITY_AUDIT_ROUNDS, true))
      ensures result.noop <==> old(EmptiesIn(s, MAX_AFFINITY_AUDIT_ROUNDS))
      ensures result.Settled() ==> Converged(s) && result.isAffine == Connected(s)
      ensures result.Settled() ==> forall w :: w in result.isAffine ==> OutOrQueued(w)
      ensures !result.Settled() || result.noop ==> Connected(s) <= old(Connected(s))
      ensures forall w :: w !in channels[s].peers ==> Level(connectedPeerServices, w) == Level(old(connectedPeerServices), w)
      ensures old(Hosts(WorkersOf(s))) * channels[s].peers <= Hosts(WorkersOf(s)) <= old(Hosts(WorkersOf(s)))
      ensures old(WorkersArePeers(s)) ==> result.audited
      ensures draining.Keys <= old(draining.Keys)
      ensures partialRanges.Keys == old(partialRanges).Keys
      ensures forall x :: x != s ==> Connected(x) == old(Connected(x))
      ensures forall x :: x != s && x in old(partialRanges) ==> partialRanges[x] == old(partialRanges[x])
      ensures old(Calm()) ==> Calm()
      ensures result.Settled() ==> forall w :: w in Connected(s) ==>
        OnTheWay(s, w) || (w in old(Connected(s)) && w in connectedOut)
      ensures QueuedOnlyFor(s, old(peersToConnect))
      ensures forall w :: w !in channels[s].peers ==> Get(draining, w) == Get(old(draining), w)
    {
      hide AllFit, Sound, Coherent, Affine, ToConnect, ToDisconnect, OnlyGone, Settles, Empties;
      ghost var ranges, index := partialRanges, connectedServicePeers;
      var change := new AffinityChange(this, s, now);
      OnlyGoneElsewhere(ranges, index, partialRanges, connectedServicePeers, s, channels[s].peers);
      if !change.noop {
        change.Implement();
      } else {
        NonePruned(LinksNow(), s);
        EmptyPlanConverged(change.isAffine, Connected(s), channels[s].peers, connectedOut, peersToPrune.Keys);
        EmptyPlanIsOut(change.isAffine, Connected(s), channels[s].peers, connectedOut);
      }
      result := ChangeResult(change.noop, change.audited, change.isAffine);
    }

    lemma FitsAt(s: string)
      requires ServicesOk() && s in channels
      ensures ServiceFits(channels[s], Get(relaysFor, s), Get(partialRanges, s),
                          hostPort, minPeersPerWorker, minPeersPerRelay, s in inherited)
      ensures s in inherited ==> s in partialRanges
    {}

    lemma UnknownService(s: string)
      requires ServicesOk() && s !in channels
      ensures s !in relaysFor && s !in partialRanges && s !in inherited
    {}

    /** A range made in exit mode is about the channel's peers. */
    lemma KnownArePeers(s: string)
      requires ServicesOk() && s in channels && channels[s].mode == Exit && s !in inherited
      ensures KnownWorkers(s) == channels[s].peers
    {
      FitsAt(s);
    }

    lemma ExitWorkersArePeers(s: string)
      requires ServicesOk() && s in channels && channels[s].mode == Exit && s in partialRanges && s !in inherited
      ensures partialRanges[s].workers.Some? && WorkersArePeers(s)
    {
      assert ServiceFits(channels[s], Get(relaysFor, s), Get(partialRanges, s),
                         hostPort, minPeersPerWorker, minPeersPerRelay, s in inherited);
    }

    // ----- advertisements -----

    /** An accepted advertisement is remembered in the young generation. */
    method MarkAdvertised(s: string, h: HostPort, now: Time)
      requires ReaperOk()
      modifies this`knownPeers, this`peersToReap, this`log
      ensures ReaperOk() && log == old(log) + [Ad(h, s)]
      ensures Has(knownPeers, h, s) && !Has(peersToReap, h, s)
    {
      AdRemembers(knownPeers, peersToReap, reaping, log, h, s, now);
      peersToReap := Delete(peersToReap, h, s);
      knownPeers := Add(knownPeers, h, s, now);
      log := log + [Ad(h, s)];
    }

    lemma QueueStays(before: map<HostPort, ConnectInfo>, run: Option<map<HostPort, ConnectInfo>>, was: History)
      requires AllAsked(before, was) && (run.Some? ==> AllAsked(run.value, was))
      requires |was| <= |log| && log[..|was|] == was && connecting == run
      requires forall x :: x in peersToConnect ==> x in before && before[x] == peersToConnect[x]
      ensures QueueOk()
    {
      forall m | m in was ensures m in log {
        var i :| 0 <= i < |was| && was[i] == m;
        assert log[i] == m;
      }
    }

    /** What a service's affinity change or dial queues is listed, so it was advertised. */
    lemma QueueGrows(s: string, before: map<HostPort, ConnectInfo>, run: Option<map<HostPort, ConnectInfo>>, was: History)
      requires AllAsked(before, was) && (run.Some? ==> AllAsked(run.value, was))
      requires |was| <= |log| && log[..|was|] == was && connecting == run
      requires QueuedOnlyFor(s, before) && ListOk() && s in channels && channels[s].mode == Exit
      ensures QueueOk()
    {
      forall m | m in was ensures m in log {
        var i :| 0 <= i < |was| && was[i] == m;
        assert log[i] == m;
      }
      forall h | h in channels[s].peers ensures Ad(h, s) in log {
        assert ListedBy(channels, s, h);
        ListedMeans(log, h, s);
      }
    }

    /** A mark that does not concern the reaper. */
    method MarkOther(ghost m: Mark)
      requires ReaperOk() && (m.Withdrawn? || m.Cleared? || m.PruneRun?)
      modifies this`log
      ensures ReaperOk() && log == old(log) + [m]
    {
      hide Remembers, Safe;
      OtherMarkRemembers(knownPeers, peersToReap, reaping, log, m);
      log := log + [m];
    }

    /** Adds a peer to a channel and, where there is one, to the channel's range. */
    method AddChannelPeer(s: string, h: HostPort)
      requires ServicesOk() && RolesOk() && s in channels
      modifies this`channels, this`topPeers, this`partialRanges
      ensures ServicesOk() && RolesOk()
      ensures channels == old(channels)[s := old(channels)[s].(peers := old(channels)[s].peers + {h})]
      ensures topPeers == old(topPeers) + {h}
      ensures partialRanges ==
        if s in old(partialRanges) then old(partialRanges)[s := AddWorker(old(partialRanges)[s], h)] else old(partialRanges)
      ensures s in partialRanges ==> WorkersOf(s) == Insert(old(WorkersOf(s)), h)
      ensures KnownWorkers(s) == old(KnownWorkers(s)) + {h}
      ensures old(Calm()) ==> Calm()
    {
      hide AllFit, RolesAgree, IsExit, AddWorker, Insert;
      FitsAt(s);
      var ch := channels[s].(peers := channels[s].peers + {h});
      if ringStable {
        RolesAgreePut(channels, egress, s, ch);
      }
      var ranges := partialRanges;
      if s in partialRanges {
        AddedPeerFits(partialRanges[s], channels[s], Get(relaysFor, s),
                      hostPort, minPeersPerWorker, minPeersPerRelay, s in inherited, h);
        ranges := ranges[s := AddWorker(partialRanges[s], h)];
        AddedWorkers(partialRanges[s], h);
      }
      AllFitPut(channels, relaysFor, partialRanges, inherited, channels[s := ch], relaysFor, ranges, inherited,
                hostPort, minPeersPerWorker, minPeersPerRelay, s);
      partialRanges := ranges;
      channels := channels[s := ch];
      topPeers := topPeers + {h};
    }

    /** Removes a peer from a channel and, where there is one, from the channel's range. */
    method RemoveChannelPeer(s: string, h: HostPort)
      requires ServicesOk() && RolesOk() && s in channels
      modifies this`channels, this`partialRanges
      ensures ServicesOk() && RolesOk()
      ensures channels == old(channels)[s := old(channels)[s].(peers := old(channels)[s].peers - {h})]
      ensures partialRanges ==
        if s in old(partialRanges) then old(partialRanges)[s := RemoveWorker(old(partialRanges)[s], h)] else old(partialRanges)
      ensures s in partialRanges ==> WorkersOf(s) == Without(old(WorkersOf(s)), h)
      ensures KnownList(s) == Without(old(KnownList(s)), h)
      ensures KnownWorkers(s) == old(KnownWorkers(s)) - {h}
      ensures old(Calm()) ==> Calm()
    {
      hide AllFit, RolesAgree, IsExit, RemoveWorker, Without;
      FitsAt(s);
      var ch := channels[s].(peers := channels[s].peers - {h});
      if ringStable {
        RolesAgreePut(channels, egress, s, ch);
      }
      SortedListWithout(channels[s].peers, h);
      var ranges := partialRanges;
      if s in partialRanges {
        RemovedPeerFits(partialRanges[s], channels[s], Get(relaysFor, s),
                        hostPort, minPeersPerWorker, minPeersPerRelay, s in inherited, h);
        ranges := ranges[s := RemoveWorker(partialRanges[s], h)];
        RemovedWorkers(partialRanges[s], h);
      }
      AllFitPut(channels, relaysFor, partialRanges, inherited, channels[s := ch], relaysFor, ranges, inherited,
                hostPort, minPeersPerWorker, minPeersPerRelay, s);
      partialRanges := ranges;
      channels := channels[s := ch];
    }

    /** Records or erases one pair, as a peer turns out affine or not. */
    method RecordAffinity(s: string, h: HostPort, now: Time, affine: bool)
      requires Sound(LinksNow())
      modifies this`asked, this`connectedServicePeers, this`connectedPeerServices, this`peersToPrune
      ensures Sound(LinksNow())
      ensures LinksNow() == if affine then Record(old(LinksNow()), s, h, now) else Erase(old(LinksNow()), s, h)
      ensures Connected(s) == old(Connected(s)) - {h} + if affine then {h} else {}
      ensures !affine ==> Level(connectedPeerServices, h) == Level(old(connectedPeerServices), h) - {s}
      ensures forall x :: x != s ==> Connected(x) == old(Connected(x))
    {
      hide Sound, Add, Delete, Level;
      RecordLevels(LinksNow(), s, h, now);
      RecordIsSound(LinksNow(), s, h, now);
      EraseIsSound(LinksNow(), s, h);
      if affine {
        connectedServicePeers := Add(connectedServicePeers, s, h, now);
        connectedPeerServices := Add(connectedPeerServices, h, s, now);
        peersToPrune := peersToPrune - {h};
        asked := asked + {(s, h)};
      } else {
        connectedServicePeers := Delete(connectedServicePeers, s, h);
        connectedPeerServices := Delete(connectedPeerServices, h, s);
        asked := asked - {(s, h)};
      }
    }

    /**
      A peer's first advertisement: the service converges again, with the new worker, whenever the change
      settles; so it does when the range's workers are peers. Otherwise peers are at most lost.
     */
    method AddNewPartialPeer(s: string, h: HostPort, now: Time)
      requires Valid() && partialAffinityEnabled && s in channels && channels[s].mode == Exit && h !in channels[s].peers
      modifies this`channels, this`topPeers, this`partialRanges, this`asked, this`connectedServicePeers,
        this`connectedPeerServices, this`peersToPrune, this`peersToConnect, this`draining, this`knownPeers,
        this`peersToReap, this`log
      ensures Valid() && log == old(log) + [Ad(h, s)] && Has(knownPeers, h, s)
      ensures channels == old(channels)[s := old(channels)[s].(peers := old(channels)[s].peers + {h})]
      ensures Converged(s) <==> old(ConvergesAdding(s, h))
      ensures !old(ConvergesAdding(s, h)) ==> Connected(s) <= old(Connected(s))
      ensures s !in inherited || old(KnownWorkers(s) <= channels[s].peers + {h}) ==> Converged(s)
      ensures s in partialRanges && Ready(partialRanges[s]) && h in KnownWorkers(s) && h in topPeers
      ensures KnownWorkers(s) <= old(KnownWorkers(s)) + {h}
      ensures draining.Keys <= old(draining.Keys)
      ensures forall x :: x != s ==> Connected(x) == old(Connected(x))
      ensures old(topPeers) <= topPeers
      ensures old(Calm()) ==> Calm()
      ensures h in Connected(s) && h !in old(Connected(s)) ==> OnTheWay(s, h)
    {
      hide OnTheWay, AllAsked, QueuedOnlyFor, Calm, LinksNow, Converged, Connected, KnownWorkers, ConvergesAdding,
        ServicesOk, RolesOk, ReaperOk, Lists, AllFit, Sound, RolesAgree, Remembers, Safe, Affine, Ready, Level, Has,
        Settles, Insert;
      ConvergesOnPeers(s, h);
      ListsAdvertised(channels, log, s, h);
      MarkAdvertised(s, h, now);
      AddAndReconcile(s, h, now);
      QueueGrows(s, old(peersToConnect), connecting, old(log));
    }

    method AddAndReconcile(s: string, h: HostPort, now: Time)
      requires PeersOk() && RolesOk() && partialAffinityEnabled && s in channels
      modifies this`channels, this`topPeers, this`partialRanges, this`asked, this`connectedServicePeers,
        this`connectedPeerServices, this`peersToPrune, this`peersToConnect, this`draining
      ensures PeersOk() && RolesOk()
      ensures channels == old(channels)[s := old(channels)[s].(peers := old(channels)[s].peers + {h})]
      ensures channels[s].mode == Exit ==>
        && (Converged(s) <==> old(ConvergesAdding(s, h))) && (s !in inherited ==> Converged(s))
        && (!old(ConvergesAdding(s, h)) ==> Connected(s) <= old(Connected(s)))
        && s in partialRanges && Ready(partialRanges[s])
      ensures h in topPeers && h in KnownWorkers(s) && KnownWorkers(s) <= old(KnownWorkers(s)) + {h}
      ensures draining.Keys <= old(draining.Keys)
      ensures forall x :: x != s ==> Connected(x) == old(Connected(x))
      ensures old(topPeers) <= topPeers
      ensures channels[s].mode == Exit && old(Calm()) ==> Calm()
      ensures channels[s].mode == Exit && h in Connected(s) && h !in old(Connected(s)) ==> OnTheWay(s, h)
      ensures QueuedOnlyFor(s, old(peersToConnect))
    {
      hide Calm, Connected, KnownWorkers, Converged, AllFit, Sound, RolesAgree, Affine, Ready, AddWorker, Level,
        Settles, Insert;
      AddChannelPeer(s, h);
      var _ := Reconcile(s, h, now, true);
    }

    /**
      Brings the service in line; if that took no work, the causing host's own entries are set to what
      the slice says of it, or erased when it went away.
     */
    method Reconcile(s: string, h: HostPort, now: Time, stays: bool) returns (threw: bool)
      requires PeersOk() && partialAffinityEnabled && s in channels && (!stays ==> h !in KnownWorkers(s))
      modifies this`partialRanges, this`asked, this`connectedServicePeers, this`connectedPeerServices,
        this`peersToPrune, this`peersToConnect, this`draining
      ensures PeersOk()
      ensures channels[s].mode == Exit ==>
        && (Converged(s) <==> old(WillConverge(s, RelaysOf(s), WorkersOf(s), channels[s].peers)))
        && (s !in inherited ==> Converged(s))
        && (!old(WillConverge(s, RelaysOf(s), WorkersOf(s), channels[s].peers)) ==> Connected(s) <= old(Connected(s)))
        && s in partialRanges && Ready(partialRanges[s])
      ensures channels[s].mode != Exit ==> LinksNow() == old(LinksNow()) && KnownWorkers(s) == old(KnownWorkers(s))
      ensures old(KnownWorkers(s)) * channels[s].peers <= KnownWorkers(s) <= old(KnownWorkers(s))
      ensures draining.Keys <= old(draining.Keys)
      ensures partialRanges.Keys == old(partialRanges).Keys + {s}
      ensures forall x :: x != s ==> Connected(x) == old(Connected(x))
      ensures channels[s].mode == Exit && h !in channels[s].peers && !stays ==>
        && Level(connectedPeerServices, h) == Level(old(connectedPeerServices), h) -
           (if old(WillEmpty(s, RelaysOf(s), KnownList(s), channels[s].peers)) then {s} else {})
        && (old(WillEmpty(s, RelaysOf(s), KnownList(s), channels[s].peers)) ==> Connected(s) <= old(Connected(s)))
      ensures threw <==> channels[s].mode != Exit
      ensures channels[s].mode == Exit && old(Calm()) ==> Calm()
      ensures threw ==> draining == old(draining)
      ensures channels[s].mode == Exit ==> forall w :: w in Connected(s) && w !in old(Connected(s)) ==> OnTheWay(s, w)
      ensures QueuedOnlyFor(s, old(peersToConnect))
      ensures forall w :: w !in channels[s].peers ==> Get(draining, w) == Get(old(draining), w)
      ensures !stays && channels[s].mode == Exit && Converged(s) ==> h !in Connected(s)
    {
      hide OnTheWay, QueuedOnlyFor, Connected, Calm, WillEmpty, WillConverge, KnownList, LinksNow, Level, ServicesOk,
        RolesOk, ReaperOk, ListOk, AllFit, Sound, RolesAgree, Remembers, Safe, Affine, Coherent, Record, Erase,
        Settles;
      var result := EnsurePartialConnections(s, now);
      threw := result.None?;
      if !threw && result.value.noop {
        AffineAreWorkers(partialRanges[s]);
        RecordAffinity(s, h, now, stays && h in result.value.isAffine);
      }
      if !threw {
        AffineAreKnown(s);
      }
    }

    /** A known peer advertises again: it ends up connected if and only if its service's slice holds it. */
    method FreshenPartialPeer(s: string, h: HostPort, now: Time)
      requires Valid() && partialAffinityEnabled && s in channels && channels[s].mode == Exit && h in channels[s].peers
      modifies this`partialRanges, this`asked, this`connectedServicePeers, this`connectedPeerServices,
        this`peersToPrune, this`peersToConnect, this`draining, this`knownPeers, this`peersToReap, this`log
      ensures Valid() && log == old(log) + [Ad(h, s)] && Has(knownPeers, h, s)
      ensures s in partialRanges && Ready(partialRanges[s])
      ensures Connected(s) == old(Connected(s)) - {h} + if h in Affine(partialRanges[s]) then {h} else {}
      ensures draining.Keys <= old(draining.Keys)
      ensures forall x :: x != s ==> Connected(x) == old(Connected(x))
      ensures old(Calm()) ==> Calm()
      ensures h in Connected(s) ==> OnTheWay(s, h)
      ensures h !in Connected(s) ==> (Level(connectedPeerServices, h) == {} ==> h in peersToPrune && h !in peersToConnect)
    {
      hide OnTheWay, Calm, AllAsked, QueuedOnlyFor, Connected, LinksNow, Converged, ServicesOk, RolesOk, ReaperOk,
        Lists, AllFit, Sound, RolesAgree, Remembers, Safe, Ready, Record, Erase, Affine, Has, Level;
      ListsFreshened(channels, log, s, h);
      var _ := Renew(s, h, now);
      SettleBySlice(s, h, now);
      QueueGrows(s, old(peersToConnect), connecting, old(log));
    }

    method SettleBySlice(s: string, h: HostPort, now: Time)
      requires PeersOk() && partialAffinityEnabled && s in channels && channels[s].mode == Exit
      modifies this`partialRanges, this`asked, this`connectedServicePeers, this`connectedPeerServices,
        this`peersToPrune, this`peersToConnect, this`draining
      ensures PeersOk()
      ensures s in partialRanges && Ready(partialRanges[s])
      ensures Connected(s) == old(Connected(s)) - {h} + if h in Affine(partialRanges[s]) then {h} else {}
      ensures draining.Keys <= old(draining.Keys)
      ensures forall x :: x != s ==> Connected(x) == old(Connected(x))
      ensures old(Calm()) ==> Calm()
      ensures h in Affine(partialRanges[s]) ==> OnTheWay(s, h)
      ensures h in channels[s].peers ==> QueuedOnlyFor(s, old(peersToConnect))
      ensures h !in Affine(partialRanges[s]) ==>
        (Level(connectedPeerServices, h) == {} ==> h in peersToPrune && h !in peersToConnect)
    {
      hide ServicesOk, LinksNow, AllFit, Sound, Ready, Affine, Level;
      var should := ShouldConnect(s, h);
      Settle(s, h, now, should);
    }

    /** Renews the timestamps of a peer that advertises again. */
    method Renew(s: string, h: HostPort, now: Time) returns (connected: bool)
      requires Sound(LinksNow()) && ReaperOk()
      modifies this`asked, this`connectedServicePeers, this`connectedPeerServices, this`peersToPrune, this`knownPeers,
        this`peersToReap, this`log
      ensures Sound(LinksNow()) && ReaperOk()
      ensures connected == old(Has(connectedServicePeers, s, h))
      ensures LinksNow() == if connected then Record(old(LinksNow()), s, h, now) else Erase(old(LinksNow()), s, h)
      ensures forall x :: Connected(x) == old(Connected(x))
      ensures log == old(log) + [Ad(h, s)] && Has(knownPeers, h, s) && !Has(peersToReap, h, s)
    {
      hide Sound, Remembers, Safe, Record, Erase, Add, Delete;
      HasLevel(connectedServicePeers, s, h);
      connected := Has(connectedServicePeers, s, h);
      RecordAffinity(s, h, now, connected);
      MarkAdvertised(s, h, now);
    }

    /** The audit of a refreshed peer: what the slice says overrides what is recorded. */
    method ShouldConnect(s: string, h: HostPort) returns (should: bool)
      requires ServicesOk() && partialAffinityEnabled && s in channels && channels[s].mode == Exit
      modifies this`partialRanges
      ensures ServicesOk() && s in partialRanges
      ensures Ready(partialRanges[s]) && (should <==> h in Affine(partialRanges[s]))
      ensures partialRanges == old(partialRanges)[s := partialRanges[s]]
      ensures old(Calm()) ==> Calm()
    {
      hide AllFit, Coherent;
      var _ := GetPartialRange(s);
      ReadyIsValid(partialRanges[s]);
      should := h in partialRanges[s].slice.value.affineWorkers;
    }

    /** Connects or disconnects one peer. */
    method Settle(s: string, h: HostPort, now: Time, connect: bool)
      requires Sound(LinksNow()) && partialAffinityEnabled
      modifies this`asked, this`connectedServicePeers, this`connectedPeerServices, this`peersToPrune,
        this`peersToConnect, this`draining
      ensures Sound(LinksNow())
      ensures Connected(s) == old(Connected(s)) - {h} + if connect then {h} else {}
      ensures draining.Keys <= old(draining.Keys)
      ensures forall x :: x != s ==> Connected(x) == old(Connected(x))
      ensures connect ==> h !in peersToPrune && (old(NeedsDial(h)) ==> h in peersToConnect)
      ensures connect ==> OnTheWay(s, h)
      ensures forall x :: x in peersToConnect && x != h ==> x in old(peersToConnect) && old(peersToConnect)[x] == peersToConnect[x]
      ensures h in peersToConnect ==>
        peersToConnect[h].serviceName == s || (h in old(peersToConnect) && old(peersToConnect)[h] == peersToConnect[h])
      ensures !connect ==> (Level(connectedPeerServices, h) == {} ==> h in peersToPrune && h !in peersToConnect)
    {
      hide Level, Add, Delete, Connect, Disconnect, Sound;
      if connect {
        ConnectIsSound(LinksNow(), true, NeedsDial(h), s, h, now);
        ConnectLevels(LinksNow(), NeedsDial(h), s, h, now);
        EnsurePeerConnected(s, h, now);
      } else {
        DisconnectIsSound(LinksNow(), true, s, h, now);
        DisconnectLevels(LinksNow(), s, h, now);
        EnsurePeerDisconnected(s, h, now);
      }
    }

    /** Makes the channel of a service, in the role the ring gives it now. */
    method CreateServiceChannel(s: string)
      requires ServicesOk() && RolesOk() && s !in channels && EndsFor(egress, s)
      modifies this`channels, this`relaysFor, this`topPeers
      ensures ServicesOk() && RolesOk() && s in channels && s !in partialRanges
      ensures channels == old(channels)[s := channels[s]]
      ensures channels[s].mode == if IsExit(egress, s) then Exit else Forward
      ensures channels[s].peers == if IsExit(egress, s) then {} else ExitHosts(egress, s)
      ensures relaysFor == old(relaysFor)[s := relaysFor[s]] && Hosts(relaysFor[s]) == ExitHosts(egress, s)
      ensures channels[s].peers <= topPeers
      ensures RelaysOf(s) == RingRelays(s) && old(topPeers) <= topPeers
      ensures old(Calm()) ==> Calm()
      ensures topPeers == old(topPeers) + channels[s].peers
    {
      hide Sound, Remembers, Safe, ExitHosts, IsExit, AllFit, RolesAgree;
      UnknownService(s);
      var exitNames, exits, isExit := LookUpExits(s);
      OpenChannel(s, if isExit then Channel(Exit, {}) else Channel(Forward, exits), exitNames);
      if !isExit {
        topPeers := topPeers + exits;
      }
    }

    /** A routed request makes the channel of its service if there is none. */
    method RouteRequest(s: string)
      requires Valid() && (s !in channels ==> EndsFor(egress, s))
      modifies this`channels, this`relaysFor, this`topPeers
      ensures Valid() && s in channels && channels == old(channels)[s := channels[s]]
      ensures s in old(channels) ==> channels == old(channels)
      ensures s !in old(channels) ==>
        && channels[s].mode == (if IsExit(egress, s) then Exit else Forward)
        && channels[s].peers == (if IsExit(egress, s) then {} else ExitHosts(egress, s))
        && channels[s].peers <= topPeers && s !in partialRanges
      ensures s !in old(channels) ==> RelaysOf(s) == RingRelays(s)
      ensures old(Calm()) ==> Calm()
    {
      hide ServicesOk, RolesOk, ReaperOk, Lists, LinksNow, Sound, IsExit, ExitHosts, EndsFor;
      if s !in channels {
        ghost var before := channels;
        CreateServiceChannel(s);
        ListsAnyway(before, log, s, channels[s]);
      }
    }

    /** A sub-channel that is not proxied, as other parts of the application make them. */
    method AddUnproxiedChannel(s: string, peers: set<HostPort>)
      requires Valid() && s !in channels
      modifies this`channels, this`topPeers
      ensures Valid() && channels == old(channels)[s := Channel(Other, peers)] && topPeers == old(topPeers) + peers
      ensures old(Calm()) ==> Calm()
    {
      hide ReaperOk, Lists, LinksNow, Sound, AllFit, RolesAgree, IsExit;
      UnknownService(s);
      var ch := Channel(Other, peers);
      if ringStable {
        RolesAgreePut(channels, egress, s, ch);
      }
      AllFitPut(channels, relaysFor, partialRanges, inherited, channels[s := ch], relaysFor, partialRanges, inherited,
                hostPort, minPeersPerWorker, minPeersPerRelay, s);
      ListsAnyway(channels, log, s, ch);
      channels := channels[s := ch];
      topPeers := topPeers + peers;
    }

    /** Asks the ring for a service's exits, as a sorted list and a set, and whether this relay is one. */
    method LookUpExits(s: string) returns (exitNames: seq<HostPort>, exits: set<HostPort>, isExit: bool)
      requires RingOk() && EndsFor(egress, s)
      ensures exits == ExitHosts(egress, s) == Hosts(exitNames) && StrictlySorted(exitNames)
      ensures isExit == IsExit(egress, s) && (isExit <==> hostPort in exitNames)
      ensures exitNames == RingRelays(s)
    {
      hide ExitHosts, RolesAgree, Groups;
      var exitNodes := CollectExits(egress, s);
      exits := exitNodes.Keys;
      exitNames := SortHosts(exits);
      isExit := FindSelf(egress, s);
      assert hostPort in Hosts(exitNames) <==> hostPort in exitNames;
    }

    method OpenChannel(s: string, ch: Channel, exitNames: seq<HostPort>)
      requires ServicesOk() && RolesOk() && s !in channels && s !in partialRanges && s !in relaysFor && s !in inherited
      requires ch.mode == (if IsExit(egress, s) then Exit else Forward)
      requires StrictlySorted(exitNames) && (ch.mode == Exit <==> hostPort in exitNames)
      modifies this`channels, this`relaysFor
      ensures ServicesOk() && RolesOk()
      ensures channels == old(channels)[s := ch] && relaysFor == old(relaysFor)[s := exitNames]
    {
      hide IsExit, RolesAgree, AllFit;
      if ringStable {
        RolesAgreePut(channels, egress, s, ch);
      }
      AllFitPut(channels, relaysFor, partialRanges, inherited,
                channels[s := ch], relaysFor[s := exitNames], partialRanges, inherited,
                hostPort, minPeersPerWorker, minPeersPerRelay, s);
      relaysFor := relaysFor[s := exitNames];
      channels := channels[s := ch];
    }

    /**
      An advertisement. It is accepted exactly in exit mode. Under partial affinity a new peer makes the
      service converge whenever the affinity change settles, and a known peer is settled by the slice.
     */
    method RefreshServicePeer(s: string, h: HostPort, now: Time)
      requires Valid() && (s !in channels ==> EndsFor(egress, s))
      modifies this`channels, this`relaysFor, this`topPeers, this`partialRanges, this`asked,
        this`connectedServicePeers, this`connectedPeerServices, this`peersToPrune, this`peersToConnect, this`draining,
        this`knownPeers, this`peersToReap, this`log
      ensures Valid() && s in channels && channels == old(channels)[s := channels[s]]
      ensures channels[s].mode == (if s in old(channels) then old(channels)[s].mode
                                   else if IsExit(egress, s) then Exit else Forward)
      ensures log == if channels[s].mode == Exit then old(log) + [Ad(h, s)] else old(log)
      ensures channels[s].mode == Exit ==>
        && Has(knownPeers, h, s)
        && channels[s].peers == (if s in old(channels) then old(channels)[s].peers else {}) + {h}
      ensures channels[s].mode == Exit && partialAffinityEnabled && !(s in old(channels) && h in old(channels)[s].peers) ==>
        && (Converged(s) <==> old(ConvergesAdding(s, h)))
        && (!old(ConvergesAdding(s, h)) ==> Connected(s) <= old(Connected(s)))
        && (s !in inherited || old(s in channels ==> KnownWorkers(s) <= channels[s].peers + {h}) ==> Converged(s))
        && s in partialRanges && Ready(partialRanges[s]) && h in KnownWorkers(s) && h in topPeers
        && KnownWorkers(s) <= old(if s in channels then KnownWorkers(s) else {}) + {h}
      ensures channels[s].mode == Exit && partialAffinityEnabled && s in old(channels) && h in old(channels)[s].peers ==>
        s in partialRanges && Ready(partialRanges[s]) && (h in Connected(s) <==> h in Affine(partialRanges[s]))
      ensures channels[s].mode == Exit && !partialAffinityEnabled ==>
        && h !in peersToPrune && (NeedsDial(h) ==> h in peersToConnect) && h in topPeers
        && connectedPeerServices == old(connectedPeerServices)
      ensures draining.Keys <= old(draining.Keys)
      ensures old(topPeers) <= topPeers
      ensures s in old(channels) ==> relaysFor == old(relaysFor)
      ensures old(Calm()) ==> Calm()
      ensures channels[s].mode == Exit && !partialAffinityEnabled ==> OnTheWay(s, h)
      ensures channels[s].mode == Exit && partialAffinityEnabled && h in Connected(s) ==>
        (s in old(channels) && h in old(channels)[s].peers) || h !in old(Connected(s)) ==> OnTheWay(s, h)
      ensures channels[s].mode != Exit ==>
        && (if s in old(channels) then channels == old(channels) else channels[s] == Channel(Forward, ExitHosts(egress, s)))
        && LinksNow() == old(LinksNow()) && knownPeers == old(knownPeers) && partialRanges == old(partialRanges)
    {
      hide QueueOk, Connected, WillConverge, RelaysOf, WorkersOf, Calm, NeedsDial, OnTheWay, PeersOk, RolesOk, ReaperOk, ListOk, ConvergesAdding, KnownWorkers, Converged,
        Ready, Affine, LinksNow, ExitHosts, IsExit, Has;
      if s !in channels {
        NewConvergesAdding(s, h);
        OpenForAd(s);
        NewConvergesAdding(s, h);
        NoWorkersKnown(s);
      }
      if channels[s].mode == Exit {
        if partialAffinityEnabled {
          RefreshPartially(s, h, now);
        } else {
          RefreshFully(s, h, now);
        }
      }
    }

    lemma NewConvergesAdding(s: string, h: HostPort)
      requires s !in channels || s !in partialRanges
      ensures ConvergesAdding(s, h)
    {}

    lemma NoWorkersKnown(s: string)
      requires s in channels && s !in partialRanges
      ensures KnownWorkers(s) == channels[s].peers
    {}

    /** The first advertisement of a service makes its channel. */
    method OpenForAd(s: string)
      requires Valid() && s !in channels && EndsFor(egress, s)
      modifies this`channels, this`relaysFor, this`topPeers
      ensures Valid() && s in channels && channels == old(channels)[s := channels[s]] && s !in partialRanges
      ensures channels[s].mode == if IsExit(egress, s) then Exit else Forward
      ensures channels[s].mode == Exit ==> channels[s].peers == {}
      ensures old(topPeers) <= topPeers
      ensures old(Calm()) ==> Calm()
      ensures channels[s].mode == Forward ==> channels[s].peers == ExitHosts(egress, s)
      ensures channels[s].mode != Other
    {
      hide ServicesOk, RolesOk, ReaperOk, Lists, LinksNow, Sound, IsExit, ExitHosts, EndsFor;
      ghost var before := channels;
      CreateServiceChannel(s);
      ListsAnyway(before, log, s, channels[s]);
    }

    /** Under partial affinity: a new peer is added, a known one freshened. */
    method RefreshPartially(s: string, h: HostPort, now: Time)
      requires Valid() && partialAffinityEnabled && s in channels && channels[s].mode == Exit
      modifies this`channels, this`topPeers, this`partialRanges, this`asked, this`connectedServicePeers,
        this`connectedPeerServices, this`peersToPrune, this`peersToConnect, this`draining, this`knownPeers,
        this`peersToReap, this`log
      ensures Valid() && log == old(log) + [Ad(h, s)] && Has(knownPeers, h, s)
      ensures channels == old(channels)[s := old(channels)[s].(peers := old(channels)[s].peers + {h})]
      ensures s in partialRanges && Ready(partialRanges[s])
      ensures h !in old(channels)[s].peers ==>
        && (Converged(s) <==> old(ConvergesAdding(s, h)))
        && (!old(ConvergesAdding(s, h)) ==> Connected(s) <= old(Connected(s)))
        && (s !in inherited || old(KnownWorkers(s) <= channels[s].peers + {h}) ==> Converged(s))
        && h in KnownWorkers(s) && h in topPeers && KnownWorkers(s) <= old(KnownWorkers(s)) + {h}
      ensures h in old(channels)[s].peers ==> (h in Connected(s) <==> h in Affine(partialRanges[s]))
      ensures draining.Keys <= old(draining.Keys)
      ensures old(topPeers) <= topPeers
      ensures old(Calm()) ==> Calm()
      ensures h in Connected(s) && (h in old(channels)[s].peers || h !in old(Connected(s))) ==> OnTheWay(s, h)
      ensures h in old(channels)[s].peers && h !in Connected(s) ==>
        (Level(connectedPeerServices, h) == {} ==> h in peersToPrune && h !in peersToConnect)
    {
      hide Calm, PeersOk, RolesOk, ReaperOk, ListOk, ConvergesAdding, KnownWorkers, Converged, Ready, Affine,
        LinksNow, Has;
      if h !in channels[s].peers {
        AddNewPartialPeer(s, h, now);
      } else {
        FreshenPartialPeer(s, h, now);
        assert channels == channels[s := channels[s].(peers := channels[s].peers + {h})] by {
          assert channels[s].peers + {h} == channels[s].peers;
        }
      }
    }

    /** Without partial affinity every exit connects to every peer. */
    method RefreshFully(s: string, h: HostPort, now: Time)
      requires Valid() && !partialAffinityEnabled && s in channels && channels[s].mode == Exit
      modifies this`channels, this`topPeers, this`partialRanges, this`asked, this`connectedServicePeers,
        this`connectedPeerServices, this`peersToPrune, this`peersToConnect, this`draining, this`knownPeers,
        this`peersToReap, this`log
      ensures Valid() && log == old(log) + [Ad(h, s)] && Has(knownPeers, h, s)
      ensures channels == old(channels)[s := old(channels)[s].(peers := old(channels)[s].peers + {h})]
      ensures h !in peersToPrune && (NeedsDial(h) ==> h in peersToConnect)
      ensures connectedServicePeers == old(connectedServicePeers) && connectedPeerServices == old(connectedPeerServices)
      ensures h in topPeers && draining.Keys <= old(draining.Keys)
      ensures old(topPeers) <= topPeers
      ensures old(Calm()) ==> Calm()
      ensures OnTheWay(s, h)
    {
      hide OnTheWay, Calm, Has, NeedsDial, AllAsked, QueuedOnlyFor, LinksNow, ServicesOk, RolesOk, ReaperOk, Lists,
        AllFit, Sound, RolesAgree, Remembers, Safe;
      ListsAdvertised(channels, log, s, h);
      CancelPrune(h);
      MarkAdvertised(s, h, now);
      AddAndDial(s, h, now);
      QueueGrows(s, old(peersToConnect), connecting, old(log));
    }

    method AddAndDial(s: string, h: HostPort, now: Time)
      requires Sound(LinksNow()) && ServicesOk() && RolesOk() && !partialAffinityEnabled && s in channels
      modifies this`channels, this`topPeers, this`partialRanges, this`asked, this`connectedServicePeers,
        this`connectedPeerServices, this`peersToPrune, this`peersToConnect, this`draining
      ensures Sound(LinksNow()) && ServicesOk() && RolesOk()
      ensures channels == old(channels)[s := old(channels)[s].(peers := old(channels)[s].peers + {h})]
      ensures h !in peersToPrune && (NeedsDial(h) ==> h in peersToConnect)
      ensures connectedServicePeers == old(connectedServicePeers) && connectedPeerServices == old(connectedPeerServices)
      ensures h in topPeers && draining.Keys <= old(draining.Keys)
      ensures old(topPeers) <= topPeers
      ensures old(Calm()) ==> Calm()
      ensures OnTheWay(s, h) && QueuedOnlyFor(s, old(peersToConnect))
    {
      hide AllFit, Sound, RolesAgree, AddWorker;
      AddChannelPeer(s, h);
      DialFully(s, h, now);
    }

    method CancelPrune(h: HostPort)
      requires Sound(LinksNow())
      modifies this`peersToPrune
      ensures Sound(LinksNow()) && peersToPrune == old(peersToPrune) - {h}
    {
      hide Sound;
      UnprunedIsSound(LinksNow(), h);
      peersToPrune := peersToPrune - {h};
    }

    method DialFully(s: string, h: HostPort, now: Time)
      requires Sound(LinksNow()) && !partialAffinityEnabled
      modifies this`asked, this`connectedServicePeers, this`connectedPeerServices, this`peersToPrune,
        this`peersToConnect, this`draining
      ensures Sound(LinksNow())
      ensures h !in peersToPrune && (NeedsDial(h) ==> h in peersToConnect)
      ensures connectedServicePeers == old(connectedServicePeers) && connectedPeerServices == old(connectedPeerServices)
      ensures draining.Keys <= old(draining.Keys)
      ensures OnTheWay(s, h)
      ensures forall x :: x in peersToConnect && x != h ==> x in old(peersToConnect) && old(peersToConnect)[x] == peersToConnect[x]
      ensures h in peersToConnect ==>
        peersToConnect[h].serviceName == s || (h in old(peersToConnect) && old(peersToConnect)[h] == peersToConnect[h])
    {
      hide Sound, Connect;
      ConnectIsSound(LinksNow(), false, NeedsDial(h), s, h, now);
      EnsurePeerConnected(s, h, now);
    }

    // ----- withdrawals -----

    /**
      An unadvertisement, in whatever mode the channel is. Under partial affinity it throws half-way exactly for a
      known host and a channel that is no exit; the peer is gone by then, and the drain is not reached.
     */
    method RemoveServicePeer(s: string, h: HostPort, now: Time) returns (threw: bool)
      requires Valid()
      modifies this`channels, this`partialRanges, this`asked, this`connectedServicePeers, this`connectedPeerServices,
        this`peersToPrune, this`peersToConnect, this`draining, this`log
      ensures Valid()
      ensures !(s in old(channels) && h in topPeers) ==>
        channels == old(channels) && LinksNow() == old(LinksNow()) && draining == old(draining)
      ensures s in old(channels) && h in topPeers ==>
        channels == old(channels)[s := old(channels)[s].(peers := old(channels)[s].peers - {h})]
      ensures s in old(channels) && h in topPeers && partialAffinityEnabled && channels[s].mode == Exit ==>
        && (Converged(s) <==> old(ConvergesRemoving(s, h))) && (Converged(s) ==> h !in Connected(s))
        && (!old(ConvergesRemoving(s, h)) ==> Connected(s) <= old(Connected(s)))
        && (s !in inherited || old(KnownWorkers(s) - {h} <= channels[s].peers) ==> Converged(s) && h !in Connected(s))
      ensures s in old(channels) && h in topPeers && partialAffinityEnabled && channels[s].mode != Exit ==>
        LinksNow() == old(LinksNow()) && KnownWorkers(s) == old(KnownWorkers(s)) - {h}
      ensures s in old(channels) && h in topPeers && partialAffinityEnabled ==> s in partialRanges
      ensures threw <==> s in old(channels) && h in topPeers && partialAffinityEnabled && channels[s].mode != Exit
      ensures s in old(channels) && h in topPeers && !threw ==>
        Get(draining, h) == Some(if Get(old(draining), h) == Some(ReapDrain) then ReapDrain else UnadvertiseDrain)
      ensures threw ==> draining == old(draining)
      ensures log == if s in old(channels) && h in topPeers then old(log) + [Withdrawn(h, s)] else old(log)
      ensures forall x :: x != s ==> Connected(x) == old(Connected(x))
      ensures s in old(channels) && h in topPeers && partialAffinityEnabled && channels[s].mode == Exit ==>
        && Level(connectedPeerServices, h) ==
           Level(old(connectedPeerServices), h) - (if old(EmptiesRemoving(s, h)) then {s} else {})
        && (old(EmptiesRemoving(s, h)) ==> Connected(s) <= old(Connected(s)))
      ensures !partialAffinityEnabled ==> LinksNow() == old(LinksNow())
      ensures old(Calm()) && !threw ==> Calm()
    {
      hide PeersOk, RolesOk, ReaperOk, ListOk, QueueOk, Calm, LinksNow, Converged, KnownWorkers, ConvergesRemoving,
        EmptiesRemoving, Connected, Level;
      threw := false;
      if s in channels && h in topPeers {
        threw := TakeOut(s, h, now);
        if !threw && (h !in draining || draining[h] != ReapDrain) {
          draining := draining[h := UnadvertiseDrain];
        }
      }
    }

    /** All of that but the drain, for a known host. */
    method TakeOut(s: string, h: HostPort, now: Time) returns (threw: bool)
      requires Valid() && s in channels && h in topPeers
      modifies this`channels, this`partialRanges, this`asked, this`connectedServicePeers, this`connectedPeerServices,
        this`peersToPrune, this`peersToConnect, this`draining, this`log
      ensures Valid() && log == old(log) + [Withdrawn(h, s)]
      ensures channels == old(channels)[s := old(channels)[s].(peers := old(channels)[s].peers - {h})]
      ensures threw <==> partialAffinityEnabled && channels[s].mode != Exit
      ensures threw ==> draining == old(draining)
      ensures Get(draining, h) == Get(old(draining), h)
      ensures partialAffinityEnabled && channels[s].mode == Exit ==>
        && (Converged(s) <==> old(ConvergesRemoving(s, h))) && (Converged(s) ==> h !in Connected(s))
        && (!old(ConvergesRemoving(s, h)) ==> Connected(s) <= old(Connected(s)))
        && (s !in inherited || old(KnownWorkers(s) - {h} <= channels[s].peers) ==> Converged(s) && h !in Connected(s))
        && Level(connectedPeerServices, h) ==
           Level(old(connectedPeerServices), h) - (if old(EmptiesRemoving(s, h)) then {s} else {})
        && (old(EmptiesRemoving(s, h)) ==> Connected(s) <= old(Connected(s)))
      ensures partialAffinityEnabled && channels[s].mode != Exit ==>
        LinksNow() == old(LinksNow()) && KnownWorkers(s) == old(KnownWorkers(s)) - {h}
      ensures partialAffinityEnabled ==> s in partialRanges
      ensures !partialAffinityEnabled ==> LinksNow() == old(LinksNow())
      ensures forall x :: x != s ==> Connected(x) == old(Connected(x))
      ensures old(Calm()) && !threw ==> Calm()
    {
      hide Calm, LinksNow, Converged, KnownWorkers, ConvergesRemoving, EmptiesRemoving, AllAsked, QueuedOnlyFor,
        ServicesOk, RolesOk, ReaperOk, Lists, AllFit, Sound, Affine, Ready, Level, Connected, Settles, Without;
      ConvergesOnPeers(s, h);
      ListsTakenBack(channels, log, s, h, Withdrawn(h, s));
      MarkOther(Withdrawn(h, s));
      threw := Withdraw(s, h, now);
      if channels[s].mode == Exit {
        QueueGrows(s, old(peersToConnect), connecting, old(log));
      } else {
        QueueStays(old(peersToConnect), connecting, old(log));
      }
    }

    method Withdraw(s: string, h: HostPort, now: Time) returns (threw: bool)
      requires PeersOk() && RolesOk() && s in channels
      modifies this`channels, this`partialRanges, this`asked, this`connectedServicePeers, this`connectedPeerServices,
        this`peersToPrune, this`peersToConnect, this`draining
      ensures PeersOk() && RolesOk()
      ensures channels == old(channels)[s := old(channels)[s].(peers := old(channels)[s].peers - {h})]
      ensures partialAffinityEnabled && channels[s].mode == Exit ==>
        && (Converged(s) <==> old(ConvergesRemoving(s, h))) && (Converged(s) ==> h !in Connected(s))
        && (s !in inherited ==> Converged(s))
        && (!old(ConvergesRemoving(s, h)) ==> Connected(s) <= old(Connected(s)))
      ensures partialAffinityEnabled && channels[s].mode != Exit ==>
        LinksNow() == old(LinksNow()) && KnownWorkers(s) == old(KnownWorkers(s)) - {h}
      ensures partialAffinityEnabled ==> s in partialRanges
      ensures forall x :: x != s ==> Connected(x) == old(Connected(x))
      ensures partialAffinityEnabled && channels[s].mode == Exit ==>
        && Level(connectedPeerServices, h) ==
           Level(old(connectedPeerServices), h) - (if old(EmptiesRemoving(s, h)) then {s} else {})
        && (old(EmptiesRemoving(s, h)) ==> Connected(s) <= old(Connected(s)))
      ensures !partialAffinityEnabled ==> LinksNow() == old(LinksNow())
      ensures threw <==> partialAffinityEnabled && channels[s].mode != Exit
      ensures old(Calm()) && !threw ==> Calm()
      ensures threw ==> draining == old(draining)
      ensures QueuedOnlyFor(s, old(peersToConnect))
      ensures channels[s].mode != Exit ==> peersToConnect == old(peersToConnect)
      ensures Get(draining, h) == Get(old(draining), h)
    {
      hide OnTheWay, Converged, KnownWorkers, Calm, KnownList, ServicesOk, RolesOk, ReaperOk, ListOk, AllFit, Sound,
        RolesAgree, Remembers, Safe, Affine, Ready, RemoveWorker, Level, Settles, Without;
      RemoveChannelPeer(s, h);
      threw := false;
      if partialAffinityEnabled {
        threw := Reconcile(s, h, now, false);
      }
    }

    // ----- roles -----

    /** Replaces everything one service is described by. */
    method AssignService(s: string, ch: Channel, relays: seq<HostPort>, range: Option<Range>, ghost inherits: bool)
      requires ServicesOk() && s in channels
      requires ServiceFits(ch, Some(relays), range, hostPort, minPeersPerWorker, minPeersPerRelay, inherits)
      requires inherits ==> range.Some?
      requires !partialAffinityEnabled ==> range.None?
      modifies this`channels, this`relaysFor, this`partialRanges, this`inherited
      ensures ServicesOk()
      ensures channels == old(channels)[s := ch] && relaysFor == old(relaysFor)[s := relays]
      ensures Get(partialRanges, s) == range && (s in inherited <==> inherits)
      ensures forall x :: x != s ==> Get(partialRanges, x) == Get(old(partialRanges), x)
      ensures inherited - {s} == old(inherited) - {s}
      ensures old(Calm()) && !inherits && (range.Some? ==> ch.mode == Exit) ==> Calm()
    {
      hide ServiceFits, AllFit;
      var ranges := if range.Some? then partialRanges[s := range.value] else partialRanges - {s};
      ghost var inherited' := if inherits then inherited + {s} else inherited - {s};
      AllFitPut(channels, relaysFor, partialRanges, inherited,
                channels[s := ch], relaysFor[s := relays], ranges, inherited',
                hostPort, minPeersPerWorker, minPeersPerRelay, s);
      channels := channels[s := ch];
      relaysFor := relaysFor[s := relays];
      partialRanges := ranges;
      inherited := inherited';
      if old(Calm()) && !inherits && (range.Some? ==> ch.mode == Exit) {
        assert inherited == {};
      }
    }

    /** Disconnects hosts from a service, as when the service's channel stops being an exit. */
    method DisconnectPeers(s: string, hosts: set<HostPort>, now: Time)
      requires Sound(LinksNow())
      modifies this`asked, this`connectedServicePeers, this`connectedPeerServices, this`peersToPrune,
        this`peersToConnect
      ensures Sound(LinksNow())
      ensures partialAffinityEnabled ==> Connected(s) == old(Connected(s)) - hosts
      ensures !partialAffinityEnabled ==> Connected(s) == old(Connected(s))
      ensures forall x :: x != s ==> Connected(x) == old(Connected(x))
      ensures forall h :: h in hosts && Level(connectedPeerServices, h) == {} ==> h in peersToPrune
      ensures !partialAffinityEnabled ==> connectedPeerServices == old(connectedPeerServices)
      ensures forall x :: x in peersToConnect ==> x in old(peersToConnect) && old(peersToConnect)[x] == peersToConnect[x]
    {
      hide Sound, Disconnect;
      var todo := hosts;
      while todo != {}
        invariant !partialAffinityEnabled ==> connectedPeerServices == old(connectedPeerServices)
        invariant todo <= hosts && Sound(LinksNow())
        invariant forall x :: x in peersToConnect ==> x in old(peersToConnect) && old(peersToConnect)[x] == peersToConnect[x]
        invariant forall h :: h in hosts - todo && Level(connectedPeerServices, h) == {} ==> h in peersToPrune
        invariant Connected(s) == old(Connected(s)) - if partialAffinityEnabled then hosts - todo else {}
        invariant forall x :: x != s ==> Connected(x) == old(Connected(x))
      {
        var h :| h in todo;
        DisconnectIsSound(LinksNow(), partialAffinityEnabled, s, h, now);
        DisconnectLevels(LinksNow(), s, h, now);
        FullDisconnectLevels(LinksNow(), s, h, now);
        DisconnectQueues(LinksNow(), partialAffinityEnabled, s, h, now);
        EnsurePeerDisconnected(s, h, now);
        todo := todo - {h};
      }
    }

    /**
      The channel becomes, or stays, an exit. One that stays converges under the new relays whenever the
      change settles; one that was a forwarder keeps the range it may have, about its former peers.
     */
    method UpdateAsExit(s: string, exitNames: seq<HostPort>, now: Time)
      requires PeersOk() && RingOk() && ListOk() && QueueOk() && s in channels && channels[s].mode != Other
      requires StrictlySorted(exitNames) && hostPort in exitNames
      modifies this`channels, this`relaysFor, this`partialRanges, this`inherited, this`asked,
        this`connectedServicePeers, this`connectedPeerServices, this`peersToPrune, this`peersToConnect, this`draining
      ensures PeersOk() && ListOk() && QueueOk()
      ensures channels == old(channels)[s := if old(channels)[s].mode == Forward then Channel(Exit, {}) else old(channels)[s]]
      ensures relaysFor == old(relaysFor)[s := exitNames]
      ensures old(channels)[s].mode == Exit && partialAffinityEnabled ==>
        && (Converged(s) <==> old(WillConverge(s, exitNames, WorkersOf(s), channels[s].peers)))
        && (!old(WillConverge(s, exitNames, WorkersOf(s), channels[s].peers)) ==> Connected(s) <= old(Connected(s)))
        && (s !in inherited || old(KnownWorkers(s) <= channels[s].peers) ==> Converged(s))
      ensures old(channels)[s].mode == Forward ==>
        && LinksNow() == old(LinksNow()) && partialRanges.Keys == old(partialRanges).Keys
        && WorkersOf(s) == old(WorkersOf(s))
      ensures s in inherited ==> s in old(inherited) || (old(channels)[s].mode == Forward && s in old(partialRanges))
      ensures draining.Keys <= old(draining.Keys)
      ensures old(Calm()) ==> Calm()
      ensures !partialAffinityEnabled ==> LinksNow() == old(LinksNow())
      ensures QueuedOnlyFor(s, old(peersToConnect))
    {
      hide AllAsked, ServicesOk, ListOk, Sound, Ready, Level, Calm, KnownWorkers, Converged, Settles, Empties;
      var was := channels[s];
      BecomeExit(s, exitNames);
      NowRelays(s);
      if was.mode == Exit && partialAffinityEnabled {
        ConvergeExit(s, now);
      }
    }

    /** An exit whose relays changed is brought in line. */
    method ConvergeExit(s: string, now: Time)
      requires PeersOk() && ListOk() && QueueOk() && partialAffinityEnabled && s in channels && channels[s].mode == Exit
      modifies this`partialRanges, this`asked, this`connectedServicePeers, this`connectedPeerServices,
        this`peersToPrune, this`peersToConnect, this`draining
      ensures PeersOk() && QueueOk()
      ensures Converged(s) <==> old(WillConverge(s, RelaysOf(s), WorkersOf(s), channels[s].peers))
      ensures !old(WillConverge(s, RelaysOf(s), WorkersOf(s), channels[s].peers)) ==> Connected(s) <= old(Connected(s))
      ensures s !in inherited || old(KnownWorkers(s) <= channels[s].peers) ==> Converged(s)
      ensures old(Calm()) ==> Calm()
      ensures draining.Keys <= old(draining.Keys)
      ensures QueuedOnlyFor(s, old(peersToConnect))
    {
      hide ServicesOk, Lists, AllAsked, QueuedOnlyFor, Sound, Calm, Ready, Level, KnownWorkers, Converged,
        WillConverge, WillSettle, WillEmpty;
      var _ := EnsurePartialConnections(s, now);
      QueueGrows(s, old(peersToConnect), connecting, log);
    }

    lemma NowRelays(s: string)
      requires s in relaysFor
      ensures RelaysOf(s) == relaysFor[s]
    {}

    /** The channel's own part of that: its role, its relays, and those of the range it may have. */
    method BecomeExit(s: string, exitNames: seq<HostPort>)
      requires ServicesOk() && ListOk() && s in channels && channels[s].mode != Other
      requires StrictlySorted(exitNames) && hostPort in exitNames
      modifies this`channels, this`relaysFor, this`partialRanges, this`inherited
      ensures ServicesOk() && ListOk()
      ensures channels == old(channels)[s := if old(channels)[s].mode == Forward then Channel(Exit, {}) else old(channels)[s]]
      ensures relaysFor == old(relaysFor)[s := exitNames]
      ensures partialRanges.Keys == old(partialRanges).Keys && WorkersOf(s) == old(WorkersOf(s))
      ensures old(channels)[s].mode == Exit ==> KnownWorkers(s) == old(KnownWorkers(s))
      ensures s in inherited ==> s in old(inherited) || (old(channels)[s].mode == Forward && s in old(partialRanges))
      ensures old(Calm()) ==> Calm()
    {
      hide Lists, AllFit, StrictlySorted;
      FitsAt(s);
      var was := channels[s];
      ListsAnyway(channels, log, s, if was.mode == Forward then Channel(Exit, {}) else was);
      var range := if s in partialRanges then Some(SetRelays(partialRanges[s], Some(exitNames))) else None;
      ghost var inherits := range.Some? && (s in inherited || was.mode == Forward);
      ExitFits(was, Get(relaysFor, s), Get(partialRanges, s), hostPort, minPeersPerWorker, minPeersPerRelay,
               s in inherited, exitNames);
      AssignService(s, if was.mode == Forward then Channel(Exit, {}) else was, exitNames, range, inherits);
      SameKeys(old(partialRanges), partialRanges, s);
    }

    /** The channel becomes, or stays, a forwarder to the service's exits. */
    method UpdateAsForward(s: string, exitNames: seq<HostPort>, exits: set<HostPort>, now: Time)
      requires PeersOk() && RingOk() && ReaperOk() && ListOk() && QueueOk() && s in channels && channels[s].mode != Other
      requires StrictlySorted(exitNames) && Hosts(exitNames) == exits && hostPort !in exitNames
      modifies this`channels, this`relaysFor, this`partialRanges, this`inherited, this`topPeers, this`asked,
        this`connectedServicePeers, this`connectedPeerServices, this`peersToPrune, this`peersToConnect, this`log
      ensures PeersOk() && ReaperOk() && ListOk() && QueueOk()
      ensures log == if old(channels)[s].mode == Exit then old(log) + [Cleared(s)] else old(log)
      ensures channels == old(channels)[s := Channel(Forward, exits)]
      ensures relaysFor == old(relaysFor)[s := exitNames]
      ensures s !in partialRanges
      ensures old(channels)[s].mode == Exit && partialAffinityEnabled ==> Connected(s) !! old(channels)[s].peers
      ensures old(channels)[s].mode == Exit ==>
        forall h :: h in old(channels)[s].peers && Level(connectedPeerServices, h) == {} ==> h in peersToPrune
      ensures !partialAffinityEnabled ==> connectedPeerServices == old(connectedPeerServices)
      ensures old(topPeers) <= topPeers
      ensures old(Calm()) ==> Calm()
      ensures topPeers == old(topPeers) + exits
    {
      hide AllAsked, Lists, Sound, ServiceFits, AllFit, Calm, Level, Remembers, Safe;
      var was := channels[s];
      BecomeForward(s, exitNames, exits);
      if was.mode == Exit {
        ClearService(s);
        LeavePeers(s, was.peers, now);
      }
    }

    /** The history's side of leaving a service. */
    method ClearService(s: string)
      requires ReaperOk() && QueueOk()
      modifies this`log
      ensures ReaperOk() && QueueOk() && log == old(log) + [Cleared(s)]
    {
      hide AllAsked, Remembers, Safe;
      MarkOther(Cleared(s));
      QueueStays(peersToConnect, connecting, old(log));
    }

    /** The links' side of it. */
    method LeavePeers(s: string, hosts: set<HostPort>, now: Time)
      requires Sound(LinksNow()) && QueueOk()
      modifies this`asked, this`connectedServicePeers, this`connectedPeerServices, this`peersToPrune, this`peersToConnect
      ensures Sound(LinksNow()) && QueueOk()
      ensures partialAffinityEnabled ==> Connected(s) == old(Connected(s)) - hosts
      ensures !partialAffinityEnabled ==> Connected(s) == old(Connected(s))
      ensures forall x :: x != s ==> Connected(x) == old(Connected(x))
      ensures forall h :: h in hosts && Level(connectedPeerServices, h) == {} ==> h in peersToPrune
      ensures !partialAffinityEnabled ==> connectedPeerServices == old(connectedPeerServices)
    {
      hide AllAsked, Sound, LinksNow, Level;
      DisconnectPeers(s, hosts, now);
      QueueStays(old(peersToConnect), connecting, log);
    }

    /** The channel's own part of that: its role, its peers, its relays, and no range. */
    method BecomeForward(s: string, exitNames: seq<HostPort>, exits: set<HostPort>)
      requires ServicesOk() && ListOk() && s in channels && channels[s].mode != Other
      requires StrictlySorted(exitNames) && Hosts(exitNames) == exits && hostPort !in exitNames
      modifies this`channels, this`relaysFor, this`partialRanges, this`inherited, this`topPeers
      ensures ServicesOk() && channels == old(channels)[s := Channel(Forward, exits)]
      ensures relaysFor == old(relaysFor)[s := exitNames] && s !in partialRanges
      ensures Lists(channels, if old(channels)[s].mode == Exit then log + [Cleared(s)] else log)
      ensures old(topPeers) <= topPeers && (old(Calm()) ==> Calm())
      ensures topPeers == old(topPeers) + exits
    {
      hide Lists, AllFit;
      if channels[s].mode == Exit {
        ListsCleared(channels, log, s, Channel(Forward, exits));
      } else {
        ListsAnyway(channels, log, s, Channel(Forward, exits));
      }
      AssignService(s, Channel(Forward, exits), exitNames, None, false);
      topPeers := topPeers + exits;
    }

    /** Brings one proxied channel in line with the ring. */
    method UpdateServiceChannel(s: string, now: Time)
      requires PeersOk() && RingOk() && ReaperOk() && ListOk() && QueueOk()
      requires s in channels && channels[s].mode != Other && EndsFor(egress, s)
      modifies this`channels, this`relaysFor, this`partialRanges, this`inherited, this`topPeers, this`asked,
        this`connectedServicePeers, this`connectedPeerServices, this`peersToPrune, this`peersToConnect, this`draining,
        this`log
      ensures PeersOk() && ReaperOk() && ListOk() && QueueOk() && s in channels && channels == old(channels)[s := channels[s]]
      ensures channels[s].mode == if IsExit(egress, s) then Exit else Forward
      ensures channels[s].mode == Forward ==> channels[s].peers == ExitHosts(egress, s)
      ensures channels[s].mode == Exit ==>
        channels[s].peers == if old(channels)[s].mode == Exit then old(channels)[s].peers else {}
      ensures old(channels)[s].mode == Exit && channels[s].mode == Exit && partialAffinityEnabled ==>
        && (Converged(s) <==> old(WillConverge(s, RingRelays(s), WorkersOf(s), channels[s].peers)))
        && (!old(WillConverge(s, RingRelays(s), WorkersOf(s), channels[s].peers)) ==> Connected(s) <= old(Connected(s)))
        && (old(KnownWorkers(s) <= channels[s].peers) ==> Converged(s))
      ensures old(channels)[s].mode == Forward && channels[s].mode == Exit ==>
        && LinksNow() == old(LinksNow()) && partialRanges.Keys == old(partialRanges).Keys
        && WorkersOf(s) == old(WorkersOf(s))
      ensures old(channels)[s].mode == Exit && channels[s].mode == Forward ==>
        && (forall h :: h in old(channels)[s].peers && Level(connectedPeerServices, h) == {} ==> h in peersToPrune)
        && (!partialAffinityEnabled ==> connectedPeerServices == old(connectedPeerServices))
      ensures old(topPeers) <= topPeers && draining.Keys <= old(draining.Keys)
      ensures relaysFor == old(relaysFor)[s := RingRelays(s)]
      ensures log == if old(channels)[s].mode == Exit && channels[s].mode == Forward then old(log) + [Cleared(s)] else old(log)
      ensures old(Calm()) ==> Calm()
      ensures channels[s].mode == Exit && !partialAffinityEnabled ==> LinksNow() == old(LinksNow())
      ensures topPeers == old(topPeers) + if channels[s].mode == Forward then channels[s].peers else {}
    {
      hide RingRelays, QueueOk, Calm, WillConverge, WillSettle, KnownWorkers, WorkersOf, Converged, Connected,
        LinksNow, ServicesOk, RolesOk, ReaperOk, ListOk, AllFit, Sound, RolesAgree, Remembers, Safe, Affine, Ready,
        IsExit, ExitHosts, Level;
      var exitNames, exits, isExit := LookUpExits(s);
      if isExit {
        UpdateAsExit(s, exitNames, now);
      } else {
        UpdateAsForward(s, exitNames, exits, now);
      }
    }

    /** The ring changed: every proxied channel takes the role the ring gives it, whatever its role was. */
    method UpdateServiceChannels(now: Time)
      requires Valid()
      requires forall s :: s in channels && channels[s].mode != Other ==> EndsFor(egress, s)
      modifies this`channels, this`relaysFor, this`partialRanges, this`inherited, this`topPeers, this`asked,
        this`connectedServicePeers, this`connectedPeerServices, this`peersToPrune, this`peersToConnect, this`draining,
        this`ringStable, this`log
      ensures Valid() && ringStable && channels.Keys == old(channels).Keys
      ensures forall s :: s in channels && channels[s].mode == Forward ==> channels[s].peers == ExitHosts(egress, s)
      ensures forall s :: s in channels ==> Turned(old(channels)[s], channels[s])
      ensures forall s :: s in channels && channels[s].mode != Other ==> (channels[s].mode == Exit <==> IsExit(egress, s))
      ensures old(Calm()) ==> Calm()
    {
      hide PeersOk, ReaperOk, ListOk, EndsFor, IsExit, ExitHosts;
      UpdateEach(now);
      ringStable := true;
    }

    /** How an update may change a channel: exits that stay keep their peers, new ones have none, others stay. */
    predicate Turned(was: Channel, now: Channel) {
      && (was.mode == Other <==> now.mode == Other)
      && (was.mode == Other ==> now == was)
      && (now.mode == Exit ==> now.peers == if was.mode == Exit then was.peers else {})
    }

    /** The channel has the ring's role and, as a forwarder, the ring's exits. */
    ghost predicate InLine(s: string)
      requires s in channels
      reads this`channels, this`egress
    {
      channels[s].mode != Other ==>
        && (channels[s].mode == Exit <==> IsExit(egress, s))
        && (channels[s].mode == Forward ==> channels[s].peers == ExitHosts(egress, s))
    }

    method UpdateEach(now: Time)
      requires PeersOk() && RingOk() && ReaperOk() && ListOk() && QueueOk()
      requires forall s :: s in channels && channels[s].mode != Other ==> EndsFor(egress, s)
      modifies this`channels, this`relaysFor, this`partialRanges, this`inherited, this`topPeers, this`asked,
        this`connectedServicePeers, this`connectedPeerServices, this`peersToPrune, this`peersToConnect, this`draining,
        this`log
      ensures PeersOk() && ReaperOk() && ListOk() && QueueOk() && channels.Keys == old(channels).Keys
      ensures forall s :: s in channels ==> InLine(s) && Turned(old(channels)[s], channels[s])
      ensures old(Calm()) ==> Calm()
    {
      hide QueueOk, PeersOk, ReaperOk, ListOk, EndsFor, IsExit, ExitHosts, LinksNow, WillSettle, WillConverge,
        WorkersOf, KnownWorkers, Converged, Level, RingRelays;
      var todo := channels.Keys;
      while todo != {}
        invariant PeersOk() && ReaperOk() && ListOk() && QueueOk() && channels.Keys == old(channels).Keys && todo <= channels.Keys
        invariant forall s :: s in todo ==> channels[s] == old(channels)[s]
        invariant forall s :: s in channels && s !in todo ==>
          InLine(s) && Turned(old(channels)[s], channels[s])
        invariant old(Calm()) ==> Calm()
      {
        var s :| s in todo;
        if channels[s].mode != Other {
          UpdateServiceChannel(s, now);
        }
        todo := todo - {s};
      }
    }

    /** The cached answer: a channel's mode stands for the ring's. */
    ghost predicate CachedRole(s: string)
      reads this
    {
      if s in channels then channels[s].mode == Exit else IsExit(egress, s)
    }

    method IsExitFor(s: string) returns (isExit: bool)
      requires s !in channels ==> EndsFor(egress, s)
      ensures isExit <==> CachedRole(s)
    {
      hide IsExit, EndsFor;
      if s in channels {
        return channels[s].mode == Exit;
      }
      isExit := FindSelf(egress, s);
    }

    /** While the ring is as it was at the last update, the cached answer is the ring's. */
    lemma CachedRoleAgrees(s: string)
      requires Valid() && ringStable && (s in channels ==> channels[s].mode != Other)
      ensures CachedRole(s) <==> IsExit(egress, s)
    {
      hide IsExit;
    }

    /** The ring, a k value or the hops change; channels keep their role until the next update. */
    method SetEgress(e: Egress)
      requires Valid() && e.whoami == hostPort
      modifies this`egress, this`ringStable
      ensures Valid() && egress == e && !ringStable
    {
      egress := e;
      ringStable := false;
    }

    /** Switches partial affinity: ranges and both indices start over. */
    method SetPartialAffinityEnabled(enabled: bool)
      requires Valid()
      modifies this`partialAffinityEnabled, this`partialRanges, this`inherited, this`asked,
        this`connectedServicePeers, this`connectedPeerServices
      ensures Valid() && partialAffinityEnabled == enabled && partialRanges == map[]
      ensures connectedServicePeers == map[] == connectedPeerServices
      ensures Calm()
    {
      hide RolesOk, ReaperOk, ListOk, AllFit, Sound;
      StartOver();
      partialAffinityEnabled := enabled;
    }

    method StartOver()
      requires PeersOk()
      modifies this`partialRanges, this`inherited, this`asked, this`connectedServicePeers, this`connectedPeerServices
      ensures PeersOk() && partialRanges == map[]
      ensures connectedServicePeers == map[] == connectedPeerServices
      ensures Calm()
    {
      hide AllFit, Sound;
      ResetIsSound(LinksNow());
      NoRangesFit(channels, relaysFor, partialRanges, inherited, hostPort, minPeersPerWorker, minPeersPerRelay);
      partialRanges, inherited := map[], {};
      connectedServicePeers, connectedPeerServices, asked := map[], map[], {};
    }

    // ----- the reaper -----

    /** A reap run takes its snapshot; runs do not overlap, as the interval scanner guarantees. */
    method BeginReap() returns (collection: Index)
      requires Valid() && reaping.None?
      modifies this`knownPeers, this`peersToReap, this`reaping, this`log
      ensures Valid() && reaping == Some(collection) && collection == old(peersToReap)
      ensures peersToReap == old(knownPeers) && knownPeers == map[]
      ensures log == old(log) + [Snapshot]
      ensures forall x, y :: Has(collection, x, y) <==> Within(old(log), x, y, 2) && !Within(old(log), x, y, 1)
    {
      hide ServicesOk, RolesOk, ReaperOk, Lists, AllFit, Sound, RolesAgree, Remembers, Safe;
      TakesSilent();
      ListsOnRun(channels, log, Snapshot);
      collection := TurnGenerations();
    }

    /** The old generation is what was last advertised between the latest two snapshots. */
    lemma TakesSilent()
      requires ReaperOk()
      ensures forall x, y :: Has(peersToReap, x, y) <==> Within(log, x, y, 2) && !Within(log, x, y, 1)
    {}

    method TurnGenerations() returns (collection: Index)
      requires ReaperOk() && reaping.None?
      modifies this`knownPeers, this`peersToReap, this`reaping, this`log
      ensures ReaperOk() && reaping == Some(collection) && collection == old(peersToReap)
      ensures peersToReap == old(knownPeers) && knownPeers == map[]
      ensures log == old(log) + [Snapshot]
    {
      hide Remembers, Safe;
      SnapshotRemembers(knownPeers, peersToReap, log);
      collection := peersToReap;
      peersToReap := knownPeers;
      knownPeers := map[];
      reaping := Some(collection);
      log := log + [Snapshot];
    }

    method EndReap()
      requires Valid() && reaping.Some?
      modifies this`reaping
      ensures Valid() && reaping.None?
    {
      reaping := None;
    }

    /** A host of the snapshot is reaped unless it is known again, is gone, or is draining for another reason. */
    predicate Reapable(h: HostPort)
      reads this
    {
      h !in knownPeers && h in topPeers && (h in draining ==> draining[h] == PruneDrain)
    }

    lemma UnknownIsSilent(h: HostPort)
      requires ReaperOk()
      ensures h !in knownPeers <==> Silent(log, h)
    {
      hide Remembers, Silent;
      UnknownIffSilent(knownPeers, peersToReap, reaping, log, h);
    }

    /** Removes one pair of the snapshot from its channel, the indices and its range. */
    method ReapService(s: string, h: HostPort)
      requires Valid() && reaping.Some? && Has(reaping.value, h, s) && h !in knownPeers
      modifies this`channels, this`partialRanges, this`asked, this`connectedServicePeers, this`connectedPeerServices,
        this`knownPeers, this`log
      ensures Valid() && knownPeers == old(knownPeers)
      ensures log == old(log) + [Reaped(h, s)] && !Within(old(log), h, s, 2)
      ensures channels == if s in old(channels)
        then old(channels)[s := old(channels)[s].(peers := old(channels)[s].peers - {h})] else old(channels)
      ensures PairsErased(old(connectedServicePeers), old(connectedPeerServices), h, {s})
      ensures old(Calm()) ==> Calm()
    {
      hide QueueOk, LinksNow, PairsErased, ServicesOk, RolesOk, ReaperOk, Lists, AllFit, Sound, RolesAgree, Remembers,
        Safe, RemoveWorker, Within, Level, Has, Erased;
      ListsTakenBack(channels, log, s, h, Reaped(h, s));
      if s in channels {
        RemoveChannelPeer(s, h);
      }
      ErasePair(s, h);
      ForgetAd(s, h);
    }

    /** Against the indices before: a host's pairs with some services are erased, under partial affinity. */
    ghost predicate PairsErased(servicePeers: Index, peerServices: Index, h: HostPort, services: set<string>)
      reads this`connectedServicePeers, this`connectedPeerServices, this`partialAffinityEnabled
    {
      Erased(servicePeers, connectedServicePeers, peerServices, connectedPeerServices,
             h, if partialAffinityEnabled then services else {})
    }

    /** The index half of `deletePeerIndex`. */
    method ErasePair(s: string, h: HostPort)
      requires Sound(LinksNow())
      modifies this`asked, this`connectedServicePeers, this`connectedPeerServices
      ensures Sound(LinksNow())
      ensures LinksNow() == if partialAffinityEnabled then Erase(old(LinksNow()), s, h) else old(LinksNow())
      ensures PairsErased(old(connectedServicePeers), old(connectedPeerServices), h, {s})
    {
      hide Sound;
      EraseIsSound(LinksNow(), s, h);
      if partialAffinityEnabled {
        connectedServicePeers := Delete(connectedServicePeers, s, h);
        connectedPeerServices := Delete(connectedPeerServices, h, s);
        asked := asked - {(s, h)};
      }
    }

    /** The other half: a host that is not known has nothing to forget. */
    method ForgetAd(s: string, h: HostPort)
      requires ReaperOk() && QueueOk() && reaping.Some? && Has(reaping.value, h, s) && h !in knownPeers
      modifies this`knownPeers, this`log
      ensures ReaperOk() && QueueOk() && knownPeers == old(knownPeers)
      ensures log == old(log) + [Reaped(h, s)] && !Within(old(log), h, s, 2)
    {
      hide AllAsked, Remembers, Safe, Within;
      ReapIsSafe(knownPeers, peersToReap, reaping.value, log, h, s);
      knownPeers := Delete(knownPeers, h, s);
      log := log + [Reaped(h, s)];
      QueueStays(peersToConnect, connecting, old(log));
    }

    /** The channels after a host was taken out of some services. */
    ghost predicate TakenOut(before: map<string, Channel>, h: HostPort, services: set<string>)
      reads this`channels
    {
      && channels.Keys == before.Keys
      && forall s :: s in before ==>
           channels[s] == if s in services then before[s].(peers := before[s].peers - {h}) else before[s]
    }

    /**
      One item of a reap run. Pairs are removed only when nothing advertised them since before the
      previous run took its snapshot; a host that is known again keeps all its services.
     */
    method ReapSinglePeer(h: HostPort) returns (reaped: bool)
      requires Valid() && reaping.Some? && h in reaping.value
      modifies this`channels, this`partialRanges, this`asked, this`connectedServicePeers, this`connectedPeerServices,
        this`knownPeers, this`draining, this`log
      ensures Valid() && knownPeers == old(knownPeers)
      ensures reaped <==>
        Silent(old(log), h) && h in topPeers && (h in old(draining) ==> old(draining)[h] == PruneDrain)
      ensures TakenOut(old(channels), h, if reaped then Level(reaping.value, h) else {})
      ensures draining == if reaped then old(draining)[h := ReapDrain] else old(draining)
      ensures reaped ==> forall s :: s in Level(reaping.value, h) ==> Reaped(h, s) in log
      ensures PairsErased(old(connectedServicePeers), old(connectedPeerServices), h,
                          if reaped then Level(reaping.value, h) else {})
      ensures old(Calm()) ==> Calm()
    {
      hide ServicesOk, RolesOk, ReaperOk, ListOk, AllFit, Sound, RolesAgree, Remembers, Safe, Within, Level;
      UnknownIsSilent(h);
      reaped := Reapable(h);
      if reaped {
        ReapServices(h);
        draining := draining[h := ReapDrain];
      }
    }

    /** Takes a host out of every service its snapshot entry lists. */
    method ReapServices(h: HostPort)
      requires Valid() && reaping.Some? && h in reaping.value && h !in knownPeers
      modifies this`channels, this`partialRanges, this`asked, this`connectedServicePeers, this`connectedPeerServices,
        this`knownPeers, this`log
      ensures Valid() && knownPeers == old(knownPeers)
      ensures TakenOut(old(channels), h, Level(reaping.value, h))
      ensures forall s :: s in Level(reaping.value, h) ==> Reaped(h, s) in log
      ensures PairsErased(old(connectedServicePeers), old(connectedPeerServices), h, Level(reaping.value, h))
      ensures old(Calm()) ==> Calm()
    {
      hide ServicesOk, RolesOk, ReaperOk, ListOk, AllFit, Sound, RolesAgree, Remembers, Safe, Within, Erased;
      ErasedNone(connectedServicePeers, connectedPeerServices, h);
      ghost var done: set<string> := {};
      var todo := Level(reaping.value, h);
      while todo != {}
        invariant Valid() && knownPeers == old(knownPeers)
        invariant done + todo == Level(reaping.value, h)
        invariant TakenOut(old(channels), h, done)
        invariant PairsErased(old(connectedServicePeers), old(connectedPeerServices), h, done)
        invariant forall s :: s in done ==> Reaped(h, s) in log
        invariant old(Calm()) ==> Calm()
      {
        var s :| s in todo;
        ReapNext(s, h, old(channels), old(connectedServicePeers), old(connectedPeerServices), done);
        todo, done := todo - {s}, done + {s};
      }
    }

    /** One more service of the host, on top of those done. */
    method ReapNext(s: string, h: HostPort, ghost before: map<string, Channel>,
                    ghost servicePeers: Index, ghost peerServices: Index, ghost done: set<string>)
      requires Valid() && reaping.Some? && s in Level(reaping.value, h) && h !in knownPeers
      requires TakenOut(before, h, done) && PairsErased(servicePeers, peerServices, h, done)
      modifies this`channels, this`partialRanges, this`asked, this`connectedServicePeers, this`connectedPeerServices,
        this`knownPeers, this`log
      ensures Valid() && knownPeers == old(knownPeers) && log == old(log) + [Reaped(h, s)]
      ensures TakenOut(before, h, done + {s}) && PairsErased(servicePeers, peerServices, h, done + {s})
      ensures old(Calm()) ==> Calm()
    {
      hide ServicesOk, RolesOk, ReaperOk, ListOk, AllFit, Sound, RolesAgree, Remembers, Safe, Within, Erased;
      HasLevel(reaping.value, h, s);
      ghost var index, index' := connectedServicePeers, connectedPeerServices;
      ReapService(s, h);
      ErasedTwice(servicePeers, index, connectedServicePeers, peerServices, index', connectedPeerServices, h,
                  if partialAffinityEnabled then done else {}, if partialAffinityEnabled then {s} else {});
      assert (if partialAffinityEnabled then done else {}) + (if partialAffinityEnabled then {s} else {})
          == if partialAffinityEnabled then done + {s} else {};
    }

    // ----- the prune and connect queues -----

    /** The relay means to be connected to the host: some exit channel lists it, and has it connected if it matters. */
    ghost predicate Serves(h: HostPort)
      reads this`channels, this`connectedServicePeers, this`partialAffinityEnabled
    {
      exists s :: ListedBy(channels, s, h) && (partialAffinityEnabled ==> Has(connectedServicePeers, s, h))
    }

    /**
      What the history says of a host of a prune run: under partial affinity, that it was asked to be connected
      since the run took its queue, for a service it advertised; otherwise, that it advertised since, or
      before, and in no case that this was taken back.
     */
    ghost predicate WantedSincePrune(h: HostPort)
      reads this`log, this`asked, this`partialAffinityEnabled
    {
      exists s :: if partialAffinityEnabled then Listed(log, h, s) && (s, h) in asked
                  else AskedSincePrune(log, h, s) || KeptSincePrune(log, h, s)
    }

    lemma ServesIfWanted(h: HostPort)
      requires Sound(LinksNow()) && ListOk() && pruning.Some? && h in pruning.value
      ensures Serves(h) <==> WantedSincePrune(h)
    {
      hide Listed, AskedSincePrune, KeptSincePrune, Has;
      forall s
        ensures ListedBy(channels, s, h) <==> Listed(log, h, s)
        ensures Has(connectedServicePeers, s, h) <==> (s, h) in asked
        ensures Listed(log, h, s) <==> AskedSincePrune(log, h, s) || KeptSincePrune(log, h, s)
      {
        ListedSincePrune(log, h, s);
      }
    }

    /**
      A prune run takes the queue; runs do not overlap, as the interval scanner guarantees. Under partial affinity
      none of its hosts serves anything. Otherwise one does exactly when another exit channel lists it: what
      queued it was one service's change to forwarding, and only the index that is not kept would tell.
     */
    method BeginPrune() returns (collection: map<HostPort, Time>)
      requires Valid() && pruning.None?
      modifies this`peersToPrune, this`pruning, this`asked, this`log
      ensures Valid() && pruning == Some(collection) && log == old(log) + [PruneRun]
      ensures collection == old(peersToPrune) && peersToPrune == map[]
      ensures forall h, s :: h in collection ==> !Has(connectedServicePeers, s, h)
      ensures forall h :: h in collection ==>
        (Serves(h) <==> !partialAffinityEnabled && ListedSomewhere(old(log), h))
    {
      hide ServicesOk, RolesOk, ReaperOk, AllFit, Sound, Level, Lists, Serves;
      EmptyPrune(LinksNow());
      ListsOnRun(channels, log, PruneRun);
      forall h | h in peersToPrune ensures Serves(h) <==> !partialAffinityEnabled && ListedSomewhere(log, h) {
        QueuedServes(h);
      }
      MarkOther(PruneRun);
      collection := peersToPrune;
      peersToPrune := map[];
      pruning, asked := Some(collection), {};
    }

    /** Of a queued host, before a run takes it. */
    lemma QueuedServes(h: HostPort)
      requires Sound(LinksNow()) && ListOk() && h in peersToPrune
      ensures Serves(h) <==> !partialAffinityEnabled && ListedSomewhere(log, h)
    {
      hide Has, Level;
      EmptyPrune(LinksNow());
      assert forall s :: !Has(connectedServicePeers, s, h);
      if ListedSomewhere(log, h) {
        var s :| Listed(log, h, s);
        assert ListedBy(channels, s, h);
      }
      if s :| ListedBy(channels, s, h) {
        IsListedSomewhere(log, h, s);
      }
    }

    method EndPrune()
      requires Valid() && pruning.Some?
      modifies this`pruning
      ensures Valid() && pruning.None?
    {
      hide ServicesOk, RolesOk, ReaperOk, ListOk, Sound;
      EndOfPrune(LinksNow());
      pruning := None;
    }

    /**
      One item of a prune run. Unlike connecting, it does not look whether its reason still stands: the host it
      drains serves something if and only if the history says that it is wanted.
     */
    method PruneSinglePeer(h: HostPort) returns (drained: bool)
      requires Valid() && pruning.Some? && h in pruning.value
      modifies this`draining
      ensures Valid()
      ensures drained <==> h in topPeers && h !in old(draining)
      ensures draining == if drained then old(draining)[h := PruneDrain] else old(draining)
      ensures Serves(h) <==> WantedSincePrune(h)
    {
      hide ServicesOk, RolesOk, ReaperOk, ListOk, Sound, LinksNow, Serves, WantedSincePrune;
      ServesIfWanted(h);
      drained := h in topPeers && h !in draining;
      if drained {
        draining := draining[h := PruneDrain];
      }
    }

    /** A connect run takes the queue. */
    method BeginConnect() returns (collection: map<HostPort, ConnectInfo>)
      requires Valid() && connecting.None?
      modifies this`peersToConnect, this`connecting
      ensures Valid() && connecting == Some(collection)
      ensures collection == old(peersToConnect) && peersToConnect == map[]
      ensures collection.Keys !! peersToPrune.Keys
    {
      hide ServicesOk, RolesOk, ReaperOk, ListOk, AllFit, Sound;
      EmptyConnect(LinksNow());
      collection := peersToConnect;
      peersToConnect := map[];
      connecting := Some(collection);
    }

    method EndConnect()
      requires Valid() && connecting.Some?
      modifies this`connecting
      ensures Valid() && connecting.None?
    {
      hide PeersOk, RolesOk, ReaperOk, ListOk;
      connecting := None;
    }

    /**
      One item of a connect run: dials the peer, unless it has meanwhile been queued for pruning, left its
      channel or begun to drain.
     */
    method ConnectSinglePeer(h: HostPort) returns (dialled: bool)
      requires Valid() && connecting.Some? && h in connecting.value
      modifies this`connectedOut
      ensures Valid()
      ensures var s := connecting.value[h].serviceName;
        dialled <==> h !in peersToPrune && s in channels && h in channels[s].peers && h !in draining
      ensures connectedOut == if dialled then old(connectedOut) + {h} else old(connectedOut)
      ensures Ad(h, connecting.value[h].serviceName) in log
      ensures Listed(log, h, connecting.value[h].serviceName) ==> (dialled <==> h !in peersToPrune && h !in draining)
    {
      hide PeersOk, RolesOk, ReaperOk, ListOk;
      var s := connecting.value[h].serviceName;
      dialled := h !in peersToPrune && s in channels && h in channels[s].peers && h !in draining;
      ItemIsListed(h);
      if dialled {
        connectedOut := connectedOut + {h};
      }
    }

    /** An item of a connect run was advertised, and is a peer while that stands. */
    lemma ItemIsListed(h: HostPort)
      requires ListOk() && QueueOk() && connecting.Some? && h in connecting.value
      ensures var s := connecting.value[h].serviceName;
        && Ad(h, s) in log
        && (Listed(log, h, s) ==> s in channels && h in channels[s].peers)
    {
      var s := connecting.value[h].serviceName;
      assert ListedBy(channels, s, h) <==> Listed(log, h, s);
    }

    // ----- the transport -----

    method ConnectionChanged(h: HostPort, up: bool)
      requires Valid()
      modifies this`connectedOut
      ensures Valid() && connectedOut == if up then old(connectedOut) + {h} else old(connectedOut) - {h}
    {
      hide PeersOk, RolesOk, ReaperOk, ListOk;
      connectedOut := if up then connectedOut + {h} else connectedOut - {h};
    }

    /** A drain ends: a pruned peer stays known to the transport, a reaped or withdrawn one is deleted. */
    method DrainFinished(h: HostPort)
      requires Valid() && h in draining
      modifies this`draining, this`topPeers, this`connectedOut
      ensures Valid() && draining == old(draining) - {h} && connectedOut == old(connectedOut) - {h}
      ensures topPeers == if old(draining)[h] == PruneDrain then old(topPeers) else old(topPeers) - {h}
    {
      hide PeersOk, RolesOk, ReaperOk, ListOk;
      if draining[h] != PruneDrain {
        topPeers := topPeers - {h};
      }
      draining := draining - {h};
      connectedOut := connectedOut - {h};
    }
  }

  // ----- affinity changes -----

  /** What a change starts from. */
  datatype Beginning = Beginning(ranges: map<string, Range>, index: Index, measure: nat,
                                 arePeers: bool, settles: bool, converges: bool, empties: bool)

  class AffinityChange {
    const proxy: ServiceDispatchHandler
    const serviceName: string
    const now: Time
    var noop: bool
    var audited: bool
    var toConnect: set<HostPort>
    var toDisconnect: set<HostPort>
    var isAffine: set<HostPort>

    /** The plan is the one for the handler's current state. */
    ghost predicate Planned()
      reads this, proxy
    {
      && proxy.Affinable(serviceName)
      && isAffine == Affine(proxy.partialRanges[serviceName])
      && toConnect == ToConnect(isAffine, proxy.Connected(serviceName),
                                proxy.channels[serviceName].peers, proxy.connectedOut)
      && toDisconnect == ToDisconnect(isAffine, proxy.Connected(serviceName), proxy.peersToPrune.Keys)
    }

    /** Plans, then audits until nothing is stale, a bounded number of times. */
    constructor (proxy: ServiceDispatchHandler, serviceName: string, now: Time)
      requires proxy.Affinable(serviceName)
      modifies proxy`partialRanges, proxy`asked, proxy`connectedServicePeers
      ensures this.proxy == proxy && this.serviceName == serviceName && this.now == now
      ensures Planned() && (noop <==> toConnect + toDisconnect == {})
      ensures noop || audited <==> old(proxy.SettlesIn(serviceName, 3, false))
      ensures noop <==> old(proxy.EmptiesIn(serviceName, 3))
      ensures noop || audited || isAffine == proxy.Connected(serviceName) <==>
        old(proxy.SettlesIn(serviceName, 3, true))
      ensures audited ==> toConnect + toDisconnect <= proxy.channels[serviceName].peers
      ensures !audited ==> proxy.Measure(serviceName) + 3 <= old(proxy.Measure(serviceName))
      ensures old(proxy.WorkersArePeers(serviceName)) ==> audited
      ensures OnlyGone(old(proxy.partialRanges), old(proxy.connectedServicePeers), proxy.partialRanges, proxy.connectedServicePeers,
                       serviceName, proxy.channels[serviceName].peers)
    {
      this.proxy, this.serviceName, this.now := proxy, serviceName, now;
      noop, audited := false, false;
      toConnect, toDisconnect, isAffine := {}, {}, {};
      new;
      AuditRounds();
    }

    /** What holds after `i` rounds, of a change that began with `was`. */
    ghost predicate After(i: nat, was: Beginning)
      reads this, proxy
    {
      && Planned() && i <= MAX_AFFINITY_AUDIT_ROUNDS && (noop <==> toConnect + toDisconnect == {})
      && (was.settles <==> audited || proxy.SettlesIn(serviceName, MAX_AFFINITY_AUDIT_ROUNDS - i, false))
      && (was.empties <==> if audited then noop else proxy.EmptiesIn(serviceName, MAX_AFFINITY_AUDIT_ROUNDS - i))
      && (was.converges <==> audited || proxy.SettlesIn(serviceName, MAX_AFFINITY_AUDIT_ROUNDS - i, true))
      && (audited ==> toConnect + toDisconnect <= proxy.channels[serviceName].peers)
      && (!audited ==> proxy.Measure(serviceName) + i <= was.measure)
      && (was.arePeers ==>
            && proxy.WorkersArePeers(serviceName)
            && (i > 0 ==> proxy.StaleNow(serviceName) == {})
            && (i > 1 ==> audited))
      && OnlyGone(was.ranges, was.index, proxy.partialRanges, proxy.connectedServicePeers,
                  serviceName, proxy.channels[serviceName].peers)
    }

    ghost function BeginningNow(): Beginning
      requires proxy.Affinable(serviceName)
      reads this, proxy
    {
      Beginning(proxy.partialRanges, proxy.connectedServicePeers, proxy.Measure(serviceName),
                proxy.WorkersArePeers(serviceName), proxy.SettlesIn(serviceName, MAX_AFFINITY_AUDIT_ROUNDS, false),
                proxy.SettlesIn(serviceName, MAX_AFFINITY_AUDIT_ROUNDS, true),
                proxy.EmptiesIn(serviceName, MAX_AFFINITY_AUDIT_ROUNDS))
    }

    method AuditRounds()
      requires proxy.Affinable(serviceName) && !noop && !audited
      modifies this`noop, this`audited, this`toConnect, this`toDisconnect, this`isAffine, proxy`partialRanges,
        proxy`asked, proxy`connectedServicePeers
      ensures Planned() && (noop <==> toConnect + toDisconnect == {})
      ensures noop || audited <==> old(proxy.SettlesIn(serviceName, MAX_AFFINITY_AUDIT_ROUNDS, false))
      ensures noop <==> old(proxy.EmptiesIn(serviceName, MAX_AFFINITY_AUDIT_ROUNDS))
      ensures noop || audited || isAffine == proxy.Connected(serviceName) <==>
        old(proxy.SettlesIn(serviceName, MAX_AFFINITY_AUDIT_ROUNDS, true))
      ensures audited ==> toConnect + toDisconnect <= proxy.channels[serviceName].peers
      ensures !audited ==> proxy.Measure(serviceName) + 3 <= old(proxy.Measure(serviceName))
      ensures old(proxy.WorkersArePeers(serviceName)) ==> audited
      ensures OnlyGone(old(proxy.partialRanges), old(proxy.connectedServicePeers), proxy.partialRanges, proxy.connectedServicePeers,
                       serviceName, proxy.channels[serviceName].peers)
    {
      hide AllFit, Sound, Coherent, Direct, Affine, ToConnect, ToDisconnect, Stale, OnlyGone, Settles, Empties;
      ghost var was := BeginningNow();
      OnlyGoneNone(was.ranges, was.index, serviceName, proxy.channels[serviceName].peers);
      Plan(was.ranges, was.index);
      var i := 0;
      while i < MAX_AFFINITY_AUDIT_ROUNDS && !audited
        invariant 0 <= i && After(i, was)
      {
        NextRound(i, was);
        i := i + 1;
      }
      EmptyPlanSettles();
    }

    method NextRound(ghost i: nat, ghost was: Beginning)
      requires After(i, was) && i < MAX_AFFINITY_AUDIT_ROUNDS && !audited
      modifies this`noop, this`audited, this`toConnect, this`toDisconnect, this`isAffine, proxy`partialRanges,
        proxy`asked, proxy`connectedServicePeers
      ensures After(i + 1, was)
    {
      hide ServiceDispatchHandler.StaleNow, ServiceDispatchHandler.SettlesIn, ServiceDispatchHandler.Measure,
        ServiceDispatchHandler.WorkersArePeers, AllFit, Sound, Coherent, Direct, Affine, ToConnect, ToDisconnect,
        Stale, OnlyGone, Settles, Empties;
      ghost var ranges, index := proxy.partialRanges, proxy.connectedServicePeers;
      var failed := Audit(MAX_AFFINITY_AUDIT_ROUNDS - i - 1);
      OnlyGoneTwice(was.ranges, was.index, ranges, index, proxy.partialRanges, proxy.connectedServicePeers,
                    serviceName, proxy.channels[serviceName].peers);
      audited := !failed;
    }

    /** Without audits left, only an empty plan counts as settled. */
    lemma EmptyPlanSettles()
      requires Planned()
      ensures proxy.SettlesIn(serviceName, 0, false) <==> toConnect + toDisconnect == {}
      ensures proxy.EmptiesIn(serviceName, 0) <==> toConnect + toDisconnect == {}
      ensures proxy.SettlesIn(serviceName, 0, true) <==>
        toConnect + toDisconnect == {} || isAffine == proxy.Connected(serviceName)
    {
      AffineIsAffineOf(proxy.partialRanges[serviceName]);
    }

    method Compute()
      requires proxy.Affinable(serviceName)
      modifies this`noop, this`toConnect, this`toDisconnect, this`isAffine, proxy`partialRanges
      ensures Planned()
      ensures noop == (old(noop) || toConnect + toDisconnect == {})
      ensures proxy.partialRanges ==
        old(proxy.partialRanges)[serviceName := ComputeIfNeeded(old(proxy.partialRanges)[serviceName])]
    {
      hide Sound, ToConnect, ToDisconnect, AllFit, Coherent, Direct;
      var affine := proxy.AffineWorkers(serviceName);
      isAffine, toConnect, toDisconnect := PlanChange(
        affine, Level(proxy.connectedServicePeers, serviceName),
        proxy.channels[serviceName].peers, proxy.connectedOut, proxy.peersToPrune.Keys);
      if toConnect == {} && toDisconnect == {} {
        noop := true;
      }
    }

    /** One audit round; fails, and plans again, when something was stale. */
    method Audit(ghost n: nat) returns (failed: bool)
      requires Planned() && (noop <==> toConnect + toDisconnect == {})
      modifies this`noop, this`toConnect, this`toDisconnect, this`isAffine, proxy`partialRanges, proxy`asked,
        proxy`connectedServicePeers
      ensures Planned() && (noop <==> toConnect + toDisconnect == {})
      ensures old(proxy.SettlesIn(serviceName, n + 1, false)) <==> !failed || proxy.SettlesIn(serviceName, n, false)
      ensures old(proxy.SettlesIn(serviceName, n + 1, true)) <==> !failed || proxy.SettlesIn(serviceName, n, true)
      ensures old(proxy.EmptiesIn(serviceName, n + 1)) <==> if failed then proxy.EmptiesIn(serviceName, n) else noop
      ensures failed <==> old(proxy.StaleNow(serviceName)) != {}
      ensures !failed ==> toConnect + toDisconnect <= proxy.channels[serviceName].peers
      ensures failed ==> proxy.Measure(serviceName) < old(proxy.Measure(serviceName))
      ensures !failed ==> proxy.Measure(serviceName) == old(proxy.Measure(serviceName))
      ensures old(proxy.WorkersArePeers(serviceName)) ==>
        proxy.WorkersArePeers(serviceName) && proxy.StaleNow(serviceName) == {}
      ensures OnlyGone(old(proxy.partialRanges), old(proxy.connectedServicePeers), proxy.partialRanges, proxy.connectedServicePeers,
                       serviceName, proxy.channels[serviceName].peers)
    {
      hide AllFit, Sound, Coherent, Direct, Affine, ToConnect, ToDisconnect, Stale, OnlyGone, Shrunk, Settles,
        Empties;
      ghost var ranges, index := proxy.partialRanges, proxy.connectedServicePeers;
      ghost var r, connected, peers := ranges[serviceName], proxy.Connected(serviceName), proxy.channels[serviceName].peers;
      StaleIsPlannedNonPeers(isAffine, connected, peers, proxy.connectedOut, proxy.peersToPrune.Keys);
      failed := proxy.AuditAway(serviceName, toConnect, toDisconnect);
      ghost var r' := proxy.partialRanges[serviceName];
      AuditRound(r, r', connected, proxy.Connected(serviceName), peers, proxy.connectedOut, proxy.peersToPrune.Keys);
      AuditSettles(r, r', connected, peers, proxy.connectedOut, proxy.peersToPrune.Keys, n, false);
      AuditSettles(r, r', connected, peers, proxy.connectedOut, proxy.peersToPrune.Keys, n, true);
      AuditEmpties(r, r', connected, peers, proxy.connectedOut, proxy.peersToPrune.Keys, n);
      OnlyGoneAudit(ranges, index, r', proxy.connectedServicePeers, serviceName, peers, (toConnect + toDisconnect) - peers);
      if failed {
        Plan(ranges, index);
      } else {
        forall w | w in toConnect + toDisconnect ensures w in peers {
          assert w !in (toConnect + toDisconnect) - peers;
        }
      }
    }

    /** Plans, at first and again after each failed audit. */
    method Plan(ghost ranges: map<string, Range>, ghost index: Index)
      requires proxy.Affinable(serviceName)
      requires OnlyGone(ranges, index, proxy.partialRanges, proxy.connectedServicePeers,
                        serviceName, proxy.channels[serviceName].peers)
      requires noop ==> toConnect + toDisconnect == {}
      modifies this`noop, this`toConnect, this`toDisconnect, this`isAffine, proxy`partialRanges
      ensures Planned()
      ensures noop == (old(noop) || toConnect + toDisconnect == {})
      ensures proxy.StaleNow(serviceName) == old(proxy.StaleNow(serviceName))
      ensures forall n: nat :: proxy.EmptiesIn(serviceName, n) <==> old(proxy.EmptiesIn(serviceName, n))
      ensures forall n: nat, anyway ::
        proxy.SettlesIn(serviceName, n, anyway) <==> old(proxy.SettlesIn(serviceName, n, anyway))
      ensures proxy.Measure(serviceName) == old(proxy.Measure(serviceName))
      ensures proxy.WorkersArePeers(serviceName) == old(proxy.WorkersArePeers(serviceName))
      ensures OnlyGone(ranges, index, proxy.partialRanges, proxy.connectedServicePeers,
                       serviceName, proxy.channels[serviceName].peers)
    {
      hide AllFit, Sound, Coherent, Direct, Affine, ToConnect, ToDisconnect, Stale, OnlyGone, Shrunk, Settles,
        Empties;
      ghost var r, peers := proxy.partialRanges[serviceName], proxy.channels[serviceName].peers;
      ReadyIsValid(r);
      SameLists(r, ComputeIfNeeded(r));
      OnlyGoneCompute(proxy.partialRanges, proxy.connectedServicePeers, serviceName, peers);
      OnlyGoneTwice(ranges, index, proxy.partialRanges, proxy.connectedServicePeers,
                    proxy.partialRanges[serviceName := ComputeIfNeeded(r)], proxy.connectedServicePeers, serviceName, peers);
      Compute();
    }

    /** The service's connected peers are `connected`, every other service's are as they were in `index`. */
    ghost predicate Reached(connected: set<HostPort>, index: Index)
      reads this, proxy
    {
      && Sound(proxy.LinksNow())
      && forall x :: Level(proxy.connectedServicePeers, x) == if x == serviceName then connected else Level(index, x)
    }

    method ConnectAll()
      requires Sound(proxy.LinksNow()) && proxy.partialAffinityEnabled
      requires serviceName in proxy.channels && toConnect <= proxy.channels[serviceName].peers
      modifies proxy`asked, proxy`connectedServicePeers, proxy`connectedPeerServices, proxy`peersToPrune,
        proxy`peersToConnect, proxy`draining
      ensures proxy.draining.Keys <= old(proxy.draining.Keys)
      ensures Reached(old(proxy.Connected(serviceName)) + toConnect, old(proxy.connectedServicePeers))
      ensures forall w :: w in toConnect ==> proxy.OutOrQueued(w)
      ensures forall w :: w !in toConnect ==>
        Level(proxy.connectedPeerServices, w) == Level(old(proxy.connectedPeerServices), w)
      ensures forall w :: w in toConnect ==> proxy.OnTheWay(serviceName, w)
      ensures proxy.QueuedOnlyFor(serviceName, old(proxy.peersToConnect))
      ensures forall w :: w !in toConnect ==> Get(proxy.draining, w) == Get(old(proxy.draining), w)
    {
      hide Sound, Level, ServiceDispatchHandler.LinksNow, ServiceDispatchHandler.OutOrQueued;
      ghost var connected, index := proxy.Connected(serviceName), proxy.connectedServicePeers;
      var todo := toConnect;
      while todo != {}
        invariant todo <= toConnect
        invariant Reached(connected + (toConnect - todo), index)
        invariant proxy.draining.Keys <= old(proxy.draining.Keys)
        invariant forall w :: w in toConnect - todo ==> proxy.OnTheWay(serviceName, w)
        invariant proxy.QueuedOnlyFor(serviceName, old(proxy.peersToConnect))
        invariant forall w :: w !in toConnect ==> Get(proxy.draining, w) == Get(old(proxy.draining), w)
        invariant forall w :: w !in toConnect ==>
          Level(proxy.connectedPeerServices, w) == Level(old(proxy.connectedPeerServices), w)
        invariant forall w :: w in toConnect - todo ==> proxy.OutOrQueued(w)
      {
        var worker :| worker in todo;
        assert worker in proxy.channels[serviceName].peers;
        ConnectOne(worker);
        todo := todo - {worker};
      }
    }

    method ConnectOne(worker: HostPort)
      requires Sound(proxy.LinksNow()) && proxy.partialAffinityEnabled
      modifies proxy`asked, proxy`connectedServicePeers, proxy`connectedPeerServices, proxy`peersToPrune,
        proxy`peersToConnect, proxy`draining
      ensures proxy.draining.Keys <= old(proxy.draining.Keys)
      ensures Reached(old(proxy.Connected(serviceName)) + {worker}, old(proxy.connectedServicePeers))
      ensures proxy.OutOrQueued(worker) && forall x :: old(proxy.OutOrQueued(x)) ==> proxy.OutOrQueued(x)
      ensures forall w :: w !in {worker} ==>
        Level(proxy.connectedPeerServices, w) == Level(old(proxy.connectedPeerServices), w)
      ensures proxy.OnTheWay(serviceName, worker)
      ensures forall x :: old(proxy.OnTheWay(serviceName, x)) ==> proxy.OnTheWay(serviceName, x)
      ensures forall x :: x in proxy.peersToConnect && x != worker ==>
        x in old(proxy.peersToConnect) && old(proxy.peersToConnect)[x] == proxy.peersToConnect[x]
      ensures worker in proxy.peersToConnect ==>
        || proxy.peersToConnect[worker].serviceName == serviceName
        || (worker in old(proxy.peersToConnect) && old(proxy.peersToConnect)[worker] == proxy.peersToConnect[worker])
      ensures forall w :: w !in {worker} ==> Get(proxy.draining, w) == Get(old(proxy.draining), w)
    {
      hide Sound, Connect;
      ConnectIsSound(proxy.LinksNow(), true, proxy.NeedsDial(worker), serviceName, worker, now);
      ConnectLevels(proxy.LinksNow(), proxy.NeedsDial(worker), serviceName, worker, now);
      proxy.EnsurePeerConnected(serviceName, worker, now);
    }

    method DisconnectAll()
      requires Sound(proxy.LinksNow()) && proxy.partialAffinityEnabled
      requires serviceName in proxy.channels && toDisconnect <= proxy.channels[serviceName].peers
      modifies proxy`asked, proxy`connectedServicePeers, proxy`connectedPeerServices, proxy`peersToPrune,
        proxy`peersToConnect
      ensures Reached(old(proxy.Connected(serviceName)) - toDisconnect, old(proxy.connectedServicePeers))
      ensures forall h :: h !in toDisconnect && old(proxy.OutOrQueued(h)) ==> proxy.OutOrQueued(h)
      ensures forall h :: h in toDisconnect && Level(proxy.connectedPeerServices, h) == {} ==> h in proxy.peersToPrune
      ensures forall w :: w !in toDisconnect ==>
        Level(proxy.connectedPeerServices, w) == Level(old(proxy.connectedPeerServices), w)
      ensures forall x :: x !in toDisconnect && old(proxy.OnTheWay(serviceName, x)) ==> proxy.OnTheWay(serviceName, x)
      ensures forall x :: x in proxy.peersToConnect ==>
        x in old(proxy.peersToConnect) && old(proxy.peersToConnect)[x] == proxy.peersToConnect[x]
    {
      hide Sound, Level, ServiceDispatchHandler.LinksNow;
      ghost var connected, index := proxy.Connected(serviceName), proxy.connectedServicePeers;
      var todo := toDisconnect;
      while todo != {}
        invariant todo <= toDisconnect
        invariant Reached(connected - (toDisconnect - todo), index)
        invariant forall x :: x !in toDisconnect && old(proxy.OnTheWay(serviceName, x)) ==> proxy.OnTheWay(serviceName, x)
        invariant forall x :: x in proxy.peersToConnect ==>
          x in old(proxy.peersToConnect) && old(proxy.peersToConnect)[x] == proxy.peersToConnect[x]
        invariant forall w :: w !in toDisconnect ==>
          Level(proxy.connectedPeerServices, w) == Level(old(proxy.connectedPeerServices), w)
        invariant forall h :: h !in toDisconnect && old(proxy.OutOrQueued(h)) ==> proxy.OutOrQueued(h)
        invariant forall h :: h in toDisconnect - todo && Level(proxy.connectedPeerServices, h) == {} ==> h in proxy.peersToPrune
      {
        var worker :| worker in todo;
        assert worker in proxy.channels[serviceName].peers;
        DisconnectOne(worker);
        todo := todo - {worker};
      }
    }

    method DisconnectOne(worker: HostPort)
      requires Sound(proxy.LinksNow()) && proxy.partialAffinityEnabled
      modifies proxy`asked, proxy`connectedServicePeers, proxy`connectedPeerServices, proxy`peersToPrune,
        proxy`peersToConnect
      ensures Reached(old(proxy.Connected(serviceName)) - {worker}, old(proxy.connectedServicePeers))
      ensures forall h :: h != worker && old(proxy.OutOrQueued(h)) ==> proxy.OutOrQueued(h)
      ensures Level(proxy.connectedPeerServices, worker) == {} ==> worker in proxy.peersToPrune
      ensures forall h :: h != worker ==>
        && Level(proxy.connectedPeerServices, h) == Level(old(proxy.connectedPeerServices), h)
        && (h in proxy.peersToPrune <==> h in old(proxy.peersToPrune))
      ensures forall x :: x != worker && old(proxy.OnTheWay(serviceName, x)) ==> proxy.OnTheWay(serviceName, x)
      ensures forall x :: x in proxy.peersToConnect ==>
        x in old(proxy.peersToConnect) && old(proxy.peersToConnect)[x] == proxy.peersToConnect[x]
    {
      hide Sound, Disconnect, Level;
      DisconnectIsSound(proxy.LinksNow(), true, serviceName, worker, now);
      DisconnectLevels(proxy.LinksNow(), serviceName, worker, now);
      DisconnectQueues(proxy.LinksNow(), true, serviceName, worker, now);
      proxy.EnsurePeerDisconnected(serviceName, worker, now);
    }

    /** Carries out an audited plan; afterwards the connected peers are exactly the affine workers. */
    method Implement()
      requires Planned() && (audited ==> toConnect + toDisconnect <= proxy.channels[serviceName].peers)
      modifies proxy`asked, proxy`connectedServicePeers, proxy`connectedPeerServices, proxy`peersToPrune,
        proxy`peersToConnect, proxy`draining
      ensures proxy.draining.Keys <= old(proxy.draining.Keys)
      ensures proxy.Affinable(serviceName)
      ensures audited ==> Reached(isAffine, old(proxy.connectedServicePeers))
      ensures audited ==> forall w :: w in isAffine ==> proxy.OutOrQueued(w)
      ensures audited ==>
        forall w :: w in toDisconnect && Level(proxy.connectedPeerServices, w) == {} ==> w in proxy.peersToPrune
      ensures !audited ==> proxy.LinksNow() == old(proxy.LinksNow()) && proxy.draining == old(proxy.draining)
      ensures forall w :: w !in proxy.channels[serviceName].peers ==>
        Level(proxy.connectedPeerServices, w) == Level(old(proxy.connectedPeerServices), w)
      ensures audited ==> forall w :: w in isAffine ==>
        proxy.OnTheWay(serviceName, w) || (w in old(proxy.Connected(serviceName)) && w in proxy.connectedOut)
      ensures proxy.QueuedOnlyFor(serviceName, old(proxy.peersToConnect))
      ensures forall w :: w !in proxy.channels[serviceName].peers ==> Get(proxy.draining, w) == Get(old(proxy.draining), w)
    {
      hide Sound, AllFit, ToConnect, ToDisconnect, Ready, Affine, Level;
      if audited {
        NonePruned(proxy.LinksNow(), serviceName);
        PlanConverges(isAffine, proxy.Connected(serviceName), proxy.channels[serviceName].peers,
                      proxy.connectedOut, proxy.peersToPrune.Keys);
        PlanCoversAffine(isAffine, proxy.Connected(serviceName), proxy.channels[serviceName].peers,
                         proxy.connectedOut, proxy.peersToPrune.Keys);
        CarryOut();
      }
    }

    method CarryOut()
      requires Sound(proxy.LinksNow()) && proxy.partialAffinityEnabled && serviceName in proxy.channels
      requires toConnect + toDisconnect <= proxy.channels[serviceName].peers && toConnect !! toDisconnect
      modifies proxy`asked, proxy`connectedServicePeers, proxy`connectedPeerServices, proxy`peersToPrune,
        proxy`peersToConnect, proxy`draining
      ensures proxy.draining.Keys <= old(proxy.draining.Keys)
      ensures Reached(old(proxy.Connected(serviceName)) + toConnect - toDisconnect, old(proxy.connectedServicePeers))
      ensures forall w :: w in toConnect ==> proxy.OutOrQueued(w)
      ensures forall w :: w in toDisconnect && Level(proxy.connectedPeerServices, w) == {} ==> w in proxy.peersToPrune
      ensures forall w :: w !in toConnect + toDisconnect ==>
        Level(proxy.connectedPeerServices, w) == Level(old(proxy.connectedPeerServices), w)
      ensures forall w :: w in toConnect ==> proxy.OnTheWay(serviceName, w)
      ensures proxy.QueuedOnlyFor(serviceName, old(proxy.peersToConnect))
      ensures forall w :: w !in toConnect ==> Get(proxy.draining, w) == Get(old(proxy.draining), w)
    {
      hide Sound;
      ConnectAll();
      DisconnectAll();
    }
  }

  // ----- every run -----

  datatype Event =
    | Advertise(service: string, host: HostPort)
    | Unadvertise(service: string, host: HostPort)
    | Route(service: string)
    | Unproxied(service: string, peers: set<HostPort>)
    | RingChange(egress: Egress)
    | ServiceUpdate
    | Toggle(enabled: bool)
    | ReapBegin
    | ReapItem(host: HostPort)
    | ReapEnd
    | PruneBegin
    | PruneItem(host: HostPort)
    | PruneEnd
    | ConnectBegin
    | ConnectItem(host: HostPort)
    | ConnectEnd
    | Connection(host: HostPort, up: bool)
    | DrainEnd(host: HostPort)

  /** The services whose channels an event may make. */
  function Named(e: Event): set<string> {
    match e
    case Advertise(s, _) => {s}
    case Route(s) => {s}
    case Unproxied(s, _) => {s}
    case _ => {}
  }

  /** The exit loops of some services end, on the ring now or on the one an event brings. */
  ghost predicate AllEnd(e: Egress, names: set<string>) {
    forall s :: s in names ==> EndsFor(e, s)
  }

  ghost predicate Playable(e: Event, names: set<string>) {
    Named(e) <= names && (e.RingChange? ==> AllEnd(e.egress, names))
  }

  /** Plays one event, unless it cannot occur. */
  method Step(proxy: ServiceDispatchHandler, e: Event, now: Time, ghost names: set<string>) returns (threw: bool)
    requires proxy.Valid() && Playable(e, names)
    requires proxy.channels.Keys <= names && AllEnd(proxy.egress, names)
    modifies proxy
    ensures proxy.Valid() && proxy.channels.Keys <= names && AllEnd(proxy.egress, names)
    ensures old(proxy.Calm()) && !threw ==> proxy.Calm()
    ensures threw ==> e.Unadvertise?
  {
    hide ServiceDispatchHandler.Valid, ServiceDispatchHandler.Calm, EndsFor, IsExit, ExitHosts, Has;
    threw := false;
    match e
    case Advertise(s, h) => StepAd(proxy, s, h, now);
    case Unadvertise(s, h) => threw := StepUnad(proxy, s, h, now);
    case Route(s) => proxy.RouteRequest(s);
    case Unproxied(s, peers) =>
      if s !in proxy.channels {
        proxy.AddUnproxiedChannel(s, peers);
      }
    case RingChange(egress) =>
      if egress.whoami == proxy.hostPort {
        proxy.SetEgress(egress);
      }
    case ServiceUpdate => proxy.UpdateServiceChannels(now);
    case Toggle(enabled) => proxy.SetPartialAffinityEnabled(enabled);
    case Connection(h, up) => proxy.ConnectionChanged(h, up);
    case DrainEnd(h) =>
      if h in proxy.draining {
        proxy.DrainFinished(h);
      }
    case _ => StepRun(proxy, e);
  }

  method StepAd(proxy: ServiceDispatchHandler, s: string, h: HostPort, now: Time)
    requires proxy.Valid() && (s !in proxy.channels ==> EndsFor(proxy.egress, s))
    modifies proxy
    ensures proxy.Valid() && proxy.channels.Keys == old(proxy.channels.Keys) + {s} && proxy.egress == old(proxy.egress)
    ensures old(proxy.Calm()) ==> proxy.Calm()
  {
    hide ServiceDispatchHandler.Valid, ServiceDispatchHandler.Calm, ServiceDispatchHandler.KnownWorkers;
    hide ServiceDispatchHandler.ConvergesAdding, ServiceDispatchHandler.Converged, EndsFor, IsExit, Affine, Ready,
      Has;
    proxy.RefreshServicePeer(s, h, now);
  }

  method StepUnad(proxy: ServiceDispatchHandler, s: string, h: HostPort, now: Time) returns (threw: bool)
    requires proxy.Valid()
    modifies proxy
    ensures proxy.Valid() && proxy.channels.Keys == old(proxy.channels.Keys) && proxy.egress == old(proxy.egress)
    ensures old(proxy.Calm()) && !threw ==> proxy.Calm()
  {
    hide ServiceDispatchHandler.Valid, ServiceDispatchHandler.Calm, ServiceDispatchHandler.KnownWorkers;
    hide ServiceDispatchHandler.ConvergesRemoving, ServiceDispatchHandler.EmptiesRemoving;
    hide ServiceDispatchHandler.Converged, ServiceDispatchHandler.LinksNow, Level;
    threw := proxy.RemoveServicePeer(s, h, now);
  }

  /** The events of the reap, prune and connect runs. */
  method StepRun(proxy: ServiceDispatchHandler, e: Event)
    requires proxy.Valid()
    modifies proxy
    ensures proxy.Valid() && proxy.channels.Keys == old(proxy.channels.Keys) && proxy.egress == old(proxy.egress)
    ensures old(proxy.Calm()) ==> proxy.Calm()
  {
    hide ServiceDispatchHandler.Valid;
    hide ServiceDispatchHandler.ServicesOk, Level, Has;
    match e
    case ReapBegin =>
      if proxy.reaping.None? {
        var _ := proxy.BeginReap();
      }
    case ReapItem(h) =>
      if proxy.reaping.Some? && h in proxy.reaping.value {
        var _ := proxy.ReapSinglePeer(h);
      }
    case ReapEnd =>
      if proxy.reaping.Some? {
        proxy.EndReap();
      }
    case PruneBegin =>
      if proxy.pruning.None? {
        var _ := proxy.BeginPrune();
      }
    case PruneItem(h) =>
      if proxy.pruning.Some? && h in proxy.pruning.value {
        var _ := proxy.PruneSinglePeer(h);
      }
    case PruneEnd =>
      if proxy.pruning.Some? {
        proxy.EndPrune();
      }
    case ConnectBegin =>
      if proxy.connecting.None? {
        var _ := proxy.BeginConnect();
      }
    case ConnectItem(h) =>
      if proxy.connecting.Some? && h in proxy.connecting.value {
        var _ := proxy.ConnectSinglePeer(h);
      }
    case ConnectEnd =>
      if proxy.connecting.Some? {
        proxy.EndConnect();
      }
    case _ =>
  }

  /**
    Any run of the handler, from its creation on, over services whose exit loops end on every ring of the run:
    at its end the indices are inverse, no connected host is queued for pruning, no host is queued both
    ways, and the reaper never removed a pair that was advertised since before the previous run's snapshot.
   */
  method Play(hostPort: HostPort, perWorker: nat, perRelay: nat, egress: Egress, partial: bool,
              events: seq<Event>, times: seq<Time>, ghost names: set<string>)
    returns (proxy: ServiceDispatchHandler, threw: bool)
    requires egress.whoami == hostPort && |times| == |events|
    requires AllEnd(egress, names) && forall i :: 0 <= i < |events| ==> Playable(events[i], names)
    ensures proxy.Valid()
    ensures Inverse(proxy.connectedServicePeers, proxy.connectedPeerServices)
    ensures forall s, h :: Has(proxy.connectedServicePeers, s, h) ==> h !in proxy.peersToPrune
    ensures proxy.peersToConnect.Keys !! proxy.peersToPrune.Keys
    ensures forall h, s :: !(Has(proxy.knownPeers, h, s) && Has(proxy.peersToReap, h, s))
    ensures forall i :: 0 <= i < |proxy.log| && proxy.log[i].Reaped? ==>
      !Within(proxy.log[..i], proxy.log[i].host, proxy.log[i].service, 2)
    ensures forall s, h :: ListedBy(proxy.channels, s, h) <==> Listed(proxy.log, h, s)
    ensures !threw && proxy.partialAffinityEnabled ==>
      forall s, h :: s in proxy.channels && proxy.channels[s].mode == Exit ==>
        proxy.ConvergesAdding(s, h) && proxy.ConvergesRemoving(s, h)
    ensures !(exists i :: 0 <= i < |events| && events[i].Unadvertise?) ==> !threw
  {
    threw := false;
    proxy := new ServiceDispatchHandler(hostPort, perWorker, perRelay, egress, partial);
    for i := 0 to |events|
      invariant fresh(proxy) && proxy.Valid() && proxy.channels.Keys <= names && AllEnd(proxy.egress, names)
      invariant !threw ==> proxy.Calm()
      invariant threw ==> exists j :: 0 <= j < i && events[j].Unadvertise?
    {
      hide *;
      var threwNow := Step(proxy, events[i], times[i], names);
      threw := threw || threwNow;
    }
    Consequences(proxy.LinksNow(), proxy.log);
    if !threw && proxy.partialAffinityEnabled {
      proxy.CalmConverges();
    }
  }

  lemma Consequences(l: Links, log: History)
    requires Sound(l) && Safe(log)
    ensures forall s, h :: Has(l.servicePeers, s, h) ==> h !in l.toPrune
    ensures forall i :: 0 <= i < |log| && log[i].Reaped? ==> !Within(log[..i], log[i].host, log[i].service, 2)
  {
    forall s, h | Has(l.servicePeers, s, h) ensures h !in l.toPrune {
      ConnectedIsNotPruned(l, s, h);
    }
    forall i | 0 <= i < |log| && log[i].Reaped? ensures !Within(log[..i], log[i].host, log[i].service, 2) {
      ReapedOnlyWhenSilent(log, i);
    }
  }
}
