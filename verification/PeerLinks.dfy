/**
  Which peers a relay is connected to for which services, and which it is about to connect to
  or to prune (service-proxy.js). The two indices and the two queues change together.
 */
module PeerLinks {
  import opened HostOrder
  import opened PeerIndex

  datatype ConnectInfo = ConnectInfo(lastRefresh: Time, serviceName: string)

  /**
    The indices and queues, with what a prune run in progress could know: its hosts, and the pairs of service
    and host that were asked to be connected since it took its queue, and not disconnected since.
   */
  datatype Links = Links(
    servicePeers: Index,
    peerServices: Index,
    toPrune: map<HostPort, Time>,
    toConnect: map<HostPort, ConnectInfo>,
    pruneRun: set<HostPort>,
    asked: set<(string, HostPort)>)

  /** Every connected peer of a service has the service among its own. */
  ghost predicate Inverse(servicePeers: Index, peerServices: Index) {
    forall s, h :: Has(servicePeers, s, h) ==> Has(peerServices, h, s)
  }

  /** Full inverse, which the code does not keep: see StaleRemovalBreaksTranspose. */
  ghost predicate Transposed(servicePeers: Index, peerServices: Index) {
    forall s, h :: Has(servicePeers, s, h) <==> Has(peerServices, h, s)
  }

  /** No host that serves anything is queued for pruning. */
  ghost predicate PruneIdle(peerServices: Index, toPrune: map<HostPort, Time>) {
    forall h :: h in toPrune ==> Level(peerServices, h) == {}
  }

  /** A host of a prune run is connected exactly for the services it was asked for since. */
  ghost predicate AskedSince(l: Links) {
    forall s, h :: h in l.pruneRun ==> (Has(l.servicePeers, s, h) <==> (s, h) in l.asked)
  }

  ghost predicate Sound(l: Links) {
    && Inverse(l.servicePeers, l.peerServices)
    && PruneIdle(l.peerServices, l.toPrune)
    && l.toConnect.Keys !! l.toPrune.Keys
    && AskedSince(l)
  }

  /** Records that a host serves a service, without touching the connect queue. */
  function Record(l: Links, s: string, h: HostPort, now: Time): Links {
    l.(servicePeers := Add(l.servicePeers, s, h, now),
       peerServices := Add(l.peerServices, h, s, now),
       toPrune := l.toPrune - {h},
       asked := l.asked + {(s, h)})
  }

  function Erase(l: Links, s: string, h: HostPort): Links {
    l.(servicePeers := Delete(l.servicePeers, s, h), peerServices := Delete(l.peerServices, h, s),
       asked := l.asked - {(s, h)})
  }

  /** `ensurePeerConnected`; `dial` when the peer is not yet connected, or is draining. */
  function Connect(l: Links, partial: bool, dial: bool, s: string, h: HostPort, now: Time): Links {
    var recorded := if partial then Record(l, s, h, now) else l.(toPrune := l.toPrune - {h});
    if dial then recorded.(toConnect := recorded.toConnect[h := ConnectInfo(now, s)]) else recorded
  }

  /** `ensurePeerDisconnected`: a host left without services is queued for pruning. */
  function Disconnect(l: Links, partial: bool, s: string, h: HostPort, now: Time): Links {
    var erased := if partial then Erase(l, s, h) else l;
    if Level(erased.peerServices, h) == {} then
      erased.(toConnect := erased.toConnect - {h}, toPrune := erased.toPrune[h := now])
    else erased
  }

  /** `AffinityChange.removeWorker` forgets the peer on one side only. */
  function Forget(l: Links, s: string, h: HostPort): Links {
    l.(servicePeers := Drop(l.servicePeers, s, h), asked := l.asked - {(s, h)})
  }

  // ----- every step keeps the links sound -----

  lemma HasLevel(index: Index, a: string, b: string)
    ensures b in Level(index, a) <==> Has(index, a, b)
  {}

  lemma LevelsAgree(index: Index, index': Index, a: string)
    requires forall b :: Has(index', a, b) ==> Has(index, a, b)
    ensures Level(index', a) <= Level(index, a)
  {
    forall b | b in Level(index', a) ensures b in Level(index, a) {
      assert Has(index', a, b);
    }
  }

  lemma RecordIsSound(l: Links, s: string, h: HostPort, now: Time)
    requires Sound(l)
    ensures Sound(Record(l, s, h, now))
  {
    var l' := Record(l, s, h, now);
    forall x | x in l'.toPrune ensures Level(l'.peerServices, x) == {} {
      LevelsAgree(l.peerServices, l'.peerServices, x);
    }
  }

  lemma EraseIsSound(l: Links, s: string, h: HostPort)
    requires Sound(l)
    ensures Sound(Erase(l, s, h))
  {
    var l' := Erase(l, s, h);
    forall x | x in l'.toPrune ensures Level(l'.peerServices, x) == {} {
      LevelsAgree(l.peerServices, l'.peerServices, x);
    }
  }

  lemma ConnectIsSound(l: Links, partial: bool, dial: bool, s: string, h: HostPort, now: Time)
    requires Sound(l)
    ensures Sound(Connect(l, partial, dial, s, h, now))
  {
    if partial {
      RecordIsSound(l, s, h, now);
    }
  }

  lemma DisconnectIsSound(l: Links, partial: bool, s: string, h: HostPort, now: Time)
    requires Sound(l)
    ensures Sound(Disconnect(l, partial, s, h, now))
  {
    if partial {
      EraseIsSound(l, s, h);
    }
  }

  lemma UnprunedIsSound(l: Links, h: HostPort)
    requires Sound(l)
    ensures Sound(l.(toPrune := l.toPrune - {h}))
  {}

  /** Switching partial affinity on or off empties both indices and keeps both queues. */
  lemma ResetIsSound(l: Links)
    requires Sound(l)
    ensures Sound(l.(servicePeers := map[], peerServices := map[], asked := {}))
  {}

  // ----- what the steps do to the connected peers of a service -----

  lemma ConnectLevels(l: Links, dial: bool, s: string, h: HostPort, now: Time)
    ensures forall x :: Level(Connect(l, true, dial, s, h, now).servicePeers, x) ==
                        Level(l.servicePeers, x) + if x == s then {h} else {}
    ensures forall x :: x != h ==> Level(Connect(l, true, dial, s, h, now).peerServices, x) == Level(l.peerServices, x)
  {}

  lemma RecordLevels(l: Links, s: string, h: HostPort, now: Time)
    ensures forall x :: Level(Record(l, s, h, now).servicePeers, x) ==
                        Level(l.servicePeers, x) + if x == s then {h} else {}
    ensures forall x :: Level(Erase(l, s, h).servicePeers, x) ==
                        Level(l.servicePeers, x) - if x == s then {h} else {}
    ensures forall x :: x != h ==> Level(Record(l, s, h, now).peerServices, x) == Level(l.peerServices, x)
    ensures forall x :: x != h ==> Level(Erase(l, s, h).peerServices, x) == Level(l.peerServices, x)
    ensures Level(Erase(l, s, h).peerServices, h) == Level(l.peerServices, h) - {s}
  {}

  lemma DisconnectLevels(l: Links, s: string, h: HostPort, now: Time)
    ensures forall x :: Level(Disconnect(l, true, s, h, now).servicePeers, x) ==
                        Level(l.servicePeers, x) - if x == s then {h} else {}
  {}

  /** The queues really are about idle and about wanted hosts: no host is in both. */
  lemma ConnectedIsNotPruned(l: Links, s: string, h: HostPort)
    requires Sound(l) && Has(l.servicePeers, s, h)
    ensures h !in l.toPrune
  {
    HasLevel(l.peerServices, h, s);
  }

  lemma NonePruned(l: Links, s: string)
    requires Sound(l)
    ensures Level(l.servicePeers, s) !! l.toPrune.Keys
  {
    forall h | h in Level(l.servicePeers, s) ensures h !in l.toPrune {
      ConnectedIsNotPruned(l, s, h);
    }
  }

  /** A host disconnected from its last service is queued for pruning and no longer for connecting. */
  lemma DisconnectQueues(l: Links, partial: bool, s: string, h: HostPort, now: Time)
    ensures var l' := Disconnect(l, partial, s, h, now);
      && (Level(l'.peerServices, h) == {} ==> h in l'.toPrune && h !in l'.toConnect)
      && (forall x :: x != h ==> Level(l'.peerServices, x) == Level(l.peerServices, x))
      && (forall x :: x != h ==> (x in l'.toPrune <==> x in l.toPrune) && (x in l'.toConnect <==> x in l.toConnect))
  {}

  lemma FullDisconnectLevels(l: Links, s: string, h: HostPort, now: Time)
    ensures Disconnect(l, false, s, h, now).servicePeers == l.servicePeers
    ensures Disconnect(l, false, s, h, now).peerServices == l.peerServices
  {}

  /** A run takes the prune queue: none of its hosts is connected for anything. */
  lemma EmptyPrune(l: Links)
    requires Sound(l)
    ensures Sound(l.(toPrune := map[], pruneRun := l.toPrune.Keys, asked := {}))
    ensures forall h :: h in l.toPrune ==> Level(l.peerServices, h) == {}
    ensures forall h, s :: h in l.toPrune ==> !Has(l.servicePeers, s, h)
  {
    forall h, s | h in l.toPrune ensures !Has(l.servicePeers, s, h) {
      if Has(l.servicePeers, s, h) {
        ConnectedIsNotPruned(l, s, h);
      }
    }
  }

  lemma EndOfPrune(l: Links)
    requires Sound(l)
    ensures Sound(l.(pruneRun := {}))
  {}

  lemma EmptyConnect(l: Links)
    requires Sound(l)
    ensures Sound(l.(toConnect := map[]))
    ensures l.toConnect.Keys !! l.toPrune.Keys
  {}

  // ----- where the full inverse is lost -----

  /** A stale removal keeps the transpose exactly when there was nothing to remove. */
  lemma ForgetKeepsTransposeIff(l: Links, s: string, h: HostPort)
    requires Transposed(l.servicePeers, l.peerServices)
    ensures Transposed(Forget(l, s, h).servicePeers, l.peerServices) <==> !Has(l.servicePeers, s, h)
  {
    if Has(l.servicePeers, s, h) {
      assert Has(l.peerServices, h, s) && !Has(Forget(l, s, h).servicePeers, s, h);
    }
  }

  /** All other steps keep the transpose. */
  lemma StepsKeepTranspose(l: Links, partial: bool, dial: bool, s: string, h: HostPort, now: Time)
    requires Transposed(l.servicePeers, l.peerServices)
    ensures var l' := Connect(l, partial, dial, s, h, now); Transposed(l'.servicePeers, l'.peerServices)
    ensures var l' := Disconnect(l, partial, s, h, now); Transposed(l'.servicePeers, l'.peerServices)
  {}

  /** A stale removal from a connected pair breaks it. */
  lemma StaleRemovalBreaksTranspose()
    ensures var l := Connect(Links(map[], map[], map[], map[], {}, {}), true, true, "svc", "h", 1);
      && Transposed(l.servicePeers, l.peerServices)
      && !Transposed(Forget(l, "svc", "h").servicePeers, l.peerServices)
  {
    var l0 := Links(map[], map[], map[], map[], {}, {});
    StepsKeepTranspose(l0, true, true, "svc", "h", 1);
    ForgetKeepsTransposeIff(Connect(l0, true, true, "svc", "h", 1), "svc", "h");
  }
}
