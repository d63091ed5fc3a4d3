/**
  Where the audits of an affinity change end (service-proxy.js): three rounds, each of which takes the
  stale workers of the current plan out of the range and plans again. Whether they suffice can be told
  beforehand from the range, the connected peers and the channel's peers.
 */
module AuditOutcomes {
  import opened Arithmetic
  import opened Collections
  import opened Options
  import opened HostOrder
  import opened PartialRanges
  import opened AffinityPlans
  import R = RangeArithmetic

  /** What a relay's slice depends on besides the workers. */
  datatype Cut = Cut(me: HostPort, perWorker: nat, perRelay: nat, relays: seq<HostPort>)

  ghost function CutOf(r: Range): Cut {
    Cut(r.relayHostPort, r.minPeersPerWorker, r.minPeersPerRelay, if r.relays.Some? then r.relays.value else [])
  }

  /** The workers of the slice; none when the relay is not listed. */
  ghost function AffineOf(c: Cut, workers: seq<HostPort>): set<HostPort> {
    var slice := Direct(c.me, c.perWorker, c.perRelay, c.relays, workers);
    if slice.Some? then Hosts(slice.value.affineWorkers) else {}
  }

  /** A list without some of its entries. */
  function WithoutAll(a: seq<HostPort>, gone: set<HostPort>): seq<HostPort> {
    if a == [] then []
    else if a[0] in gone then WithoutAll(a[1..], gone)
    else [a[0]] + WithoutAll(a[1..], gone)
  }

  lemma {:induction false} WithoutAllKeepsOrder(a: seq<HostPort>, gone: set<HostPort>)
    requires StrictlySorted(a)
    ensures StrictlySorted(WithoutAll(a, gone)) && Hosts(WithoutAll(a, gone)) == Hosts(a) - gone
  {
    if a != [] {
      WithoutAllKeepsOrder(a[1..], gone);
      var tail := WithoutAll(a[1..], gone);
      assert Hosts(a) == {a[0]} + Hosts(a[1..]);
      assert Hosts([a[0]] + tail) == {a[0]} + Hosts(tail);
      HostsOfTail(a);
      forall i | 0 <= i < |tail| ensures Less(a[0], tail[i]) {
        assert tail[i] in Hosts(tail);
        assert tail[i] in a[1..];
      }
    }
  }

  ghost predicate NothingToDo(affine: set<HostPort>, connected: set<HostPort>,
                              peers: set<HostPort>, out: set<HostPort>, pruned: set<HostPort>) {
    ToConnect(affine, connected, peers, out) == {} && ToDisconnect(affine, connected, pruned) == {}
  }

  /**
    Within `n` audits a plan passes, or there is none to pass. With `anyway`, the connected peers may as well
    turn out to be the affine ones when the audits are over, though the plan still wants to dial some of them.
   */
  ghost predicate Settles(c: Cut, workers: seq<HostPort>, connected: set<HostPort>,
                          peers: set<HostPort>, out: set<HostPort>, pruned: set<HostPort>, n: nat, anyway: bool)
    decreases n
  {
    var affine := AffineOf(c, workers);
    var stale := Stale(affine, connected, peers, out, pruned);
    || NothingToDo(affine, connected, peers, out, pruned)
    || (n == 0 && anyway && connected == affine)
    || (n > 0 && (stale == {} ||
                  Settles(c, WithoutAll(workers, stale), connected - stale, peers, out, pruned, n - 1, anyway)))
  }

  lemma AffineIsAffineOf(r: Range)
    requires Ready(r)
    ensures Affine(r) == AffineOf(CutOf(r), r.workers.value)
  {}

  /** One audit: it passes when nothing is stale, else the rest decides about what it leaves. */
  lemma SettlesNext(c: Cut, workers: seq<HostPort>, connected: set<HostPort>,
                    peers: set<HostPort>, out: set<HostPort>, pruned: set<HostPort>, n: nat, anyway: bool)
    ensures var stale := Stale(AffineOf(c, workers), connected, peers, out, pruned);
      Settles(c, workers, connected, peers, out, pruned, n + 1, anyway) <==>
      stale == {} || Settles(c, WithoutAll(workers, stale), connected - stale, peers, out, pruned, n, anyway)
  {}

  /** Within `n` audits the plan becomes empty: nothing is left to do, after stale workers were taken away. */
  ghost predicate Empties(c: Cut, workers: seq<HostPort>, connected: set<HostPort>,
                          peers: set<HostPort>, out: set<HostPort>, pruned: set<HostPort>, n: nat)
    decreases n
  {
    var affine := AffineOf(c, workers);
    var stale := Stale(affine, connected, peers, out, pruned);
    || NothingToDo(affine, connected, peers, out, pruned)
    || (n > 0 && stale != {} &&
        Empties(c, WithoutAll(workers, stale), connected - stale, peers, out, pruned, n - 1))
  }

  lemma EmptiesNext(c: Cut, workers: seq<HostPort>, connected: set<HostPort>,
                    peers: set<HostPort>, out: set<HostPort>, pruned: set<HostPort>, n: nat)
    ensures var affine := AffineOf(c, workers);
      var stale := Stale(affine, connected, peers, out, pruned);
      Empties(c, workers, connected, peers, out, pruned, n + 1) <==>
      if stale == {} then NothingToDo(affine, connected, peers, out, pruned)
      else Empties(c, WithoutAll(workers, stale), connected - stale, peers, out, pruned, n)
  {}

  /** When all workers are peers, two audits suffice. */
  lemma OnPeersSettles(c: Cut, workers: seq<HostPort>, connected: set<HostPort>,
                       peers: set<HostPort>, out: set<HostPort>, pruned: set<HostPort>, n: nat, anyway: bool)
    requires StrictlySorted(workers) && Hosts(workers) <= peers && n >= 2
    ensures Settles(c, workers, connected, peers, out, pruned, n, anyway)
  {
    hide Direct, Less;
    var stale := Stale(AffineOf(c, workers), connected, peers, out, pruned);
    AffineAmongWorkers(c, workers);
    WithoutAllKeepsOrder(workers, stale);
    assert Hosts(workers) - stale == Hosts(workers);
    SortedListIsUnique(WithoutAll(workers, stale), workers);
    assert Stale(AffineOf(c, workers), connected - stale, peers, out, pruned) == {};
    assert Settles(c, workers, connected - stale, peers, out, pruned, n - 1, anyway);
  }

  lemma AffineAmongWorkers(c: Cut, workers: seq<HostPort>)
    ensures AffineOf(c, workers) <= Hosts(workers)
  {}

  // ----- audits that do not suffice -----

  lemma {:induction false} SizeOfDistinct(a: seq<HostPort>)
    requires R.StrictlyDistinct(a)
    ensures |Hosts(a)| == |a|
  {
    if a == [] {
      assert Hosts(a) == {};
    } else {
      assert R.StrictlyDistinct(a[1..]);
      SizeOfDistinct(a[1..]);
      assert Hosts(a) == {a[0]} + Hosts(a[1..]) && a[0] !in Hosts(a[1..]);
    }
  }

  /** A slice of something is not empty. */
  lemma AffineOfSome(c: Cut, workers: seq<HostPort>)
    requires StrictlySorted(c.relays) && c.me in c.relays && StrictlySorted(workers)
    requires workers != [] && c.perRelay >= 1
    ensures AffineOf(c, workers) != {}
  {
    hide Direct, R.Consecutive, StrictlySorted, R.StrictlyDistinct, CeilDiv;
    var i: nat :| i < |c.relays| && c.relays[i] == c.me;
    R.SliceShape(c.relays, i, workers, c.perWorker, c.perRelay);
    SizeOfDistinct(R.Affine(c.relays, i, workers, c.perWorker, c.perRelay));
  }

  /** The relay's minimum decides the length of its slice: the ring is large enough. */
  ghost predicate RelayMinimumDecides(c: Cut, workers: nat) {
    && c.relays != [] && c.perRelay >= 2
    && CeilDiv(c.perWorker * workers, |c.relays|) <= c.perRelay
  }

  lemma MinimumIsPositive(c: Cut, workers: nat)
    requires RelayMinimumDecides(c, workers)
    ensures c.perRelay >= 2
  {}

  lemma FewerWorkers(c: Cut, workers: nat, fewer: nat)
    requires RelayMinimumDecides(c, workers) && fewer <= workers
    ensures RelayMinimumDecides(c, fewer)
  {
    var p, r := c.perWorker, |c.relays|;
    ScaleAtMost(fewer, workers, p);
    var a, b := p * fewer + r - 1, p * workers + r - 1;
    FloorBounds(a, r);
    AtMostQuotient(a / r, b, r);
  }

  /** Then the slice has at least two workers and at most one more than the minimum. */
  lemma SliceSize(c: Cut, workers: seq<HostPort>)
    requires StrictlySorted(c.relays) && c.me in c.relays && StrictlySorted(workers)
    requires RelayMinimumDecides(c, |workers|)
    ensures |AffineOf(c, workers)| <= c.perRelay + 1
    ensures |workers| >= 2 ==> |AffineOf(c, workers)| >= 2
  {
    hide Direct, R.Consecutive, StrictlySorted, R.StrictlyDistinct, CeilDiv;
    var i: nat :| i < |c.relays| && c.relays[i] == c.me;
    R.SliceShape(c.relays, i, workers, c.perWorker, c.perRelay);
    SizeOfDistinct(R.Affine(c.relays, i, workers, c.perWorker, c.perRelay));
  }

  /**
    When nothing is connected yet, and of the range's many workers only one is a peer, no audit passes:
    every round takes only one slice's worth of stale workers away.
   */
  lemma {:induction false} NeverSettles(c: Cut, workers: seq<HostPort>, h: HostPort,
                                        out: set<HostPort>, pruned: set<HostPort>, n: nat, anyway: bool)
    requires StrictlySorted(c.relays) && c.me in c.relays && StrictlySorted(workers)
    requires RelayMinimumDecides(c, |workers|) && h in workers
    requires n > 0 ==> |workers| >= (n - 1) * (c.perRelay + 1) + 2
    ensures !Settles(c, workers, {}, {h}, out, pruned, n, anyway)
    decreases n
  {
    hide Direct, StrictlySorted, RelayMinimumDecides, AffineOf;
    var affine := AffineOf(c, workers);
    var stale := Stale(affine, {}, {h}, out, pruned);
    SliceSize(c, workers);
    MinimumIsPositive(c, |workers|);
    AffineOfSome(c, workers);
    assert ToConnect(affine, {}, {h}, out) == affine;
    assert stale == affine - {h};
    assert !NothingToDo(affine, {}, {h}, out, pruned);
    if n > 0 {
      var fewer := WithoutAll(workers, stale);
      assert 0 <= (n - 1) * (c.perRelay + 1);
      if affine <= {h} {
        SubsetIsSmaller(affine, {h});
        assert false;
      }
      WithoutAllKeepsOrder(workers, stale);
      LeftOver(workers, stale);
      SubsetIsSmaller(stale, affine);
      FewerWorkers(c, |workers|, |fewer|);
      assert h in Hosts(fewer);
      Distribute(n - 2, 1, c.perRelay + 1);
      NeverSettles(c, fewer, h, out, pruned, n - 1, anyway);
      var none: set<HostPort> := {};
      assert none - stale == none;
    }
  }

  lemma LeftOver(workers: seq<HostPort>, gone: set<HostPort>)
    requires StrictlySorted(workers)
    ensures |workers| - |gone| <= |WithoutAll(workers, gone)| <= |workers|
  {
    var fewer := WithoutAll(workers, gone);
    WithoutAllKeepsOrder(workers, gone);
    SizeOfHosts(workers);
    SizeOfHosts(fewer);
    SubsetIsSmaller(Hosts(fewer), Hosts(workers));
    SubsetIsSmaller(Hosts(workers), Hosts(fewer) + gone);
  }
}
