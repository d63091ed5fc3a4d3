/**
  Which relays are the exits of a service (egress-nodes.js): the owners, on the hash ring, of
  the service's shard keys. `Egress` is everything the answer depends on.
 */
module EgressNodes {
  import opened HostOrder

  /** `lookup` and `whoami` stand for ringpop, fixed between ring changes. */
  datatype Egress = Egress(
    lookup: string -> HostPort,
    whoami: HostPort,
    defaultKValue: int,
    kValues: map<string, int>,
    iHops: map<string, map<int, int>>)

  /** A configured k of zero falls back to the default. */
  function KValueFor(e: Egress, service: string): int {
    if service in e.kValues && e.kValues[service] != 0 then e.kValues[service] else e.defaultKValue
  }

  function HopsFor(e: Egress, service: string): map<int, int> {
    if service in e.iHops then e.iHops[service] else map[]
  }

  function Hop(hops: map<int, int>, i: int): int {
    if i in hops then hops[i] else i
  }

  // ----- when the loops end -----

  /** The loop variable at the start of round `n`; past the bound the loop is over and it stays. */
  function IndexAfter(n: nat, k: int, hops: map<int, int>): int {
    if n == 0 then 0
    else
      var i := IndexAfter(n - 1, k, hops);
      if i >= k then i else Hop(hops, i) + 1
  }

  /** The loops over the shards of a service come to an end. */
  ghost predicate Ends(k: int, hops: map<int, int>) {
    exists n: nat :: IndexAfter(n, k, hops) >= k
  }

  /** No index below the bound is met in two rounds. */
  ghost predicate NeverTwice(k: int, hops: map<int, int>) {
    forall m: nat, n: nat :: m < n && IndexAfter(m, k, hops) < k ==> IndexAfter(m, k, hops) != IndexAfter(n, k, hops)
  }

  lemma {:induction false} StaysPast(m: nat, n: nat, k: int, hops: map<int, int>)
    requires m <= n && IndexAfter(m, k, hops) >= k
    ensures IndexAfter(n, k, hops) == IndexAfter(m, k, hops)
  {
    if m < n {
      StaysPast(m, n - 1, k, hops);
    }
  }

  lemma BelowBefore(m: nat, n: nat, k: int, hops: map<int, int>)
    requires m <= n && IndexAfter(n, k, hops) < k
    ensures IndexAfter(m, k, hops) < k
  {
    if IndexAfter(m, k, hops) >= k {
      StaysPast(m, n, k, hops);
    }
  }

  /** From two rounds with the same index on, the loop goes the same way. */
  lemma {:induction false} SameWay(m: nat, n: nat, j: nat, k: int, hops: map<int, int>)
    requires IndexAfter(m, k, hops) == IndexAfter(n, k, hops)
    ensures IndexAfter(m + j, k, hops) == IndexAfter(n + j, k, hops)
  {
    if j > 0 {
      SameWay(m, n, j - 1, k, hops);
    }
  }

  /** An index met twice below the bound is met for ever. */
  lemma {:induction false} MetTwiceNeverEnds(m: nat, n: nat, t: nat, k: int, hops: map<int, int>)
    requires m < n && IndexAfter(m, k, hops) == IndexAfter(n, k, hops) < k
    ensures IndexAfter(t, k, hops) < k
    decreases t
  {
    if t <= n {
      BelowBefore(t, n, k, hops);
    } else {
      SameWay(m, n, t - n, k, hops);
      MetTwiceNeverEnds(m, n, m + (t - n), k, hops);
    }
  }

  /** A bound from below on every index the loop can meet. */
  ghost predicate LowerBound(lo: int, hops: map<int, int>) {
    lo <= 0 && forall i :: i in hops ==> lo <= hops[i]
  }

  lemma {:induction false} LowerBoundExists(keys: set<int>, hops: map<int, int>) returns (lo: int)
    requires keys <= hops.Keys
    ensures lo <= 0 && forall i :: i in keys ==> lo <= hops[i]
    decreases keys
  {
    if x :| x in keys {
      var rest := LowerBoundExists(keys - {x}, hops);
      lo := if hops[x] < rest then hops[x] else rest;
    } else {
      lo := 0;
    }
  }

  lemma {:induction false} IndexAboveBound(n: nat, k: int, hops: map<int, int>, lo: int)
    requires LowerBound(lo, hops)
    ensures IndexAfter(n, k, hops) >= lo
  {
    if n > 0 {
      IndexAboveBound(n - 1, k, hops, lo);
      var i := IndexAfter(n - 1, k, hops);
      assert i in hops ==> lo <= hops[i];
    }
  }

  /** The indices of the first `n` rounds. */
  ghost function Met(n: nat, k: int, hops: map<int, int>): set<int> {
    if n == 0 then {} else Met(n - 1, k, hops) + {IndexAfter(n - 1, k, hops)}
  }

  lemma {:induction false} MetBefore(n: nat, k: int, hops: map<int, int>, i: int)
    requires i in Met(n, k, hops)
    ensures exists m: nat :: m < n && IndexAfter(m, k, hops) == i
  {
    if IndexAfter(n - 1, k, hops) != i {
      MetBefore(n - 1, k, hops, i);
    }
  }

  lemma {:induction false} MetSize(n: nat, k: int, hops: map<int, int>, lo: int)
    requires NeverTwice(k, hops) && LowerBound(lo, hops)
    requires n > 0 ==> IndexAfter(n - 1, k, hops) < k
    ensures |Met(n, k, hops)| == n && forall i :: i in Met(n, k, hops) ==> lo <= i < k
  {
    if n > 0 {
      if n > 1 {
        BelowBefore(n - 2, n - 1, k, hops);
      }
      MetSize(n - 1, k, hops, lo);
      IndexAboveBound(n - 1, k, hops, lo);
      if IndexAfter(n - 1, k, hops) in Met(n - 1, k, hops) {
        MetBefore(n - 1, k, hops, IndexAfter(n - 1, k, hops));
      }
    }
  }

  lemma {:induction false} RangeSize(s: set<int>, lo: int, hi: int)
    requires lo <= hi && forall i :: i in s ==> lo <= i < hi
    ensures |s| <= hi - lo
    decreases hi - lo
  {
    if lo < hi {
      RangeSize(s - {lo}, lo + 1, hi);
    } else {
      assert s == {};
    }
  }

  /** Without repetition the loop is over after at most as many rounds as there are indices below the bound. */
  lemma EndsInTime(k: int, hops: map<int, int>, lo: int)
    requires NeverTwice(k, hops) && LowerBound(lo, hops)
    ensures IndexAfter(if k <= lo then 0 else k - lo, k, hops) >= k
  {
    var n := if k <= lo then 0 else k - lo;
    if IndexAfter(n, k, hops) < k {
      MetSize(n + 1, k, hops, lo);
      IndexAboveBound(n, k, hops, lo);
      RangeSize(Met(n + 1, k, hops), lo, k);
      assert false;
    }
  }

  /** The exact condition: the loops end if and only if no index below the bound is met twice. */
  lemma EndsIff(k: int, hops: map<int, int>)
    ensures Ends(k, hops) <==> NeverTwice(k, hops)
  {
    if Ends(k, hops) {
      var t: nat :| IndexAfter(t, k, hops) >= k;
      forall m: nat, n: nat | m < n && IndexAfter(m, k, hops) < k
        ensures IndexAfter(m, k, hops) != IndexAfter(n, k, hops)
      {
        if IndexAfter(m, k, hops) == IndexAfter(n, k, hops) {
          MetTwiceNeverEnds(m, n, t, k, hops);
        }
      }
    }
    if NeverTwice(k, hops) {
      var lo := LowerBoundExists(hops.Keys, hops);
      EndsInTime(k, hops, lo);
    }
  }

  /** So it can be checked beforehand: walking that many rounds decides. */
  lemma EndsIffInTime(k: int, hops: map<int, int>, lo: int)
    requires LowerBound(lo, hops)
    ensures Ends(k, hops) <==> IndexAfter(if k <= lo then 0 else k - lo, k, hops) >= k
  {
    EndsIff(k, hops);
    if Ends(k, hops) {
      EndsInTime(k, hops, lo);
    }
  }

  /** Hops that never lead back satisfy it. */
  predicate NonBackward(hops: map<int, int>) {
    forall i :: i in hops ==> hops[i] >= i
  }

  lemma {:induction false} ForwardGains(n: nat, k: int, hops: map<int, int>)
    requires NonBackward(hops)
    ensures IndexAfter(n, k, hops) >= k || IndexAfter(n, k, hops) >= n
  {
    if n > 0 {
      ForwardGains(n - 1, k, hops);
    }
  }

  lemma ForwardHopsEnd(k: int, hops: map<int, int>)
    requires NonBackward(hops)
    ensures Ends(k, hops)
  {
    var n := if k < 0 then 0 else k;
    ForwardGains(n, k, hops);
    assert IndexAfter(n, k, hops) >= k;
  }

  /** With one hop back, from 1 to 0, the loops for k = 2 go on for ever. */
  lemma BackwardHopNeverEnds()
    ensures !Ends(2, map[1 := 0])
  {
    var hops := map[1 := 0];
    assert IndexAfter(1, 2, hops) == 1;
    assert IndexAfter(2, 2, hops) == 1;
    EndsIff(2, hops);
  }

  /** A hop back is harmless where the loop does not come back to it. */
  lemma HarmlessBackwardHop()
    ensures Ends(4, map[0 := 2, 3 := 0, 1 := 9])
  {
    var hops := map[0 := 2, 3 := 0, 1 := 9];
    assert IndexAfter(1, 4, hops) == 3;
    assert IndexAfter(2, 4, hops) == 1;
    assert IndexAfter(3, 4, hops) == 10;
  }

  // ----- shard keys -----

  function Digit(d: nat): char
    requires d < 10
  {
    "0123456789"[d]
  }

  function Decimal(n: nat): string {
    if n < 10 then [Digit(n)] else Decimal(n / 10) + [Digit(n % 10)]
  }

  /** An index as text; a hop may lead below zero. */
  function Numeral(i: int): string {
    if i < 0 then "-" + Decimal(-i) else Decimal(i)
  }

  function ShardKey(service: string, i: int): string {
    service + "~" + Numeral(i)
  }

  lemma {:induction false} DecimalIsInjective(m: nat, n: nat)
    requires Decimal(m) == Decimal(n)
    ensures m == n
  {
    var a, b := Decimal(m), Decimal(n);
    assert a[|a| - 1] == Digit(m % 10) && b[|b| - 1] == Digit(n % 10);
    if m >= 10 && n >= 10 {
      assert a[..|a| - 1] == Decimal(m / 10) && b[..|b| - 1] == Decimal(n / 10);
      DecimalIsInjective(m / 10, n / 10);
    } else if m >= 10 {
      DecimalIsNonempty(m / 10);
    } else if n >= 10 {
      DecimalIsNonempty(n / 10);
    }
  }

  lemma DecimalIsNonempty(n: nat)
    ensures Decimal(n) != []
  {}

  lemma DecimalStartsWithDigit(n: nat)
    ensures Decimal(n) != [] && Decimal(n)[0] in "0123456789"
  {
    if n >= 10 {
      DecimalStartsWithDigit(n / 10);
    }
  }

  lemma NumeralIsInjective(i: int, j: int)
    requires Numeral(i) == Numeral(j)
    ensures i == j
  {
    hide Decimal;
    DecimalStartsWithDigit(if i < 0 then -i else i);
    DecimalStartsWithDigit(if j < 0 then -j else j);
    if i < 0 && j < 0 {
      assert Numeral(i)[1..] == Decimal(-i) && Numeral(j)[1..] == Decimal(-j);
      DecimalIsInjective(-i, -j);
    } else if i >= 0 && j >= 0 {
      DecimalIsInjective(i, j);
    }
  }

  lemma {:induction false} DecimalIsDigits(n: nat, k: nat)
    requires k < |Decimal(n)|
    ensures Decimal(n)[k] in "0123456789"
  {
    if n >= 10 && k < |Decimal(n / 10)| {
      DecimalIsDigits(n / 10, k);
    }
  }

  lemma NumeralHasNoSeparator(i: int, k: nat)
    requires k < |Numeral(i)|
    ensures Numeral(i)[k] != '~'
  {
    hide Decimal;
    if i >= 0 {
      DecimalIsDigits(i, k);
    } else if k > 0 {
      DecimalIsDigits(-i, k - 1);
    }
  }

  /** A key begins with its service's name, a separator after it, and the index in the rest. */
  lemma ShardKeyParts(service: string, i: int)
    ensures var key, n := ShardKey(service, i), |service|;
      |key| > n && key[..n] == service && key[n] == '~' && key[n + 1..] == Numeral(i)
  {
    hide Numeral;
  }

  /** The last separator of a key is the one after the service's name. */
  lemma NotLonger(s: string, i: int, t: string, j: int)
    requires ShardKey(s, i) == ShardKey(t, j)
    ensures |s| >= |t|
  {
    hide ShardKey, Numeral;
    ShardKeyParts(s, i);
    ShardKeyParts(t, j);
    if |s| < |t| {
      var key := ShardKey(s, i);
      assert key[|t|] == key[|s| + 1..][|t| - |s| - 1];
      NumeralHasNoSeparator(i, |t| - |s| - 1);
    }
  }

  /** No two services share a key, nor two indices of one. */
  lemma ShardKeyIsInjective(s: string, i: int, t: string, j: int)
    requires ShardKey(s, i) == ShardKey(t, j)
    ensures s == t && i == j
  {
    hide ShardKey, Numeral;
    NotLonger(s, i, t, j);
    NotLonger(t, j, s, i);
    ShardKeyParts(s, i);
    ShardKeyParts(t, j);
    NumeralIsInjective(i, j);
  }

  // ----- the shards a service visits -----

  ghost predicate EndsFor(e: Egress, service: string) {
    Ends(KValueFor(e, service), HopsFor(e, service))
  }

  /** The number of rounds the loops make. */
  ghost function Rounds(k: int, hops: map<int, int>): (r: nat)
    requires Ends(k, hops)
    ensures IndexAfter(r, k, hops) >= k
    ensures forall n: nat :: n < r ==> IndexAfter(n, k, hops) < k
  {
    var n: nat :| IndexAfter(n, k, hops) >= k;
    FirstPast(n, k, hops)
  }

  ghost function FirstPast(n: nat, k: int, hops: map<int, int>): (r: nat)
    requires IndexAfter(n, k, hops) >= k
    ensures r <= n && IndexAfter(r, k, hops) >= k
    ensures forall m: nat :: m < r ==> IndexAfter(m, k, hops) < k
  {
    if n > 0 && IndexAfter(n - 1, k, hops) >= k then FirstPast(n - 1, k, hops)
    else
      assert forall m: nat :: m < n ==> IndexAfter(m, k, hops) < k by {
        forall m: nat | m < n ensures IndexAfter(m, k, hops) < k {
          if IndexAfter(m, k, hops) >= k {
            StaysPast(m, n - 1, k, hops);
          }
        }
      }
      n
  }

  /** The shards visited in the first `n` rounds, hops taken. */
  ghost function Visited(n: nat, k: int, hops: map<int, int>): seq<int> {
    seq(n, m requires 0 <= m => Hop(hops, IndexAfter(m, k, hops)))
  }

  /** The shards of a service; none are ever settled on when the loops do not end. */
  ghost function Shards(e: Egress, service: string): seq<int> {
    var k, hops := KValueFor(e, service), HopsFor(e, service);
    if Ends(k, hops) then Visited(Rounds(k, hops), k, hops) else []
  }

  function Owner(e: Egress, service: string, i: int): HostPort {
    e.lookup(ShardKey(service, i))
  }

  /** The exits of a service. */
  ghost function ExitHosts(e: Egress, service: string): set<HostPort> {
    set i | i in Shards(e, service) :: Owner(e, service, i)
  }

  ghost predicate IsExit(e: Egress, service: string) {
    e.whoami in ExitHosts(e, service)
  }

  /** The shard keys a host owns, in the order they are visited. */
  ghost function KeysOf(e: Egress, service: string, shards: seq<int>, host: HostPort): seq<string> {
    if shards == [] then []
    else
      var before := KeysOf(e, service, shards[..|shards| - 1], host);
      var i := shards[|shards| - 1];
      if Owner(e, service, i) == host then before + [ShardKey(service, i)] else before
  }

  /** `exits` lists the owners of the shards, each with its own shard keys. */
  ghost predicate Groups(e: Egress, service: string, shards: seq<int>, exits: map<HostPort, seq<string>>) {
    && (forall i :: i in shards ==> Owner(e, service, i) in exits)
    && (forall h :: h in exits ==> exits[h] == KeysOf(e, service, shards, h) && exits[h] != [])
    && (forall h :: h !in exits ==> KeysOf(e, service, shards, h) == [])
  }

  // ----- what the selection guarantees -----

  /**
    Which shards those are, one after the other: the count starts at zero, an index with a hop leads to where it
    hops, the count goes on from there, and stops at k.
   */
  lemma ShardsFollowHops(e: Egress, service: string)
    requires EndsFor(e, service)
    ensures var k, hops, v := KValueFor(e, service), HopsFor(e, service), Shards(e, service);
      && (v == [] <==> k <= 0)
      && (v != [] ==> v[0] == (if 0 in hops then hops[0] else 0) && v[|v| - 1] + 1 >= k)
      && forall a :: 0 <= a < |v| - 1 ==>
           v[a] + 1 < k && v[a + 1] == if v[a] + 1 in hops then hops[v[a] + 1] else v[a] + 1
  {
    hide IndexAfter, KValueFor, HopsFor, Visited;
    var k, hops, v := KValueFor(e, service), HopsFor(e, service), Shards(e, service);
    var r := Rounds(k, hops);
    VisitedLength(r, k, hops);
    forall a: nat | a < r
      ensures v[a] == (if IndexAfter(a, k, hops) in hops then hops[IndexAfter(a, k, hops)] else IndexAfter(a, k, hops))
      ensures v[a] + 1 == IndexAfter(a + 1, k, hops)
    {
      OneRound(a, r, k, hops);
    }
    FirstRound(k, hops);
    forall a: nat | a + 1 < r
      ensures v[a] + 1 < k && v[a + 1] == if v[a] + 1 in hops then hops[v[a] + 1] else v[a] + 1
    {
      assert v[a] + 1 == IndexAfter(a + 1, k, hops);
    }
  }

  lemma OneRound(a: nat, r: nat, k: int, hops: map<int, int>)
    requires a < r && IndexAfter(a, k, hops) < k
    ensures var i := IndexAfter(a, k, hops);
      && |Visited(r, k, hops)| == r && Visited(r, k, hops)[a] == (if i in hops then hops[i] else i)
      && IndexAfter(a + 1, k, hops) == Visited(r, k, hops)[a] + 1
  {}

  lemma FirstRound(k: int, hops: map<int, int>)
    ensures IndexAfter(0, k, hops) == 0
  {}

  lemma VisitedLength(r: nat, k: int, hops: map<int, int>)
    ensures |Visited(r, k, hops)| == r
  {}

  /** No shard key is visited twice, whatever the hops. */
  lemma ShardsAreDistinct(e: Egress, service: string, a: nat, b: nat)
    requires a < b < |Shards(e, service)|
    ensures ShardKey(service, Shards(e, service)[a]) != ShardKey(service, Shards(e, service)[b])
  {
    var k, hops, v := KValueFor(e, service), HopsFor(e, service), Shards(e, service);
    EndsIff(k, hops);
    assert IndexAfter(a + 1, k, hops) == v[a] + 1 < k || a + 1 == b;
    assert IndexAfter(b + 1, k, hops) == v[b] + 1;
    if ShardKey(service, v[a]) == ShardKey(service, v[b]) {
      ShardKeyIsInjective(service, v[a], service, v[b]);
    }
  }

  /** At most as many shards are visited as there are indices between the lowest hop and k. */
  lemma ShardsAreFew(e: Egress, service: string, lo: int)
    requires LowerBound(lo, HopsFor(e, service))
    ensures |Shards(e, service)| <= if KValueFor(e, service) <= lo then 0 else KValueFor(e, service) - lo
  {
    var k, hops := KValueFor(e, service), HopsFor(e, service);
    EndsIff(k, hops);
    if Ends(k, hops) {
      EndsInTime(k, hops, lo);
    }
  }

  /** A host's keys are exactly the visited keys that the ring gives to it. */
  lemma {:induction false} KeysOfOwner(e: Egress, service: string, shards: seq<int>, host: HostPort, key: string)
    ensures key in KeysOf(e, service, shards, host) <==>
      exists a :: 0 <= a < |shards| && ShardKey(service, shards[a]) == key && Owner(e, service, shards[a]) == host
  {
    hide ShardKey;
    if shards != [] {
      var before, i := shards[..|shards| - 1], shards[|shards| - 1];
      KeysOfOwner(e, service, before, host, key);
      if key in KeysOf(e, service, before, host) {
        var a :| 0 <= a < |before| && ShardKey(service, before[a]) == key && Owner(e, service, before[a]) == host;
        assert shards[a] == before[a];
      }
      if a :| 0 <= a < |shards| && ShardKey(service, shards[a]) == key && Owner(e, service, shards[a]) == host {
        assert a < |before| ==> before[a] == shards[a];
      }
    }
  }

  lemma KeysOneMore(e: Egress, service: string, shards: seq<int>, i: int, h: HostPort)
    ensures KeysOf(e, service, shards + [i], h) ==
      KeysOf(e, service, shards, h) + if Owner(e, service, i) == h then [ShardKey(service, i)] else []
  {
    hide ShardKey, Owner;
    assert (shards + [i])[..|shards|] == shards;
  }

  lemma GroupsOneMore(e: Egress, service: string, shards: seq<int>, exits: map<HostPort, seq<string>>, i: int)
    requires Groups(e, service, shards, exits)
    ensures var node := Owner(e, service, i);
      Groups(e, service, shards + [i],
             exits[node := (if node in exits then exits[node] else []) + [ShardKey(service, i)]])
  {
    hide ShardKey, Owner, KeysOf;
    forall h ensures KeysOf(e, service, shards + [i], h) ==
      KeysOf(e, service, shards, h) + if Owner(e, service, i) == h then [ShardKey(service, i)] else []
    {
      KeysOneMore(e, service, shards, i, h);
    }
  }

  lemma GroupsNone(e: Egress, service: string)
    ensures Groups(e, service, [], map[])
  {}

  /** The listed hosts are the exits, no more and no fewer. */
  lemma GroupsAreExits(e: Egress, service: string, exits: map<HostPort, seq<string>>)
    requires Groups(e, service, Shards(e, service), exits)
    ensures exits.Keys == ExitHosts(e, service)
  {
    hide ShardKey, Owner, KeysOf, Shards;
    forall h | h in exits ensures h in ExitHosts(e, service) {
      var key := exits[h][0];
      assert key in exits[h];
      KeysOfOwner(e, service, Shards(e, service), h, key);
    }
  }

  lemma VisitedOneMore(n: nat, k: int, hops: map<int, int>)
    ensures Visited(n + 1, k, hops) == Visited(n, k, hops) + [Hop(hops, IndexAfter(n, k, hops))]
  {}

  lemma ShardsAreVisited(e: Egress, service: string, n: nat)
    requires EndsFor(e, service) && n == Rounds(KValueFor(e, service), HopsFor(e, service))
    ensures Visited(n, KValueFor(e, service), HopsFor(e, service)) == Shards(e, service)
  {}

  lemma VisitedIsShard(e: Egress, service: string, n: nat)
    requires EndsFor(e, service) && n < Rounds(KValueFor(e, service), HopsFor(e, service))
    ensures Owner(e, service, Hop(HopsFor(e, service), IndexAfter(n, KValueFor(e, service), HopsFor(e, service))))
      in ExitHosts(e, service)
  {
    hide ShardKey;
    var k, hops := KValueFor(e, service), HopsFor(e, service);
    assert Shards(e, service)[n] == Hop(hops, IndexAfter(n, k, hops));
  }

  /** The loop of `exitsFor`, for every service whose loops end. */
  method CollectExits(e: Egress, service: string) returns (exits: map<HostPort, seq<string>>)
    requires EndsFor(e, service)
    ensures Groups(e, service, Shards(e, service), exits)
    ensures exits.Keys == ExitHosts(e, service)
  {
    hide Visited, Groups, ShardKey, Owner, KValueFor, HopsFor, Shards, Ends;
    var k := KValueFor(e, service);
    var hops := HopsFor(e, service);
    exits := map[];
    ghost var n: nat, rounds := 0, Rounds(k, hops);
    GroupsNone(e, service);
    VisitedNone(k, hops);
    var i := 0;
    while i < k
      invariant n <= rounds && i == IndexAfter(n, k, hops)
      invariant Groups(e, service, Visited(n, k, hops), exits)
      decreases rounds - n
    {
      if i in hops {
        i := hops[i];
      }
      var shardKey := ShardKey(service, i);
      var node := e.lookup(shardKey);
      OwnerIs(e, service, i);
      VisitedOneMore(n, k, hops);
      GroupsOneMore(e, service, Visited(n, k, hops), exits, i);
      exits := exits[node := (if node in exits then exits[node] else []) + [shardKey]];
      i := i + 1;
      n := n + 1;
    }
    ShardsAreVisited(e, service, n);
    GroupsAreExits(e, service, exits);
  }

  lemma VisitedNone(k: int, hops: map<int, int>)
    ensures Visited(0, k, hops) == []
  {}

  lemma OwnerIs(e: Egress, service: string, i: int)
    ensures Owner(e, service, i) == e.lookup(ShardKey(service, i))
  {}

  /** The loop of `isExitFor`, which stops at the first shard of its own. */
  method FindSelf(e: Egress, service: string) returns (isExit: bool)
    requires EndsFor(e, service)
    ensures isExit <==> IsExit(e, service)
  {
    hide Visited, ShardKey, Owner, KValueFor, HopsFor, Shards, Ends;
    var k := KValueFor(e, service);
    var hops := HopsFor(e, service);
    ghost var n: nat, rounds := 0, Rounds(k, hops);
    VisitedNone(k, hops);
    var i := 0;
    while i < k
      invariant n <= rounds && i == IndexAfter(n, k, hops)
      invariant forall j :: j in Visited(n, k, hops) ==> Owner(e, service, j) != e.whoami
      decreases rounds - n
    {
      if i in hops {
        i := hops[i];
      }
      var node := e.lookup(ShardKey(service, i));
      OwnerIs(e, service, i);
      VisitedOneMore(n, k, hops);
      VisitedIsShard(e, service, n);
      if e.whoami == node {
        return true;
      }
      i := i + 1;
      n := n + 1;
    }
    ShardsAreVisited(e, service, n);
    return false;
  }

  // ----- the object -----

  class EgressTable {
    var defaultKValue: int
    var kValueForServiceName: map<string, int>
    var iHopsForServiceName: map<string, map<int, int>>
    var lookup: string -> HostPort
    var whoami: HostPort

    function View(): Egress
      reads this
    {
      Egress(lookup, whoami, defaultKValue, kValueForServiceName, iHopsForServiceName)
    }

    constructor (defaultK: int, lookup: string -> HostPort, whoami: HostPort)
      requires defaultK > 0
      ensures View() == Egress(lookup, whoami, defaultK, map[], map[])
      ensures forall s :: KValueFor(View(), s) == defaultK
    {
      defaultKValue, kValueForServiceName, iHopsForServiceName := defaultK, map[], map[];
      this.lookup, this.whoami := lookup, whoami;
    }

    method SetKValueFor(service: string, k: int)
      modifies this`kValueForServiceName
      ensures View() == old(View()).(kValues := old(kValueForServiceName)[service := k])
      ensures KValueFor(View(), service) == if k == 0 then defaultKValue else k
      ensures forall s :: s != service ==> KValueFor(View(), s) == KValueFor(old(View()), s)
    {
      kValueForServiceName := kValueForServiceName[service := k];
    }

    /** Fills a missing entry with the empty map, which changes no answer. */
    method IHopsFor(service: string) returns (hops: map<int, int>)
      modifies this`iHopsForServiceName
      ensures hops == HopsFor(old(View()), service)
      ensures forall s :: HopsFor(View(), s) == HopsFor(old(View()), s)
      ensures View() == old(View()).(iHops := iHopsForServiceName)
    {
      if service !in iHopsForServiceName {
        iHopsForServiceName := iHopsForServiceName[service := map[]];
      }
      hops := iHopsForServiceName[service];
    }

    method ExitsFor(service: string) returns (exits: map<HostPort, seq<string>>)
      requires EndsFor(View(), service)
      modifies this`iHopsForServiceName
      ensures forall s :: HopsFor(View(), s) == HopsFor(old(View()), s)
      ensures Groups(View(), service, Shards(View(), service), exits)
      ensures exits.Keys == ExitHosts(View(), service) == ExitHosts(old(View()), service)
    {
      var _ := IHopsFor(service);
      SameExits(old(View()), View(), service);
      exits := CollectExits(View(), service);
    }

    /** Agrees with `ExitsFor`: true exactly when this node is among the exits listed there. */
    method IsExitFor(service: string) returns (isExit: bool)
      requires EndsFor(View(), service)
      modifies this`iHopsForServiceName
      ensures forall s :: HopsFor(View(), s) == HopsFor(old(View()), s)
      ensures isExit <==> whoami in ExitHosts(View(), service)
    {
      var _ := IHopsFor(service);
      isExit := FindSelf(View(), service);
    }
  }

  lemma SameExits(e: Egress, e': Egress, service: string)
    requires e'.lookup == e.lookup && KValueFor(e', service) == KValueFor(e, service)
    requires HopsFor(e', service) == HopsFor(e, service)
    ensures ExitHosts(e', service) == ExitHosts(e, service)
  {
    assert Shards(e', service) == Shards(e, service);
    assert forall i :: Owner(e', service, i) == Owner(e, service, i);
  }
}
