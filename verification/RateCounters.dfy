/**
  The sliding window of rate_limiter.js: a ring of buckets whose sum is kept in `rps`.
  The reference is the history itself: a window holds what was counted since the
  N-th most recent refresh.
 */
module RateCounters {
  import opened Options
  import opened Collections

  datatype Verdict = Allowed | BusyTotal | BusyService | Killed

  /** The limits in force when a request is judged; a service's own only matter at an exit node. */
  datatype Limits = Limits(total: real, totalKs: real, service: real, serviceKs: real)

  /**
    One step of a limiter: a refresh of every counter, or a request and what became of it.
    `tracked` says whether the service had counters by then.
   */
  datatype Mark =
    | Tick
    | Asked(service: string, exit: bool, exempt: bool, tracked: bool, limits: Limits, verdict: Verdict)

  type History = seq<Mark>

  /**
    What a counter counts. Four tallies have no counter in the source: the requests turned away as busy; of one
    service, those its kill switch counts and its limit does not; and all that is asked, of anyone or of one service.
   */
  datatype Tally =
    | Total
    | TotalKs
    | Busy
    | Service(name: string)
    | ServiceKs(name: string)
    | ServiceExcess(name: string)
    | Demand
    | DemandFor(name: string)

  predicate TurnedAway(v: Verdict) {
    v == BusyTotal || v == BusyService
  }

  /** A service that became exempt after it got its counters still counts for its kill switch. */
  predicate Counts(t: Tally, m: Mark) {
    m.Asked? &&
    match t
    case Total => !m.exempt && m.verdict == Allowed
    case TotalKs => !m.exempt && m.verdict != Killed
    case Busy => !m.exempt && TurnedAway(m.verdict)
    case Service(s) => m.exit && m.tracked && m.service == s && !m.exempt && m.verdict == Allowed
    case ServiceKs(s) => m.exit && m.tracked && m.service == s && m.verdict != Killed
    case ServiceExcess(s) =>
      m.exit && m.tracked && m.service == s && (TurnedAway(m.verdict) || (m.exempt && m.verdict == Allowed))
    case Demand => true
    case DemandFor(s) => m.exit && m.service == s
  }

  function One(t: Tally, m: Mark): nat { if Counts(t, m) then 1 else 0 }

  /** How many marks of the tally follow the n-th most recent refresh. */
  function InWindow(log: History, n: nat, t: Tally): nat {
    if log == [] || n == 0 then 0
    else if Last(log).Tick? then InWindow(Init(log), n - 1, t)
    else InWindow(Init(log), n, t) + One(t, Last(log))
  }

  /** How many marks of the tally lie between the j-th most recent refresh and the next. */
  function Segment(log: History, j: nat, t: Tally): nat {
    if log == [] then 0
    else if Last(log).Tick? then if j == 0 then 0 else Segment(Init(log), j - 1, t)
    else Segment(Init(log), j, t) + if j == 0 then One(t, Last(log)) else 0
  }

  /** A wider tally counts more. */
  lemma {:induction false} WiderTally(log: History, n: nat, t: Tally, u: Tally)
    requires forall m :: Counts(t, m) ==> Counts(u, m)
    ensures InWindow(log, n, t) <= InWindow(log, n, u)
  {
    if log != [] && n > 0 {
      WiderTally(Init(log), if Last(log).Tick? then n - 1 else n, t, u);
    }
  }

  lemma {:induction false} WindowIsSegments(log: History, n: nat, t: Tally)
    ensures InWindow(log, n + 1, t) == InWindow(log, n, t) + Segment(log, n, t)
  {
    if log != [] {
      if Last(log).Tick? {
        if n > 0 {
          WindowIsSegments(Init(log), n - 1, t);
        }
      } else {
        WindowIsSegments(Init(log), n, t);
        if n == 0 {
          NothingInNoWindow(Init(log), t);
        }
      }
    }
  }

  lemma NothingInNoWindow(log: History, t: Tally)
    ensures InWindow(log, 0, t) == 0
  {}

  /** Requests past the kill switch are those let in and those turned away as busy. */
  lemma {:induction false} BusyIsTheDifference(log: History, n: nat)
    ensures InWindow(log, n, TotalKs) == InWindow(log, n, Total) + InWindow(log, n, Busy)
  {
    if log != [] && n > 0 {
      BusyIsTheDifference(Init(log), if Last(log).Tick? then n - 1 else n);
    }
  }

  /** Exempt requests are never turned away. */
  ghost predicate ExemptPass(log: History) {
    forall i :: 0 <= i < |log| && log[i].Asked? && log[i].exempt ==> log[i].verdict == Allowed
  }

  /** A service's kill switch is ahead of its limit by the requests turned away and those exempted. */
  lemma {:induction false} ExcessIsTheDifference(log: History, n: nat, s: string)
    requires ExemptPass(log)
    ensures InWindow(log, n, ServiceKs(s)) == InWindow(log, n, Service(s)) + InWindow(log, n, ServiceExcess(s))
  {
    if log != [] && n > 0 {
      assert Last(log) == log[|log| - 1];
      assert forall i :: 0 <= i < |Init(log)| ==> Init(log)[i] == log[i];
      ExcessIsTheDifference(Init(log), if Last(log).Tick? then n - 1 else n, s);
    }
  }

  /** A refresh never adds to a window. */
  lemma {:induction false} SmallerWindow(log: History, n: nat, t: Tally)
    ensures InWindow(log, n, t) <= InWindow(log, n + 1, t)
  {
    WindowIsSegments(log, n, t);
  }

  ghost predicate Never(log: History, t: Tally) {
    forall i :: 0 <= i < |log| ==> !Counts(t, log[i])
  }

  lemma {:induction false} NeverMeansZero(log: History, j: nat, t: Tally)
    requires Never(log, t)
    ensures Segment(log, j, t) == 0 && InWindow(log, j, t) == 0
  {
    if log != [] {
      assert forall i :: 0 <= i < |Init(log)| ==> Init(log)[i] == log[i];
      NeverMeansZero(Init(log), j, t);
      if j > 0 {
        NeverMeansZero(Init(log), j - 1, t);
      }
    }
  }

  // ----- the ring of buckets -----

  datatype Ring = Ring(buckets: seq<nat>, index: nat, rps: int, rpsLimit: real)

  type Counter = c: Ring | c.index < |c.buckets| witness Ring([0], 0, 0, 0.0)

  /** Slots that were never written read as zero: the source tests them for truth before use. */
  function NewCounter(n: nat, limit: real): Counter
    requires n > 0
  {
    Ring(seq(n, _ => 0), 0, 0, limit)
  }

  function Increment(c: Counter): Counter {
    c.(buckets := c.buckets[c.index := c.buckets[c.index] + 1], rps := c.rps + 1)
  }

  function Refresh(c: Counter): Counter {
    var next := (c.index + 1) % |c.buckets|;
    c.(buckets := c.buckets[next := 0], index := next, rps := c.rps - c.buckets[next])
  }

  predicate Over(c: Counter) {
    c.rpsLimit > 0.0 && c.rps as real > c.rpsLimit
  }

  /** The slot written `j` refreshes ago. */
  function Slot(index: nat, j: nat, n: nat): int {
    if j <= index then index - j else index - j + n
  }

  /** The counter shows exactly what its tally counted in the window. */
  ghost predicate Shows(c: Counter, n: nat, log: History, t: Tally) {
    && |c.buckets| == n
    && (forall j :: 0 <= j < n ==> c.buckets[Slot(c.index, j, n)] == Segment(log, j, t))
    && c.rps == InWindow(log, n, t)
  }

  lemma NewShows(n: nat, limit: real, log: History, t: Tally)
    requires n > 0 && Never(log, t)
    ensures Shows(NewCounter(n, limit), n, log, t)
  {
    NeverMeansZero(log, n, t);
    forall j | 0 <= j < n ensures Segment(log, j, t) == 0 {
      NeverMeansZero(log, j, t);
    }
  }

  lemma AskedShows(c: Counter, n: nat, log: History, t: Tally, m: Mark)
    requires Shows(c, n, log, t) && m.Asked?
    ensures Shows(if Counts(t, m) then Increment(c) else c, n, log + [m], t)
  {
    Extend(log, m);
    var c' := if Counts(t, m) then Increment(c) else c;
    forall j | 0 <= j < n ensures c'.buckets[Slot(c'.index, j, n)] == Segment(log + [m], j, t) {
      assert c.buckets[Slot(c.index, j, n)] == Segment(log, j, t);
    }
  }

  lemma NextSlot(index: nat, n: nat)
    requires index < n
    ensures (index + 1) % n == (if index + 1 == n then 0 else index + 1) == Slot(index, n - 1, n)
  {}

  lemma TickShows(c: Counter, n: nat, log: History, t: Tally)
    requires Shows(c, n, log, t)
    ensures Shows(Refresh(c), n, log + [Tick], t)
  {
    Extend(log, Tick);
    NextSlot(c.index, n);
    WindowIsSegments(log, n - 1, t);
    var c' := Refresh(c);
    assert c.buckets[c'.index] == Segment(log, n - 1, t);
    forall j | 0 <= j < n ensures c'.buckets[Slot(c'.index, j, n)] == Segment(log + [Tick], j, t) {
      if j > 0 {
        assert Slot(c'.index, j, n) == Slot(c.index, j - 1, n);
        assert c.buckets[Slot(c.index, j - 1, n)] == Segment(log, j - 1, t);
      }
    }
  }

  /** The assertion in `refresh` cannot fail: the outgoing bucket never exceeds the sum. */
  lemma RefreshStaysNonNegative(c: Counter, n: nat, log: History, t: Tally)
    requires Shows(c, n, log, t)
    ensures 0 <= Refresh(c).rps <= c.rps
  {
    TickShows(c, n, log, t);
  }

  // ----- the object -----

  class RateLimiterCounter {
    const numOfBuckets: nat
    const buckets: array<nat>
    var index: nat
    var rps: int
    var rpsLimit: real

    ghost predicate InBounds()
      reads this
    {
      index < buckets.Length == numOfBuckets
    }

    ghost function View(): Counter
      requires InBounds()
      reads this, buckets
    {
      Ring(buckets[..], index, rps, rpsLimit)
    }

    ghost predicate Valid(log: History, t: Tally)
      reads this, buckets
    {
      InBounds() && Shows(View(), numOfBuckets, log, t)
    }

    constructor (n: nat, limit: real, ghost log: History, ghost t: Tally)
      requires n > 0 && Never(log, t)
      ensures Valid(log, t) && fresh(buckets)
      ensures numOfBuckets == n && View() == NewCounter(n, limit)
    {
      numOfBuckets := n;
      buckets := new nat[n](_ => 0);
      index, rps, rpsLimit := 0, 0, limit;
      new;
      assert buckets[..] == seq(n, _ => 0);
      NewShows(n, limit, log, t);
    }

    /** Moves on to the next bucket, dropping what it held from the sum. */
    method MoveOn(ghost log: History, ghost t: Tally)
      requires Valid(log, t)
      modifies this`index, this`rps, buckets
      ensures Valid(log + [Tick], t) && View() == Refresh(old(View()))
      ensures rps >= 0
    {
      var next := (index + 1) % numOfBuckets;
      TickShows(View(), numOfBuckets, log, t);
      RefreshStaysNonNegative(View(), numOfBuckets, log, t);
      if buckets[next] != 0 {
        rps := rps - buckets[next];
      }
      assert rps >= 0;
      index := next;
      buckets[index] := 0;
    }

    method Count(ghost log: History, ghost t: Tally, ghost m: Mark)
      requires Valid(log, t) && Counts(t, m)
      modifies this`rps, buckets
      ensures Valid(log + [m], t) && View() == Increment(old(View()))
    {
      AskedShows(View(), numOfBuckets, log, t, m);
      buckets[index] := buckets[index] + 1;
      rps := rps + 1;
    }
  }
}
