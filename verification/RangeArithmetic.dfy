/**
  The mesh-wide theorem behind partial affinity: when every relay of a service cuts its
  own slice of the same sorted worker list, every worker ends up in enough slices and
  in the same number of slices as any other worker, give or take one.
 */
module RangeArithmetic {
  import opened Options
  import opened HostOrder
  import opened PartialRanges
  import opened Arithmetic

  // ----- floors and ceilings -----

  lemma CeilBounds(a: int, b: int)
    requires b > 0
    ensures (CeilDiv(a, b) - 1) * b < a <= CeilDiv(a, b) * b
  {
    FloorBounds(a + b - 1, b);
    var c := CeilDiv(a, b);
    assert (c - 1) * b == c * b - b && (c + 1) * b == c * b + b;
  }

  /** `q` is below the ceiling of `a / b` exactly when `q * b` is below `a`. */
  lemma BelowCeil(q: int, a: int, b: int)
    requires b > 0
    ensures q < CeilDiv(a, b) <==> q * b < a
  {
    CeilBounds(a, b);
    var c := CeilDiv(a, b);
    if q < c {
      ScaleAtMost(q, c - 1, b);
    } else {
      ScaleAtMost(c, q, b);
    }
  }

  /** The floor of `a / b` is at most `q` exactly when `a` is below `(q + 1) * b`. */
  lemma FloorAtMost(q: int, a: int, b: int)
    requires b > 0
    ensures a / b <= q <==> a < (q + 1) * b
  {
    FloorBounds(a, b);
    var f := a / b;
    if f <= q {
      ScaleAtMost(f + 1, q + 1, b);
    } else {
      ScaleAtMost(q + 1, f, b);
    }
  }

  // ----- which relays reach which worker -----

  /**
    Relay number `i` and worker number `w`, both on the unrolled line of integers:
    the worker is in the relay's slice exactly when the relay's real-valued position
    lies strictly between the worker's two edges.
   */
  predicate Near(i: int, w: int, relays: nat, workers: nat, length: nat) {
    (w - length) * relays < i * workers < (w + 1) * relays
  }

  /** Relay `i` of one turn reaches worker `w`, directly or around the end of the list. */
  ghost predicate Reaches(i: int, w: int, relays: nat, workers: nat, length: nat) {
    Near(i, w, relays, workers, length) || Near(i - relays, w, relays, workers, length)
  }

  /** Position `w` lies in the cyclic interval of `workers` positions from `lo` up to `hi`. */
  predicate InCycle(w: int, lo: int, hi: int, workers: int) {
    lo <= w < hi || lo <= w + workers < hi
  }

  lemma StopIsCeilPlusLength(i: nat, relays: nat, workers: nat, length: nat)
    requires relays > 0
    ensures UnwrappedStop(i, relays, workers, length) == CeilDiv(i * workers, relays) + length
  {
    var a, c, u := i * workers, CeilDiv(i * workers, relays), UnwrappedStop(i, relays, workers, length);
    CeilBounds(a, relays);
    CeilBounds(a + length * relays, relays);
    assert (c + length) * relays == c * relays + length * relays;
    assert (c + length - 1) * relays == (c - 1) * relays + length * relays;
    CancelLess(c + length - 1, u, relays);
    CancelLess(u - 1, c + length, relays);
  }

  lemma WidthOfSlice(i: nat, relays: nat, workers: nat, length: nat)
    requires relays > 0
    ensures var n := UnwrappedStop(i, relays, workers, length) - SliceStart(i, relays, workers);
      n == if i * workers % relays == 0 then length else length + 1
  {
    StopIsCeilPlusLength(i, relays, workers, length);
    var a := i * workers;
    var f, c := a / relays, CeilDiv(a, relays);
    FloorBounds(a, relays);
    CeilBounds(a, relays);
    assert a == f * relays + a % relays;
    if a % relays == 0 {
      CancelLess(c - 1, f, relays);
      assert f * relays <= c * relays;
      CancelLess(f, c + 1, relays);
    } else {
      CancelLess(c - 1, f + 1, relays);
      CancelLess(f, c, relays);
    }
  }

  lemma UnwrappedIsNear(i: nat, w: nat, relays: nat, workers: nat, length: nat)
    requires i < relays
    ensures SliceStart(i, relays, workers) <= w < UnwrappedStop(i, relays, workers, length)
      <==> Near(i, w, relays, workers, length)
  {
    StopIsCeilPlusLength(i, relays, workers, length);
    FloorAtMost(w, i * workers, relays);
    BelowCeil(w - length, i * workers, relays);
  }

  lemma WrappedIsNear(i: nat, w: nat, relays: nat, workers: nat, length: nat)
    requires i < relays && w < workers
    ensures w + workers < UnwrappedStop(i, relays, workers, length)
      <==> Near(i - relays, w, relays, workers, length)
  {
    StopIsCeilPlusLength(i, relays, workers, length);
    BelowCeil(w + workers - length, i * workers, relays);
    Distribute(w - length, workers, relays);
    Distribute(i - relays, relays, workers);
    ScaleAtMost(i - relays, 0, workers);
    ScaleAtMost(1, w + 1, relays);
    assert workers * relays == relays * workers;
  }

  lemma InCycleIsNear(i: nat, w: nat, relays: nat, workers: nat, length: nat)
    requires i < relays && w < workers
    ensures InCycle(w, SliceStart(i, relays, workers), UnwrappedStop(i, relays, workers, length), workers)
      <==> Reaches(i, w, relays, workers, length)
  {
    SliceStartInBounds(i, relays, workers);
    UnwrappedIsNear(i, w, relays, workers, length);
    WrappedIsNear(i, w, relays, workers, length);
  }

  /** The first integer `i` with `Near(i, w)`, and the first one past them. */
  function FirstNear(w: int, relays: nat, workers: nat, length: nat): int
    requires workers > 0
  {
    (w - length) * relays / workers + 1
  }

  function PastNear(w: int, relays: nat, workers: nat): int
    requires workers > 0
  {
    CeilDiv((w + 1) * relays, workers)
  }

  lemma NearIsInterval(i: int, w: int, relays: nat, workers: nat, length: nat)
    requires workers > 0
    ensures Near(i, w, relays, workers, length) <==>
      FirstNear(w, relays, workers, length) <= i < PastNear(w, relays, workers)
  {
    var x := (w - length) * relays;
    FloorAtMost(i - 1, x, workers);
    BelowCeil(i, (w + 1) * relays, workers);
  }

  /** The number of slices a worker gets, up to one: the ceiling of `(length + 1) * relays / workers`. */
  function Target(relays: nat, workers: nat, length: nat): int
    requires workers > 0
  {
    CeilDiv((length + 1) * relays, workers)
  }

  lemma NearCount(w: nat, relays: nat, workers: nat, length: nat)
    requires workers > 0
    ensures var n := PastNear(w, relays, workers) - FirstNear(w, relays, workers, length);
      Target(relays, workers, length) - 1 <= n <= Target(relays, workers, length)
  {
    var x, y, k := (w - length) * relays, (w + 1) * relays, Target(relays, workers, length);
    var f, c := x / workers, PastNear(w, relays, workers);
    assert y - x == (length + 1) * relays;
    FloorBounds(x, workers);
    CeilBounds(y, workers);
    CeilBounds(y - x, workers);
    assert (c - f) * workers == c * workers - f * workers;
    CancelLess(k - 1, c - f, workers);
    assert (c - f - 2) * workers == (c - 1) * workers - (f + 1) * workers;
    CancelLess(c - f - 2, k, workers);
  }

  lemma PastNearWithinTurn(w: nat, relays: nat, workers: nat)
    requires w < workers && 0 < relays
    ensures 0 < PastNear(w, relays, workers) <= relays
  {
    var y, b := (w + 1) * relays, PastNear(w, relays, workers);
    CeilBounds(y, workers);
    ScaleAtMost(w + 1, workers, relays);
    assert workers * relays == relays * workers;
    CancelLess(b - 1, relays, workers);
    ScaleAtMost(1, w + 1, relays);
    CancelLess(0, b, workers);
  }

  lemma FirstNearWithinTurn(w: nat, relays: nat, workers: nat, length: nat)
    requires w < workers && length < workers && 0 < relays
    ensures 0 - relays < FirstNear(w, relays, workers, length)
  {
    var x := (w - length) * relays;
    FloorBounds(x, workers);
    ScaleAtMost(1 - workers, w - length, relays);
    assert (1 - workers) * relays == relays - workers * relays;
    assert (0 - relays) * workers == 0 - workers * relays;
    CancelLess(0 - relays, x / workers + 1, workers);
  }

  lemma NearFitsOneTurn(w: nat, relays: nat, workers: nat, length: nat)
    requires w < workers && length < workers && 0 < relays
    ensures PastNear(w, relays, workers) - FirstNear(w, relays, workers, length) <= relays
  {
    var k := Target(relays, workers, length);
    NearCount(w, relays, workers, length);
    CeilBounds((length + 1) * relays, workers);
    ScaleAtMost(length + 1, workers, relays);
    assert workers * relays == relays * workers;
    CancelLess(k - 1, relays, workers);
  }

  // ----- counting -----

  lemma {:induction false} IntervalSize(s: set<int>, lo: int, hi: int)
    requires lo <= hi && forall i :: i in s <==> lo <= i < hi
    ensures |s| == hi - lo
    decreases hi - lo
  {
    if lo == hi {
      assert s == {};
    } else {
      IntervalSize(s - {lo}, lo + 1, hi);
    }
  }

  /** The relays reaching a worker are the integers near it, folded onto one turn. */
  lemma ReachCount(s: set<int>, w: nat, relays: nat, workers: nat, length: nat)
    requires w < workers && length < workers && 0 < relays
    requires forall i :: i in s <==> 0 <= i < relays && Reaches(i, w, relays, workers, length)
    ensures |s| == PastNear(w, relays, workers) - FirstNear(w, relays, workers, length)
  {
    var a, b := FirstNear(w, relays, workers, length), PastNear(w, relays, workers);
    NearFitsOneTurn(w, relays, workers, length);
    FirstNearWithinTurn(w, relays, workers, length);
    PastNearWithinTurn(w, relays, workers);
    NearCount(w, relays, workers, length);
    TargetPositive(relays, workers, length);
    var low := set i | i in s && i < b;
    var high := s - low;
    forall i | 0 <= i < relays ensures i in s <==> a <= i < b || a <= i - relays < b {
      NearIsInterval(i, w, relays, workers, length);
      NearIsInterval(i - relays, w, relays, workers, length);
    }
    assert forall i :: i in low <==> Max(a, 0) <= i < b;
    assert forall i :: i in high <==> Min(a + relays, relays) <= i < relays;
    IntervalSize(low, Max(a, 0), b);
    IntervalSize(high, Min(a + relays, relays), relays);
    assert |s| == |low| + |high|;
  }

  lemma TargetPositive(relays: nat, workers: nat, length: nat)
    requires workers > 0 && relays > 0
    ensures Target(relays, workers, length) > 0
  {
    CeilBounds((length + 1) * relays, workers);
    assert (length + 1) * relays > 0;
    CancelLess(0, Target(relays, workers, length), workers);
  }

  // ----- the slices themselves -----

  /** The workers of relay number `i`, as `recompute` leaves them. */
  ghost function Affine(relays: seq<HostPort>, i: nat, workers: seq<HostPort>,
                        perWorker: nat, perRelay: nat): seq<HostPort>
    requires i < |relays|
  {
    Direct(relays[i], perWorker, perRelay, relays, workers).value.affineWorkers
  }

  /** The relays whose slice holds a given worker. */
  ghost function Covering(relays: seq<HostPort>, workers: seq<HostPort>,
                          perWorker: nat, perRelay: nat, worker: HostPort): set<int> {
    set i | 0 <= i < |relays| && worker in Affine(relays, i, workers, perWorker, perRelay)
  }

  lemma Wrap(x: nat, m: nat)
    requires 0 < m && x < 2 * m
    ensures x % m == if x < m then x else x - m
  {}

  lemma SliceRangeIsCyclic(arr: seq<HostPort>, lo: nat, n: nat)
    requires lo < |arr| && 0 < n <= |arr|
    ensures var s := SliceRange(arr, lo, (lo + n) % |arr|);
      && |s| == n
      && forall k :: 0 <= k < n ==>
           s[k] == arr[if n == |arr| then k else if lo + k < |arr| then lo + k else lo + k - |arr|]
  {
    Wrap(lo + n, |arr|);
    var hi := (lo + n) % |arr|;
    var s := SliceRange(arr, lo, hi);
    if n == |arr| {
      assert s == arr;
    } else if lo + n < |arr| {
      assert s == arr[lo..hi];
    } else {
      assert s == arr[lo..] + arr[..hi];
    }
  }

  /** The relay is listed once, so it finds itself at its own position. */
  lemma SelfIndex(relays: seq<HostPort>, i: nat)
    requires StrictlySorted(relays) && i < |relays|
    ensures IndexIn(relays, relays[i]) == Some(i)
  {
    IndexIsAnswer(relays, relays[i], i);
  }

  ghost predicate StrictlyDistinct(s: seq<HostPort>) {
    forall i, j :: 0 <= i < j < |s| ==> s[i] != s[j]
  }

  /** Reading on from some worker, around the end of the list if need be. */
  ghost predicate ConsecutiveFrom(s: seq<HostPort>, workers: seq<HostPort>, lo: nat) {
    && |s| <= |workers|
    && (s != [] ==> lo < |workers|)
    && forall k :: 0 <= k < |s| ==> s[k] == workers[if lo + k < |workers| then lo + k else lo + k - |workers|]
  }

  ghost predicate Consecutive(s: seq<HostPort>, workers: seq<HostPort>) {
    exists lo: nat :: ConsecutiveFrom(s, workers, lo)
  }

  lemma CyclicIsDistinct(s: seq<HostPort>, workers: seq<HostPort>, lo: nat)
    requires StrictlySorted(workers) && ConsecutiveFrom(s, workers, lo)
    ensures StrictlyDistinct(s) && Consecutive(s, workers)
  {
    var w := |workers|;
    forall i, j | 0 <= i < j < |s| ensures s[i] != s[j] {
      StrictlySortedIsInjective(workers, if lo + i < w then lo + i else lo + i - w,
                                         if lo + j < w then lo + j else lo + j - w);
    }
  }

  lemma {:induction false} CyclicMember(s: seq<HostPort>, workers: seq<HostPort>, lo: nat, w: nat)
    requires StrictlySorted(workers) && ConsecutiveFrom(s, workers, lo) && s != [] && w < |workers|
    ensures workers[w] in s <==> InCycle(w, lo, lo + |s|, |workers|)
  {
    var m := |workers|;
    if workers[w] in s {
      var k :| 0 <= k < |s| && s[k] == workers[w];
      StrictlySortedIsInjective(workers, if lo + k < m then lo + k else lo + k - m, w);
    }
    if InCycle(w, lo, lo + |s|, m) {
      assert s[if lo <= w then w - lo else w + m - lo] == workers[w];
    }
  }

  /** The slice of relay number `i`, when it is not the whole list: where it starts and ends. */
  lemma AffineIsCyclic(relays: seq<HostPort>, i: nat, workers: seq<HostPort>, perWorker: nat, perRelay: nat)
    requires StrictlySorted(relays) && i < |relays| && perRelay >= 1
    ensures var length := SliceLength(|relays|, |workers|, perWorker, perRelay);
      var slice := Affine(relays, i, workers, perWorker, perRelay);
      var lo, hi := SliceStart(i, |relays|, |workers|), UnwrappedStop(i, |relays|, |workers|, length);
      if length >= |workers| then slice == workers
      else
        && |slice| == hi - lo == (if i * |workers| % |relays| == 0 then length else length + 1)
        && slice != []
        && if |slice| == |workers| then slice == workers else ConsecutiveFrom(slice, workers, lo)
  {
    SelfIndex(relays, i);
    var r, w := |relays|, |workers|;
    var length := SliceLength(r, w, perWorker, perRelay);
    if length < w {
      var lo, hi := SliceStart(i, r, w), UnwrappedStop(i, r, w, length);
      SliceStartInBounds(i, r, w);
      WidthOfSlice(i, r, w, length);
      assert lo + (hi - lo) == hi;
      SliceRangeIsCyclic(workers, lo, hi - lo);
    }
  }

  /**
    Shape of one relay's slice: `n` consecutive workers around the ring, none twice, where
    `n` is the required length, or one more when the relay's position is fractional.
   */
  lemma SliceShape(relays: seq<HostPort>, i: nat, workers: seq<HostPort>, perWorker: nat, perRelay: nat)
    requires StrictlySorted(relays) && i < |relays| && StrictlySorted(workers)
    requires perRelay >= 1
    ensures var length := SliceLength(|relays|, |workers|, perWorker, perRelay);
      var slice := Affine(relays, i, workers, perWorker, perRelay);
      && StrictlyDistinct(slice)
      && |slice| == (if length < |workers| && i * |workers| % |relays| != 0 then length + 1 else length)
      && Consecutive(slice, workers)
  {
    AffineIsCyclic(relays, i, workers, perWorker, perRelay);
    var slice := Affine(relays, i, workers, perWorker, perRelay);
    CyclicIsDistinct(slice, workers, if slice == workers then 0 else SliceStart(i, |relays|, |workers|));
  }

  lemma MemberOfSlice(relays: seq<HostPort>, i: nat, workers: seq<HostPort>, perWorker: nat, perRelay: nat, w: nat)
    requires StrictlySorted(relays) && i < |relays| && StrictlySorted(workers) && w < |workers|
    requires perRelay >= 1
    ensures var length := SliceLength(|relays|, |workers|, perWorker, perRelay);
      workers[w] in Affine(relays, i, workers, perWorker, perRelay) <==>
      length >= |workers| || Reaches(i, w, |relays|, |workers|, length)
  {
    AffineIsCyclic(relays, i, workers, perWorker, perRelay);
    var length := SliceLength(|relays|, |workers|, perWorker, perRelay);
    if length < |workers| {
      InCycleIsNear(i, w, |relays|, |workers|, length);
      SliceStartInBounds(i, |relays|, |workers|);
      var slice := Affine(relays, i, workers, perWorker, perRelay);
      if |slice| != |workers| {
        CyclicMember(slice, workers, SliceStart(i, |relays|, |workers|), w);
      }
    }
  }

  /** How many slices each worker is in: all of them, or the target count or one less. */
  lemma CoverSize(relays: seq<HostPort>, workers: seq<HostPort>, perWorker: nat, perRelay: nat, w: nat)
    requires StrictlySorted(relays) && relays != [] && StrictlySorted(workers) && w < |workers|
    requires perRelay >= 1
    ensures var n := |Covering(relays, workers, perWorker, perRelay, workers[w])|;
      var length := SliceLength(|relays|, |workers|, perWorker, perRelay);
      if length >= |workers| then n == |relays|
      else Target(|relays|, |workers|, length) - 1 <= n <= Target(|relays|, |workers|, length)
  {
    var s := Covering(relays, workers, perWorker, perRelay, workers[w]);
    var length := SliceLength(|relays|, |workers|, perWorker, perRelay);
    forall i | 0 <= i < |relays|
      ensures i in s <==> length >= |workers| || Reaches(i, w, |relays|, |workers|, length)
    {
      MemberOfSlice(relays, i, workers, perWorker, perRelay, w);
    }
    if length >= |workers| {
      IntervalSize(s, 0, |relays|);
    } else {
      ReachCount(s, w, |relays|, |workers|, length);
      NearCount(w, |relays|, |workers|, length);
    }
  }

  /** Coverage: every worker is in the slices of enough relays. */
  lemma Coverage(relays: seq<HostPort>, workers: seq<HostPort>, perWorker: nat, perRelay: nat, worker: HostPort)
    requires StrictlySorted(relays) && relays != [] && StrictlySorted(workers) && worker in workers
    requires perRelay >= 1
    ensures |Covering(relays, workers, perWorker, perRelay, worker)| >= Min(perWorker, |relays|)
  {
    var w :| 0 <= w < |workers| && workers[w] == worker;
    CoverSize(relays, workers, perWorker, perRelay, w);
    var length := SliceLength(|relays|, |workers|, perWorker, perRelay);
    if length < |workers| {
      TargetAboveMinimum(|relays|, |workers|, perWorker, length);
    }
  }

  lemma TargetAboveMinimum(relays: nat, workers: nat, perWorker: nat, length: nat)
    requires relays > 0 && workers > 0 && length >= CeilDiv(perWorker * workers, relays)
    ensures Target(relays, workers, length) > perWorker
  {
    var k, c := Target(relays, workers, length), CeilDiv(perWorker * workers, relays);
    CeilBounds(perWorker * workers, relays);
    CeilBounds((length + 1) * relays, workers);
    assert (length - c) * relays >= 0;
    assert (length + 1) * relays == (length - c) * relays + c * relays + relays;
    CancelLess(perWorker, k, workers);
  }

  /** Balance: any two workers are in the same number of slices, give or take one. */
  lemma Balance(relays: seq<HostPort>, workers: seq<HostPort>, perWorker: nat, perRelay: nat,
                worker: HostPort, other: HostPort)
    requires StrictlySorted(relays) && relays != [] && StrictlySorted(workers)
    requires worker in workers && other in workers
    requires perRelay >= 1
    ensures var n := |Covering(relays, workers, perWorker, perRelay, worker)|;
      var m := |Covering(relays, workers, perWorker, perRelay, other)|;
      m - 1 <= n <= m + 1
  {
    var w :| 0 <= w < |workers| && workers[w] == worker;
    var o :| 0 <= o < |workers| && workers[o] == other;
    CoverSize(relays, workers, perWorker, perRelay, w);
    CoverSize(relays, workers, perWorker, perRelay, o);
  }

  // ----- slices are no longer than the minimums call for -----

  /** The length is the larger of the two minimums, as far as there are workers. */
  lemma LengthIsMinimal(relays: nat, workers: nat, perWorker: nat, perRelay: nat)
    requires relays > 0
    ensures var n := SliceLength(relays, workers, perWorker, perRelay);
      && n >= Min(workers, perRelay)
      && n * relays >= Min(workers * relays, perWorker * workers)
      && (n <= perRelay || (n - 1) * relays < perWorker * workers)
  {
    var n, c := SliceLength(relays, workers, perWorker, perRelay), CeilDiv(perWorker * workers, relays);
    CeilBounds(perWorker * workers, relays);
    if n < workers {
      ScaleAtMost(c, n, relays);
    }
    if n > perRelay {
      ScaleAtMost(n - 1, c - 1, relays);
    }
  }

  /**
    A slice gives the relay and the workers what the minimums ask for, as far as there are workers, and
    no more than rounding needs: without its last two workers it would fall short.
   */
  lemma SliceIsMinimal(relays: seq<HostPort>, i: nat, workers: seq<HostPort>, perWorker: nat, perRelay: nat)
    requires StrictlySorted(relays) && i < |relays| && StrictlySorted(workers) && perRelay >= 1
    ensures var n := |Affine(relays, i, workers, perWorker, perRelay)|;
      && n <= |workers|
      && n >= Min(|workers|, perRelay)
      && n * |relays| >= Min(|workers| * |relays|, perWorker * |workers|)
      && (n - 1 <= perRelay || (n - 2) * |relays| < perWorker * |workers|)
  {
    hide Affine, StrictlySorted, SliceLength, StrictlyDistinct, Consecutive;
    var n, r, w := |Affine(relays, i, workers, perWorker, perRelay)|, |relays|, |workers|;
    var length: int := SliceLength(r, w, perWorker, perRelay);
    SliceShape(relays, i, workers, perWorker, perRelay);
    LengthIsMinimal(r, w, perWorker, perRelay);
    ScaleAtMost(length, n, r);
    ScaleAtMost(n - 2, length - 1, r);
  }

  /** So no worker is in more slices than the minimums call for, give or take the rounding. */
  lemma CoverIsMinimal(relays: seq<HostPort>, workers: seq<HostPort>, perWorker: nat, perRelay: nat, worker: HostPort)
    requires StrictlySorted(relays) && relays != [] && StrictlySorted(workers) && worker in workers
    requires perRelay >= 1
    ensures var n := |Covering(relays, workers, perWorker, perRelay, worker)|;
      (n - 1) * |workers| < Max(perWorker * |workers| + 2 * |relays|, (perRelay + 1) * |relays|)
  {
    hide Covering, StrictlySorted, SliceLength, Target;
    var w: nat :| w < |workers| && workers[w] == worker;
    var n, r, m := |Covering(relays, workers, perWorker, perRelay, worker)|, |relays|, |workers|;
    var length := SliceLength(r, m, perWorker, perRelay);
    CoverSize(relays, workers, perWorker, perRelay, w);
    LengthIsMinimal(r, m, perWorker, perRelay);
    AtMostFor(n, r, m, perWorker, perRelay, length);
  }

  lemma AtMostFor(n: nat, relays: nat, workers: nat, perWorker: nat, perRelay: nat, length: nat)
    requires relays > 0 && workers > 0 && length <= workers
    requires if length >= workers then n == relays else n <= Target(relays, workers, length)
    requires length <= perRelay || (length - 1) * relays < perWorker * workers
    ensures (n - 1) * workers < Max(perWorker * workers + 2 * relays, (perRelay + 1) * relays)
  {
    if length < workers {
      CeilBounds((length + 1) * relays, workers);
      ScaleAtMost(n - 1, Target(relays, workers, length) - 1, workers);
    } else {
      Distribute(relays, -1, workers);
    }
    assert (n - 1) * workers < (length + 1) * relays;
    if length <= perRelay {
      ScaleAtMost(length + 1, perRelay + 1, relays);
    } else {
      Distribute(length - 1, 2, relays);
    }
  }

  /** Where a slice begins: as far along the workers as the relay is along the relays. */
  lemma SliceBegins(relays: seq<HostPort>, i: nat, workers: seq<HostPort>, perWorker: nat, perRelay: nat)
    requires StrictlySorted(relays) && i < |relays| && StrictlySorted(workers) && perRelay >= 1
    ensures var slice := Affine(relays, i, workers, perWorker, perRelay);
      if |slice| == |workers| then slice == workers
      else slice != [] && 0 <= i * |workers| / |relays| < |workers| && slice[0] == workers[i * |workers| / |relays|]
  {
    AffineIsCyclic(relays, i, workers, perWorker, perRelay);
  }
}
