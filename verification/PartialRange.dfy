/**
  The slice of a service's workers that one relay stays connected to
  (partial_range.js). `Range` is the object's value; the class PartialRange below
  keeps that value in fields, splicing its worker list and recomputing lazily.
 */
module PartialRanges {
  import opened Arithmetic
  import opened Options
  import opened HostOrder
  import SortedIndexOf

  // ----- arithmetic of the slice -----

  function Min(a: int, b: int): int { if a <= b then a else b }

  function Max(a: int, b: int): int { if a >= b then a else b }

  /** The ceiling of the rational `a / b`. */
  function CeilDiv(a: int, b: int): int
    requires b > 0
  {
    (a + b - 1) / b
  }

  /** How many workers a relay takes: at least `perRelay`, at most all of them. */
  function SliceLength(relays: nat, workers: nat, perWorker: nat, perRelay: nat): (n: nat)
    requires relays > 0
    ensures n <= workers
  {
    Min(workers, Max(perRelay, CeilDiv(perWorker * workers, relays)))
  }

  function SliceStart(index: nat, relays: nat, workers: nat): nat
    requires relays > 0
  {
    index * workers / relays
  }

  /** The end of the slice, not yet reduced modulo the number of workers. */
  function UnwrappedStop(index: nat, relays: nat, workers: nat, length: nat): int
    requires relays > 0
  {
    CeilDiv(index * workers + length * relays, relays)
  }

  function SliceRange(arr: seq<HostPort>, lo: nat, hi: nat): seq<HostPort>
    requires lo <= |arr| && hi <= |arr|
  {
    if lo == hi then arr
    else if hi > lo then arr[lo..hi]
    else arr[lo..] + arr[..hi]
  }

  // ----- the value of a partial range -----

  datatype Slice = Slice(relayIndex: nat, length: nat, start: nat, stop: nat, affineWorkers: seq<HostPort>)

  /** `slice` is missing while the range is invalid: never computed, or the relay is not listed. */
  datatype Range = Range(
    relayHostPort: HostPort,
    minPeersPerWorker: nat,
    minPeersPerRelay: nat,
    relays: Option<seq<HostPort>>,
    workers: Option<seq<HostPort>>,
    pending: bool,
    slice: Option<Slice>)

  function IndexIn(a: seq<HostPort>, value: HostPort): (r: Option<nat>)
    ensures r.Some? ==> r.value < |a| && a[r.value] == value
    ensures r.None? ==> value !in a
  {
    if a == [] then None
    else if a[0] == value then Some(0)
    else match IndexIn(a[1..], value) case None => None case Some(i) => Some(i + 1)
  }

  lemma SliceStartInBounds(index: nat, relays: nat, workers: nat)
    requires index < relays && 0 < workers
    ensures SliceStart(index, relays, workers) < workers
  {
    var s := SliceStart(index, relays, workers);
    FloorBounds(index * workers, relays);
    ScaleAtMost(index + 1, relays, workers);
    Distribute(index, 1, workers);
    assert s * relays < workers * relays;
    CancelLess(s, workers, relays);
  }

  /** The slice computed directly from the two lists; missing when the relay is not listed. */
  function Direct(me: HostPort, perWorker: nat, perRelay: nat,
                  relays: seq<HostPort>, workers: seq<HostPort>): (s: Option<Slice>)
    ensures s.Some? <==> me in relays
    ensures s.Some? ==> s.value.start <= |workers| && s.value.stop <= |workers|
  {
    match IndexIn(relays, me)
    case None => None
    case Some(i) =>
      var length := SliceLength(|relays|, |workers|, perWorker, perRelay);
      if length >= |workers| then
        Some(Slice(i, length, 0, |workers|, SliceRange(workers, 0, |workers|)))
      else
        SliceStartInBounds(i, |relays|, |workers|);
        var start := SliceStart(i, |relays|, |workers|);
        var stop := UnwrappedStop(i, |relays|, |workers|, length) % |workers|;
        Some(Slice(i, length, start, stop, SliceRange(workers, start, stop)))
  }

  /** Options that are 0 or absent default to 1. */
  function OrOne(n: nat): nat { if n == 0 then 1 else n }

  function New(me: HostPort, perWorker: nat, perRelay: nat): Range {
    Range(me, OrOne(perWorker), OrOne(perRelay), None, None, false, None)
  }

  function Insert(a: seq<HostPort>, h: HostPort): seq<HostPort> {
    if a == [] || Less(h, a[0]) then [h] + a
    else if a[0] == h then a
    else [a[0]] + Insert(a[1..], h)
  }

  function Without(a: seq<HostPort>, h: HostPort): seq<HostPort> {
    if a == [] then []
    else if a[0] == h then Without(a[1..], h)
    else [a[0]] + Without(a[1..], h)
  }

  function SetRelays(r: Range, relays: Option<seq<HostPort>>): Range {
    r.(relays := relays, pending := true)
  }

  function SetWorkers(r: Range, workers: seq<HostPort>): Range {
    r.(workers := Some(workers), pending := true)
  }

  function AddWorker(r: Range, h: HostPort): Range
    requires r.workers.Some?
  {
    if h in r.workers.value then r else r.(workers := Some(Insert(r.workers.value, h)), pending := true)
  }

  function RemoveWorker(r: Range, h: HostPort): Range
    requires r.workers.Some?
  {
    if h !in r.workers.value then r else r.(workers := Some(Without(r.workers.value, h)), pending := true)
  }

  function ComputeIfNeeded(r: Range): Range {
    if !r.pending then r
    else if r.relays.Some? && r.workers.Some? then
      r.(pending := false,
         slice := Direct(r.relayHostPort, r.minPeersPerWorker, r.minPeersPerRelay, r.relays.value, r.workers.value))
    else r.(pending := false)
  }

  // ----- what the operations keep -----

  /** Lists are strictly sorted, and a range that is not pending holds the direct slice of its lists. */
  ghost predicate Coherent(r: Range) {
    && (r.relays.Some? ==> StrictlySorted(r.relays.value))
    && (r.workers.Some? ==> StrictlySorted(r.workers.value))
    && (!r.pending && r.relays.Some? && r.workers.Some? ==>
          r.slice == Direct(r.relayHostPort, r.minPeersPerWorker, r.minPeersPerRelay,
                            r.relays.value, r.workers.value))
  }

  lemma {:induction false} InsertKeepsOrder(a: seq<HostPort>, h: HostPort)
    requires StrictlySorted(a)
    ensures StrictlySorted(Insert(a, h))
    ensures Hosts(Insert(a, h)) == Hosts(a) + {h}
  {
    if a == [] {
    } else if Less(h, a[0]) {
      forall i | 0 <= i < |a| ensures Less(h, a[i]) {
        if i > 0 {
          Transitive(h, a[0], a[i]);
        }
      }
    } else if a[0] != h {
      Total(h, a[0]);
      var tail := Insert(a[1..], h);
      InsertKeepsOrder(a[1..], h);
      forall i | 0 <= i < |tail| ensures Less(a[0], tail[i]) {
        assert tail[i] in Hosts(tail);
        assert tail[i] in a[1..] || tail[i] == h;
      }
      assert Hosts(a) == {a[0]} + Hosts(a[1..]);
      assert Hosts(Insert(a, h)) == {a[0]} + Hosts(tail);
    }
  }

  lemma {:induction false} WithoutKeepsOrder(a: seq<HostPort>, h: HostPort)
    requires StrictlySorted(a)
    ensures StrictlySorted(Without(a, h))
    ensures Hosts(Without(a, h)) == Hosts(a) - {h}
    ensures |Without(a, h)| == |a| - (if h in a then 1 else 0)
  {
    if a != [] {
      var tail := Without(a[1..], h);
      WithoutKeepsOrder(a[1..], h);
      assert Hosts(a) == {a[0]} + Hosts(a[1..]);
      if a[0] == h {
        if h in a[1..] {
          var i :| 0 <= i < |a[1..]| && a[1..][i] == h;
          StrictlySortedIsInjective(a, 0, i + 1);
        }
      } else {
        forall i | 0 <= i < |tail| ensures Less(a[0], tail[i]) {
          assert tail[i] in Hosts(tail);
          assert tail[i] in a[1..];
        }
        assert Hosts([a[0]] + tail) == {a[0]} + Hosts(tail);
      }
    }
  }

  /** A strictly sorted list is determined by its members. */
  lemma {:induction false} SortedListIsUnique(a: seq<HostPort>, b: seq<HostPort>)
    requires StrictlySorted(a) && StrictlySorted(b) && Hosts(a) == Hosts(b)
    ensures a == b
  {
    assert a != [] ==> a[0] in Hosts(a);
    assert b != [] ==> b[0] in Hosts(b);
    if a != [] {
      FirstIsLeast(a, b[0]);
      FirstIsLeast(b, a[0]);
      if a[0] != b[0] {
        Asymmetric(a[0], b[0]);
      }
      HostsOfTail(a);
      HostsOfTail(b);
      SortedListIsUnique(a[1..], b[1..]);
      assert a == [a[0]] + a[1..] && b == [b[0]] + b[1..];
    }
  }

  lemma FirstIsLeast(a: seq<HostPort>, h: HostPort)
    requires StrictlySorted(a) && h in a
    ensures AtMost(a[0], h)
  {
    var i :| 0 <= i < |a| && a[i] == h;
  }

  lemma HostsOfTail(a: seq<HostPort>)
    requires StrictlySorted(a) && a != []
    ensures Hosts(a[1..]) == Hosts(a) - {a[0]}
  {
    forall h | h in a[1..] ensures h != a[0] {
      var i :| 0 <= i < |a[1..]| && a[1..][i] == h;
      StrictlySortedIsInjective(a, 0, i + 1);
    }
    forall h | h in a && h != a[0] ensures h in a[1..] {
      var i :| 0 <= i < |a| && a[i] == h;
      assert a[1..][i - 1] == h;
    }
  }

  // ----- every run of the operations -----

  datatype Op =
    | OpRelays(relays: seq<HostPort>)
    | OpWorkers(workers: seq<HostPort>)
    | OpAdd(host: HostPort)
    | OpRemove(host: HostPort)
    | OpCompute

  /** Callers pass sorted duplicate-free lists, and add or remove only once a list was set. */
  ghost predicate LegalRun(ops: seq<Op>)
  {
    ops == [] ||
    var before := ops[..|ops| - 1];
    && LegalRun(before)
    && match ops[|ops| - 1]
       case OpRelays(relays) => StrictlySorted(relays)
       case OpWorkers(workers) => StrictlySorted(workers)
       case OpAdd(_) => Members(before).Some?
       case OpRemove(_) => Members(before).Some?
       case OpCompute => true
  }

  function Apply(r: Range, op: Op): Range {
    match op
    case OpRelays(relays) => SetRelays(r, Some(relays))
    case OpWorkers(workers) => SetWorkers(r, workers)
    case OpAdd(h) => if r.workers.Some? then AddWorker(r, h) else r
    case OpRemove(h) => if r.workers.Some? then RemoveWorker(r, h) else r
    case OpCompute => ComputeIfNeeded(r)
  }

  function ApplyAll(r: Range, ops: seq<Op>): Range {
    if ops == [] then r else Apply(ApplyAll(r, ops[..|ops| - 1]), ops[|ops| - 1])
  }

  /** The set of workers a run leaves, computed on sets alone. */
  ghost function Members(ops: seq<Op>): Option<set<HostPort>> {
    if ops == [] then None
    else
      var before := Members(ops[..|ops| - 1]);
      match ops[|ops| - 1]
      case OpRelays(_) => before
      case OpWorkers(workers) => Some(Hosts(workers))
      case OpAdd(h) => if before.Some? then Some(before.value + {h}) else None
      case OpRemove(h) => if before.Some? then Some(before.value - {h}) else None
      case OpCompute => before
  }

  ghost function LastRelays(ops: seq<Op>): Option<seq<HostPort>> {
    if ops == [] then None
    else match ops[|ops| - 1]
      case OpRelays(relays) => Some(relays)
      case _ => LastRelays(ops[..|ops| - 1])
  }

  lemma StepKeepsCoherence(r: Range, op: Op)
    requires Coherent(r)
    requires op.OpRelays? ==> StrictlySorted(op.relays)
    requires op.OpWorkers? ==> StrictlySorted(op.workers)
    ensures Coherent(Apply(r, op))
  {
    if r.workers.Some? && op.OpAdd? {
      InsertKeepsOrder(r.workers.value, op.host);
    } else if r.workers.Some? && op.OpRemove? {
      WithoutKeepsOrder(r.workers.value, op.host);
    }
  }

  lemma {:induction false} RunInvariant(me: HostPort, perWorker: nat, perRelay: nat, ops: seq<Op>)
    requires LegalRun(ops)
    ensures var r := ApplyAll(New(me, perWorker, perRelay), ops);
      && Coherent(r)
      && r.relays == LastRelays(ops)
      && (r.workers.Some? <==> Members(ops).Some?)
      && (r.workers.Some? ==> Hosts(r.workers.value) == Members(ops).value)
      && r.relayHostPort == me
      && r.minPeersPerWorker == OrOne(perWorker) && r.minPeersPerRelay == OrOne(perRelay)
  {
    if ops != [] {
      var before, op := ops[..|ops| - 1], ops[|ops| - 1];
      RunInvariant(me, perWorker, perRelay, before);
      var r := ApplyAll(New(me, perWorker, perRelay), before);
      StepKeepsCoherence(r, op);
      if r.workers.Some? && op.OpAdd? {
        InsertKeepsOrder(r.workers.value, op.host);
      } else if r.workers.Some? && op.OpRemove? {
        WithoutKeepsOrder(r.workers.value, op.host);
      }
    }
  }

  /**
    Incremental equals from scratch: whatever legal run led here, reading the range gives
    the slice computed directly from the last relay list and from any sorted listing
    of the workers the run leaves.
   */
  lemma IncrementalEqualsDirect(me: HostPort, perWorker: nat, perRelay: nat, ops: seq<Op>, workers: seq<HostPort>)
    requires LegalRun(ops) && LastRelays(ops).Some? && Members(ops).Some?
    requires StrictlySorted(workers) && Hosts(workers) == Members(ops).value
    ensures var r := ComputeIfNeeded(ApplyAll(New(me, perWorker, perRelay), ops));
      && r.workers == Some(workers)
      && r.slice == Direct(me, OrOne(perWorker), OrOne(perRelay), LastRelays(ops).value, workers)
  {
    RunInvariant(me, perWorker, perRelay, ops);
    SortedListIsUnique(ApplyAll(New(me, perWorker, perRelay), ops).workers.value, workers);
  }

  // ----- the object -----

  class PartialRange {
    const relayHostPort: HostPort
    const minPeersPerWorker: nat
    const minPeersPerRelay: nat
    var relays: Option<seq<HostPort>>
    var workers: Option<seq<HostPort>>
    var pendingCompute: Option<int>
    var lastComputed: int
    var slice: Option<Slice>

    ghost function View(): Range
      reads this
    {
      Range(relayHostPort, minPeersPerWorker, minPeersPerRelay, relays, workers, pendingCompute.Some?, slice)
    }

    constructor (me: HostPort, perWorker: nat, perRelay: nat)
      ensures View() == New(me, perWorker, perRelay)
      ensures Coherent(View()) && relayHostPort == me
      ensures minPeersPerWorker == (if perWorker == 0 then 1 else perWorker)
      ensures minPeersPerRelay == (if perRelay == 0 then 1 else perRelay)
    {
      relayHostPort := me;
      minPeersPerWorker := OrOne(perWorker);
      minPeersPerRelay := OrOne(perRelay);
      relays, workers, slice := None, None, None;
      pendingCompute, lastComputed := None, 0;
    }

    method SetRelayList(list: seq<HostPort>, now: int)
      requires Coherent(View()) && StrictlySorted(list)
      modifies this`relays, this`pendingCompute
      ensures View() == SetRelays(old(View()), Some(list)) && Coherent(View())
    {
      relays := Some(list);
      pendingCompute := Some(now);
    }

    method SetWorkerList(list: seq<HostPort>, now: int)
      requires Coherent(View()) && StrictlySorted(list)
      modifies this`workers, this`pendingCompute
      ensures View() == SetWorkers(old(View()), list) && Coherent(View())
    {
      workers := Some(list);
      pendingCompute := Some(now);
    }

    /** Splices the host in at its insertion point. */
    method Add(host: HostPort, now: int)
      requires Coherent(View()) && workers.Some?
      modifies this`workers, this`pendingCompute
      ensures View() == AddWorker(old(View()), host) && Coherent(View())
    {
      var list := workers.value;
      var i := SortedIndexOf.Search(list, host, true);
      if i >= 0 {
        return;
      }
      var at := SortedIndexOf.Complement(i);
      workers := Some(list[..at] + [host] + list[at..]);
      pendingCompute := Some(now);
      SpliceIn(list, host, at);
      InsertKeepsOrder(list, host);
    }

    /** Splices the host out. */
    method Remove(host: HostPort, now: int)
      requires Coherent(View()) && workers.Some?
      modifies this`workers, this`pendingCompute
      ensures View() == RemoveWorker(old(View()), host) && Coherent(View())
    {
      var list := workers.value;
      var i := SortedIndexOf.Search(list, host, true);
      if i < 0 {
        return;
      }
      workers := Some(list[..i] + list[i + 1..]);
      pendingCompute := Some(now);
      SpliceOut(list, host, i);
      WithoutKeepsOrder(list, host);
    }

    method Compute()
      requires Coherent(View())
      modifies this`pendingCompute, this`lastComputed, this`slice
      ensures View() == ComputeIfNeeded(old(View())) && Coherent(View()) && pendingCompute.None?
    {
      if pendingCompute.Some? {
        if relays.Some? && workers.Some? {
          Recompute(pendingCompute.value);
        }
        pendingCompute := None;
      }
    }

    method Recompute(now: int)
      requires relays.Some? && workers.Some? && StrictlySorted(relays.value)
      modifies this`lastComputed, this`slice
      ensures lastComputed == now
      ensures slice == Direct(relayHostPort, minPeersPerWorker, minPeersPerRelay, relays.value, workers.value)
    {
      lastComputed := now;
      var numRelays, numWorkers := |relays.value|, |workers.value|;
      var relayIndex := SortedIndexOf.Search(relays.value, relayHostPort, true);
      if relayIndex < 0 {
        slice := None;
        return;
      }
      IndexIsAnswer(relays.value, relayHostPort, relayIndex);
      var length := CeilDiv(minPeersPerWorker * numWorkers, numRelays);
      length := Max(minPeersPerRelay, length);
      length := Min(numWorkers, length);
      assert length == SliceLength(numRelays, numWorkers, minPeersPerWorker, minPeersPerRelay);
      var start, stop: nat;
      if length >= numWorkers {
        start, stop := 0, numWorkers;
      } else {
        SliceStartInBounds(relayIndex, numRelays, numWorkers);
        start := relayIndex * numWorkers / numRelays;
        stop := CeilDiv(relayIndex * numWorkers + length * numRelays, numRelays) % numWorkers;
      }
      slice := Some(Slice(relayIndex, length, start, stop, SliceRange(workers.value, start, stop)));
    }

    method IsValid() returns (valid: bool)
      requires Coherent(View())
      modifies this`pendingCompute, this`lastComputed, this`slice
      ensures View() == ComputeIfNeeded(old(View())) && Coherent(View())
      ensures valid <==> slice.Some?
      ensures relays.Some? && workers.Some? ==> (valid <==> relayHostPort in relays.value)
    {
      Compute();
      valid := slice.Some?;
    }

    method Perform(op: Op, now: int)
      requires Coherent(View())
      requires op.OpRelays? ==> StrictlySorted(op.relays)
      requires op.OpWorkers? ==> StrictlySorted(op.workers)
      requires op.OpAdd? || op.OpRemove? ==> workers.Some?
      modifies this
      ensures View() == Apply(old(View()), op) && Coherent(View())
    {
      hide Coherent;
      match op
      case OpRelays(list) => SetRelayList(list, now);
      case OpWorkers(list) => SetWorkerList(list, now);
      case OpAdd(host) => Add(host, now);
      case OpRemove(host) => Remove(host, now);
      case OpCompute => Compute();
    }
  }

  lemma {:induction false} LegalPrefix(ops: seq<Op>, i: nat)
    requires LegalRun(ops) && i <= |ops|
    ensures LegalRun(ops[..i])
  {
    if i == |ops| {
      assert ops[..i] == ops;
    } else {
      assert ops[..|ops| - 1][..i] == ops[..i];
      LegalPrefix(ops[..|ops| - 1], i);
    }
  }

  lemma LegalAt(ops: seq<Op>, i: nat)
    requires LegalRun(ops) && i < |ops|
    ensures LegalRun(ops[..i]) && ops[..i + 1][..i] == ops[..i]
    ensures match ops[i]
      case OpRelays(relays) => StrictlySorted(relays)
      case OpWorkers(workers) => StrictlySorted(workers)
      case OpAdd(_) => Members(ops[..i]).Some?
      case OpRemove(_) => Members(ops[..i]).Some?
      case OpCompute => true
  {
    LegalPrefix(ops, i);
    LegalPrefix(ops, i + 1);
    assert ops[..i + 1][..i] == ops[..i];
  }

  /** A range object put through any legal run ends where the pure operations end. */
  method Drive(me: HostPort, perWorker: nat, perRelay: nat, ops: seq<Op>, clock: nat -> int) returns (range: PartialRange)
    requires LegalRun(ops)
    ensures range.View() == ApplyAll(New(me, perWorker, perRelay), ops) && Coherent(range.View())
  {
    hide LegalRun, Coherent, Members, LastRelays, Apply;
    range := new PartialRange(me, perWorker, perRelay);
    for i := 0 to |ops|
      invariant fresh(range) && Coherent(range.View())
      invariant range.View() == ApplyAll(New(me, perWorker, perRelay), ops[..i])
    {
      LegalAt(ops, i);
      RunInvariant(me, perWorker, perRelay, ops[..i]);
      range.Perform(ops[i], clock(i));
    }
    assert ops[..|ops|] == ops;
  }

  lemma IndexIsAnswer(a: seq<HostPort>, value: HostPort, r: nat)
    requires StrictlySorted(a) && SortedIndexOf.IsAnswer(a, value, r)
    ensures IndexIn(a, value) == Some(r)
  {
    assert value in a;
    StrictlySortedIsInjective(a, IndexIn(a, value).value, r);
  }

  lemma SpliceIn(a: seq<HostPort>, h: HostPort, at: nat)
    requires StrictlySorted(a) && at <= |a| && SortedIndexOf.SplitAt(a, h, at)
    ensures a[..at] + [h] + a[at..] == Insert(a, h)
  {
    hide StrictlySorted, SortedIndexOf.SplitAt, Insert, Hosts;
    SpliceIsSorted(a, h, at);
    SpliceAdds(a, h, at);
    InsertKeepsOrder(a, h);
    SortedListIsUnique(a[..at] + [h] + a[at..], Insert(a, h));
  }

  lemma SpliceIsSorted(a: seq<HostPort>, h: HostPort, at: nat)
    requires StrictlySorted(a) && at <= |a| && SortedIndexOf.SplitAt(a, h, at)
    ensures StrictlySorted(a[..at] + [h] + a[at..])
  {
    hide Less;
    var b := a[..at] + [h] + a[at..];
    forall i, j | 0 <= i < j < |b| ensures Less(b[i], b[j]) {
      if i < at && j > at {
        Transitive(a[i], h, a[j - 1]);
      }
    }
  }

  lemma SpliceAdds(a: seq<HostPort>, h: HostPort, at: nat)
    requires at <= |a|
    ensures Hosts(a[..at] + [h] + a[at..]) == Hosts(a) + {h}
  {
    var b := a[..at] + [h] + a[at..];
    forall x | x in a ensures x in b {
      var i :| 0 <= i < |a| && a[i] == x;
      assert b[if i < at then i else i + 1] == x;
    }
    assert b[at] == h;
  }

  lemma SpliceOut(a: seq<HostPort>, h: HostPort, at: nat)
    requires StrictlySorted(a) && at < |a| && a[at] == h
    ensures a[..at] + a[at + 1..] == Without(a, h)
  {
    var b := a[..at] + a[at + 1..];
    assert forall i :: 0 <= i < |b| ==> b[i] == a[if i < at then i else i + 1];
    assert Hosts(b) == Hosts(a) - {h} by {
      forall x | x in b ensures x in a && x != h {
        var i :| 0 <= i < |b| && b[i] == x;
        StrictlySortedIsInjective(a, if i < at then i else i + 1, at);
      }
      forall x | x in a && x != h ensures x in b {
        var i :| 0 <= i < |a| && a[i] == x;
        assert b[if i < at then i else i - 1] == x;
      }
    }
    WithoutKeepsOrder(a, h);
    SortedListIsUnique(b, Without(a, h));
  }
}
