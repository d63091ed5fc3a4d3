/**
  The interval scanner (lib/interval-scan.js): a timer starts a run over a snapshot of a
  collection's keys, and the run visits one key per immediate until it completes.
  The reference is an automaton that reads the scanner's history.
 */
module IntervalScans {
  import opened Options

  /** What a scanner does. `Visit` tells the value that the key had, if any, when its turn came. */
  datatype Mark =
    | Begin(keys: seq<string>)
    | Visit(key: string, value: Option<int>)
    | End
    | Abandon

  type History = seq<Mark>

  // ----- the automaton -----

  datatype Phase = Idle | Visiting(keys: seq<string>, done: nat) | Rejected

  function Advance(p: Phase, m: Mark): Phase {
    match (p, m)
    case (Idle, Begin(keys)) => Visiting(keys, 0)
    case (Visiting(keys, done), Visit(key, _)) =>
      if done < |keys| && keys[done] == key then Visiting(keys, done + 1) else Rejected
    case (Visiting(keys, done), End) => if done == |keys| then Idle else Rejected
    case (Visiting(_, _), Abandon) => Idle
    case _ => Rejected
  }

  function Read(log: History): Phase {
    if log == [] then Idle else Advance(Read(log[..|log| - 1]), log[|log| - 1])
  }

  lemma ReadNext(log: History, m: Mark)
    ensures Read(log + [m]) == Advance(Read(log), m)
  {
    assert (log + [m])[..|log|] == log;
  }

  lemma {:induction false} AcceptedPrefix(log: History, i: nat)
    requires Read(log) != Rejected && i <= |log|
    ensures Read(log[..i]) != Rejected
  {
    if i < |log| {
      AcceptedPrefix(log[..|log| - 1], i);
      assert log[..|log| - 1][..i] == log[..i];
    } else {
      assert log[..i] == log;
    }
  }

  lemma ReadAt(log: History, i: nat)
    requires i < |log|
    ensures Read(log[..i + 1]) == Advance(Read(log[..i]), log[i])
  {
    assert log[..i + 1] == log[..i] + [log[i]];
    ReadNext(log[..i], log[i]);
  }

  /** From its beginning on, a run has visited its keys in order, one mark each. */
  lemma {:induction false} RunVisitsInOrder(log: History, i: nat, j: nat)
    requires Read(log) != Rejected && i < j <= |log| && log[i].Begin?
    requires forall k :: i < k < j ==> log[k].Visit?
    ensures Read(log[..j]) == Visiting(log[i].keys, j - i - 1)
    ensures j - i - 1 <= |log[i].keys|
    ensures forall k :: i < k < j ==> log[k].key == log[i].keys[k - i - 1]
    decreases j
  {
    AcceptedPrefix(log, j);
    ReadAt(log, j - 1);
    if j > i + 1 {
      RunVisitsInOrder(log, i, j - 1);
    }
  }

  /** A completed run visited every key of its snapshot exactly once, in order, and completed once. */
  lemma CompletedRunVisitsEveryKey(log: History, i: nat, j: nat)
    requires Read(log) != Rejected && i < j < |log| && log[i].Begin? && log[j] == End
    requires forall k :: i < k < j ==> !log[k].End? && !log[k].Abandon?
    ensures j - i - 1 == |log[i].keys|
    ensures forall k :: i < k < j ==> log[k].Visit? && log[k].key == log[i].keys[k - i - 1]
    ensures j + 1 < |log| ==> log[j + 1].Begin?
  {
    RunsDoNotOverlap(log, i, j);
    RunVisitsInOrder(log, i, j);
    AcceptedPrefix(log, j + 1);
    ReadAt(log, j);
    if j + 1 < |log| {
      AcceptedPrefix(log, j + 2);
      ReadAt(log, j + 1);
    }
  }

  /** No run begins before the run in progress is over. */
  lemma {:induction false} RunsDoNotOverlap(log: History, i: nat, j: nat)
    requires Read(log) != Rejected && i < j <= |log| && log[i].Begin?
    requires forall k :: i < k < j ==> !log[k].End? && !log[k].Abandon?
    ensures forall k :: i < k < j ==> log[k].Visit?
    decreases j
  {
    if j > i + 1 {
      RunsDoNotOverlap(log, i, j - 1);
      RunVisitsInOrder(log, i, j - 1);
      AcceptedPrefix(log, j);
      ReadAt(log, j - 1);
    }
  }

  /** The calls a history asks for: one for every key that was still defined. */
  function CallsOf(log: History): seq<(string, int)> {
    if log == [] then []
    else
      var before, m := CallsOf(log[..|log| - 1]), log[|log| - 1];
      if m.Visit? && m.value.Some? then before + [(m.key, m.value.value)] else before
  }

  lemma CallsNext(log: History, m: Mark)
    ensures CallsOf(log + [m]) == CallsOf(log) + if m.Visit? && m.value.Some? then [(m.key, m.value.value)] else []
  {
    assert (log + [m])[..|log|] == log;
  }

  /** The calls for a list of keys, with the values they have in a collection that does not change meanwhile. */
  function CallsFor(keys: seq<string>, entries: map<string, int>): seq<(string, int)> {
    if keys == [] then []
    else
      var key := keys[|keys| - 1];
      CallsFor(keys[..|keys| - 1], entries) + if key in entries then [(key, entries[key])] else []
  }

  // ----- the object -----

  /** What is scanned; the run holds on to the object, and others may change it. */
  class Collection {
    var entries: map<string, int>

    constructor (entries: map<string, int>)
      ensures this.entries == entries
    {
      this.entries := entries;
    }
  }

  /** The keys of a collection, each once, in some order. */
  ghost predicate KeysOf(keys: seq<string>, entries: map<string, int>) {
    && (forall i, j :: 0 <= i < j < |keys| ==> keys[i] != keys[j])
    && forall key :: key in keys <==> key in entries
  }

  /** A run in progress; `begun` once its first immediate has fired. */
  datatype Run = Run(collection: Collection, keys: seq<string>, keyIndex: nat, begun: bool)

  class IntervalScan {
    var interval: int
    var running: bool
    var timer: bool
    var theRun: Option<Run>
    // what `each` was called with
    var calls: seq<(string, int)>
    ghost var log: History

    ghost function PhaseNow(): Phase
      reads this
    {
      match theRun
      case None => Idle
      case Some(r) => Visiting(r.keys, if r.begun then r.keyIndex + 1 else 0)
    }

    /**
      The history is accepted, the calls are those it asks for, the timer is never armed during a run, and a run
      has keys left to pass.
     */
    ghost predicate Valid()
      reads this
    {
      && Read(log) == PhaseNow()
      && calls == CallsOf(log)
      && !(timer && theRun.Some?)
      && (timer ==> interval > 0)
      && (theRun.Some? ==> theRun.value.keyIndex < |theRun.value.keys|)
      && (theRun.Some? && !theRun.value.begun ==> theRun.value.keyIndex == 0)
    }

    /** Immediates that still have to fire before the run in progress completes. */
    ghost function Remaining(): int
      reads this
    {
      match theRun
      case None => 0
      case Some(r) => |r.keys| - r.keyIndex + if r.begun then 0 else 1
    }

    constructor (interval: int)
      ensures Valid() && log == [] && calls == [] && theRun == None && !timer && !running
      ensures this.interval == interval
    {
      this.interval := interval;
      running, timer, theRun, calls, log := false, false, None, [], [];
    }

    method SetTimer()
      requires Valid()
      modifies this`timer
      ensures Valid()
      ensures timer == (old(timer) || (theRun.None? && interval > 0))
    {
      if timer || theRun.Some? || interval <= 0 {
        return;
      }
      timer := true;
    }

    method SetInterval(value: int)
      requires Valid()
      modifies this`interval, this`timer
      ensures Valid() && interval == value
      ensures timer == (if value == old(interval) then old(timer) || (running && theRun.None? && value > 0)
                        else old(timer) && value > 0)
    {
      if interval == value {
        if running {
          SetTimer();
        }
        return;
      }
      if timer {
        timer := false;
        interval := value;
        SetTimer();
      } else {
        interval := value;
      }
    }

    method StartScanning()
      requires Valid()
      modifies this`running, this`timer
      ensures Valid() && running && timer == (old(timer) || (theRun.None? && interval > 0))
    {
      running := true;
      SetTimer();
    }

    /** Stops for good: a run in progress is dropped without completing. */
    method StopScanning()
      requires Valid()
      modifies this`running, this`timer, this`theRun, this`log
      ensures Valid() && !running && !timer && theRun.None?
      ensures log == old(log) + if old(theRun).Some? then [Abandon] else []
    {
      running := false;
      timer := false;
      if theRun.Some? {
        theRun := None;
        log := log + [Abandon];
        ReadNext(old(log), Abandon);
        CallsNext(old(log), Abandon);
      }
    }

    /** A run over an empty collection is over at once. */
    method CompleteEmpty()
      requires Valid() && theRun.None? && !timer
      modifies this`timer, this`log
      ensures Valid() && timer == (interval > 0)
      ensures log == old(log) + [Begin([])] + [End]
    {
      hide Read, CallsOf;
      ReadNext(log, Begin([]));
      ReadNext(log + [Begin([])], End);
      CallsNext(log, Begin([]));
      CallsNext(log + [Begin([])], End);
      log := log + [Begin([])] + [End];
      SetTimer();
    }

    /** `run`: refused while a run is in progress; `keys` is the snapshot of the collection's keys. */
    method RunNow(collection: Collection, keys: seq<string>) returns (accepted: bool)
      requires Valid() && KeysOf(keys, collection.entries)
      modifies this`timer, this`theRun, this`log
      ensures Valid()
      ensures accepted <==> old(theRun).None?
      ensures !accepted ==> log == old(log) && theRun == old(theRun) && timer == old(timer)
      ensures accepted && keys == [] ==>
        log == old(log) + [Begin([])] + [End] && theRun.None? && timer == (interval > 0)
      ensures accepted && keys != [] ==>
        && log == old(log) + [Begin(keys)] && !timer && Remaining() == |keys| + 1
        && theRun == Some(Run(collection, keys, 0, false))
    {
      hide Read, CallsOf;
      accepted := theRun.None?;
      if accepted {
        timer := false;
        if keys == [] {
          CompleteEmpty();
        } else {
          ReadNext(log, Begin(keys));
          CallsNext(log, Begin(keys));
          log := log + [Begin(keys)];
          theRun := Some(Run(collection, keys, 0, false));
        }
      }
    }

    /** The timer fires only while armed, so never during a run, and its run is always accepted. */
    method FireTimer(collection: Collection, keys: seq<string>)
      requires Valid() && timer && KeysOf(keys, collection.entries)
      modifies this`timer, this`theRun, this`log
      ensures Valid()
      ensures log == if keys == [] then old(log) + [Begin([])] + [End] else old(log) + [Begin(keys)]
      ensures theRun == if keys == [] then None else Some(Run(collection, keys, 0, false))
    {
      var accepted := RunNow(collection, keys);
    }

    /**
      One immediate of the run in progress: calls back with the next key and its value if the collection still
      has one, or completes.
     */
    method FireImmediate()
      requires Valid() && theRun.Some?
      modifies this`timer, this`theRun, this`calls, this`log
      ensures Valid()
      ensures Remaining() == old(Remaining()) - 1
      ensures theRun.None? <==> old(Remaining()) == 1
      ensures theRun.None? ==> log == old(log) + [End] && calls == old(calls) && timer == (interval > 0)
      ensures theRun.Some? ==>
        var key, entries := theRun.value.keys[theRun.value.keyIndex], theRun.value.collection.entries;
        && log == old(log) + [Visit(key, if key in entries then Some(entries[key]) else None)]
        && calls == old(calls) + (if key in entries then [(key, entries[key])] else [])
        && theRun.value.collection == old(theRun).value.collection && theRun.value.keys == old(theRun).value.keys
        && theRun.value.begun && timer == old(timer)
    {
      hide CallsOf, Read;
      var r := theRun.value;
      var index := if r.begun then r.keyIndex + 1 else 0;
      if index < |r.keys| {
        var key := r.keys[index];
        theRun := Some(Run(r.collection, r.keys, index, true));
        Visited(key, r.collection.entries);
      } else {
        theRun := None;
        log := log + [End];
        ReadNext(old(log), End);
        CallsNext(old(log), End);
        SetTimer();
      }
    }

    /** `each` is called for a key that has a value. */
    method Visited(key: string, entries: map<string, int>)
      requires calls == CallsOf(log)
      modifies this`calls, this`log
      ensures calls == CallsOf(log)
      ensures calls == old(calls) + (if key in entries then [(key, entries[key])] else [])
      ensures log == old(log) + [Visit(key, if key in entries then Some(entries[key]) else None)]
      ensures Read(log) == Advance(Read(old(log)), Visit(key, if key in entries then Some(entries[key]) else None))
    {
      hide CallsOf, Read;
      ghost var m := Visit(key, if key in entries then Some(entries[key]) else None);
      CallsNext(log, m);
      ReadNext(log, m);
      if key in entries {
        calls := calls + [(key, entries[key])];
      }
      log := log + [m];
    }

    /** Over a collection that nobody changes, a run calls back once for every key, with its value, and completes. */
    method FinishRun()
      requires Valid() && theRun.Some? && !theRun.value.begun
      modifies this`timer, this`theRun, this`calls, this`log
      ensures Valid() && theRun.None?
      ensures var r := old(theRun).value; calls == old(calls) + CallsFor(r.keys, r.collection.entries)
    {
      hide Valid;
      BeginsBeforeFirst();
      var r := theRun.value;
      assert r.keys[..0] == [];
      FireImmediate();
      ghost var n := 1;
      while theRun.Some?
        invariant Valid() && 1 <= n <= |r.keys| + 1
        invariant theRun.None? <==> n == |r.keys| + 1
        invariant theRun.Some? ==> theRun.value == Run(r.collection, r.keys, n - 1, true)
        invariant calls == old(calls) + CallsFor(r.keys[..if n <= |r.keys| then n else |r.keys|], r.collection.entries)
        decreases |r.keys| + 1 - n
      {
        FireImmediate();
        if n < |r.keys| {
          assert r.keys[..n + 1][..n] == r.keys[..n];
        }
        n := n + 1;
      }
      assert r.keys[..|r.keys|] == r.keys;
    }

    lemma BeginsBeforeFirst()
      requires Valid() && theRun.Some? && !theRun.value.begun
      ensures theRun.value.keyIndex == 0 < |theRun.value.keys|
    {}
  }

  // ----- every interleaving -----

  datatype Event =
    | Timer(entries: map<string, int>, keys: seq<string>)
    | Immediate
    | Change(entries: map<string, int>)
    | Manual(entries: map<string, int>, keys: seq<string>)
    | Interval(value: int)
    | StartIt
    | StopIt

  /** A snapshot is a list of the collection's keys. */
  ghost predicate Fits(e: Event) {
    && (e.Timer? ==> KeysOf(e.keys, e.entries))
    && (e.Manual? ==> KeysOf(e.keys, e.entries))
  }

  /**
    Plays any schedule, skipping events that cannot occur, while others change what is scanned: the history is
    accepted at its end, and `each` was called exactly for the keys that had a value when their turn came.
   */
  method Play(interval: int, schedule: seq<Event>) returns (scan: IntervalScan)
    requires forall i :: 0 <= i < |schedule| ==> Fits(schedule[i])
    ensures fresh(scan) && scan.Valid() && scan.calls == CallsOf(scan.log)
  {
    scan := new IntervalScan(interval);
    for i := 0 to |schedule|
      invariant fresh(scan) && scan.Valid() && (scan.theRun.Some? ==> fresh(scan.theRun.value.collection))
    {
      assert Fits(schedule[i]);
      Step(scan, schedule[i]);
    }
  }

  method Step(scan: IntervalScan, e: Event)
    requires scan.Valid() && Fits(e)
    modifies scan, if scan.theRun.Some? then {scan.theRun.value.collection} else {}
    ensures scan.Valid()
    ensures scan.theRun.Some? ==>
      || fresh(scan.theRun.value.collection)
      || (old(scan.theRun).Some? && scan.theRun.value.collection == old(scan.theRun).value.collection)
  {
    hide Read, CallsOf;
    match e
    case Timer(entries, keys) =>
      if scan.timer {
        var collection := new Collection(entries);
        scan.FireTimer(collection, keys);
      }
    case Immediate =>
      if scan.theRun.Some? {
        scan.FireImmediate();
      }
    case Change(entries) =>
      if scan.theRun.Some? {
        scan.theRun.value.collection.entries := entries;
      }
    case Manual(entries, keys) =>
      var collection := new Collection(entries);
      var _ := scan.RunNow(collection, keys);
    case Interval(value) =>
      scan.SetInterval(value);
    case StartIt =>
      scan.StartScanning();
    case StopIt =>
      scan.StopScanning();
  }
}
