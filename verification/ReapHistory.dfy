/**
  What the peer reaper may conclude (service-proxy.js): advertisements are remembered for two
  generations, and a pair of host and service is reaped when neither holds it.
 */
module ReapHistory {
  import opened Options
  import opened Collections
  import opened HostOrder
  import opened PeerIndex

  /**
    An accepted advertisement, a reap run taking its snapshot, a pair reaped; a pair unadvertised, a service's
    exit channel turned forwarder, a prune run taking its queue.
   */
  datatype Mark =
    | Ad(host: HostPort, service: string)
    | Snapshot
    | Reaped(host: HostPort, service: string)
    | Withdrawn(host: HostPort, service: string)
    | Cleared(service: string)
    | PruneRun

  type History = seq<Mark>

  /** The pair was advertised after the n-th most recent snapshot. */
  predicate Within(log: History, h: HostPort, s: string, n: nat) {
    if log == [] || n == 0 then false
    else if Last(log).Snapshot? then Within(Init(log), h, s, n - 1)
    else Last(log) == Ad(h, s) || Within(Init(log), h, s, n)
  }

  /** No pair was ever reaped that had been advertised since before the previous run's snapshot. */
  ghost predicate Safe(log: History) {
    log == [] ||
    (Safe(Init(log)) && (Last(log).Reaped? ==> !Within(Init(log), Last(log).host, Last(log).service, 2)))
  }

  /**
    The two generations hold exactly the pairs last advertised since the latest snapshot and
    between the latest two, and a run in progress goes over what was last advertised before that.
   */
  ghost predicate Remembers(known: Index, toReap: Index, reaping: Option<Index>, log: History) {
    && NoEmptyLevel(known)
    && (forall h, s :: Has(known, h, s) <==> Within(log, h, s, 1))
    && (forall h, s :: Has(toReap, h, s) <==> Within(log, h, s, 2) && !Within(log, h, s, 1))
    && (reaping.Some? ==> forall h, s :: Has(reaping.value, h, s) ==>
          Within(log, h, s, 3) && (Within(log, h, s, 2) ==> Within(log, h, s, 1)))
  }

  lemma WithinNext(log: History, m: Mark, h: HostPort, s: string, n: nat)
    ensures Within(log + [m], h, s, n) <==>
      (n > 0 && (if m.Snapshot? then Within(log, h, s, n - 1) else m == Ad(h, s) || Within(log, h, s, n)))
  {
    Extend(log, m);
  }

  /** An accepted advertisement moves the pair to the young generation. */
  lemma AdRemembers(known: Index, toReap: Index, reaping: Option<Index>, log: History,
                    h: HostPort, s: string, now: Time)
    requires Remembers(known, toReap, reaping, log) && Safe(log)
    ensures Remembers(Add(known, h, s, now), Delete(toReap, h, s), reaping, log + [Ad(h, s)])
    ensures Safe(log + [Ad(h, s)])
  {
    Extend(log, Ad(h, s));
    AddKeepsLevels(known, h, s, now);
    forall x, y, n: nat | 1 <= n <= 3
      ensures Within(log + [Ad(h, s)], x, y, n) <==> (x == h && y == s) || Within(log, x, y, n)
    {
      WithinNext(log, Ad(h, s), x, y, n);
    }
    hide Within;
  }

  /** A snapshot ages both generations and hands the old one to the run. */
  lemma SnapshotRemembers(known: Index, toReap: Index, log: History)
    requires Remembers(known, toReap, None, log) && Safe(log)
    ensures Remembers(map[], known, Some(toReap), log + [Snapshot]) && Safe(log + [Snapshot])
  {
    Extend(log, Snapshot);
    forall x, y, n: nat | 1 <= n <= 3
      ensures Within(log + [Snapshot], x, y, n) <==> Within(log, x, y, n - 1)
    {
      WithinNext(log, Snapshot, x, y, n);
    }
    forall x, y ensures !Within(log, x, y, 0) {}
    hide Within;
  }

  /** A pair of the run's snapshot whose host is not known again may be reaped. */
  lemma ReapIsSafe(known: Index, toReap: Index, reaping: Index, log: History, h: HostPort, s: string)
    requires Remembers(known, toReap, Some(reaping), log) && Safe(log)
    requires Has(reaping, h, s) && h !in known
    ensures !Within(log, h, s, 2) && Within(log, h, s, 3)
    ensures Delete(known, h, s) == known
    ensures Remembers(known, toReap, Some(reaping), log + [Reaped(h, s)]) && Safe(log + [Reaped(h, s)])
  {
    assert !Has(known, h, s);
    Extend(log, Reaped(h, s));
    forall x, y, n: nat | 1 <= n <= 3
      ensures Within(log + [Reaped(h, s)], x, y, n) <==> Within(log, x, y, n)
    {
      WithinNext(log, Reaped(h, s), x, y, n);
    }
    hide Within;
  }

  /** Nothing else concerns the reaper. */
  lemma OtherMarkRemembers(known: Index, toReap: Index, reaping: Option<Index>, log: History, m: Mark)
    requires Remembers(known, toReap, reaping, log) && Safe(log)
    requires m.Withdrawn? || m.Cleared? || m.PruneRun?
    ensures Remembers(known, toReap, reaping, log + [m]) && Safe(log + [m])
  {
    Extend(log, m);
    forall x, y, n: nat | 1 <= n <= 3 ensures Within(log + [m], x, y, n) <==> Within(log, x, y, n) {
      WithinNext(log, m, x, y, n);
    }
    hide Within;
  }

  /** The generations never share a pair. */
  lemma GenerationsAreDisjoint(known: Index, toReap: Index, reaping: Option<Index>, log: History,
                               h: HostPort, s: string)
    requires Remembers(known, toReap, reaping, log)
    ensures !(Has(known, h, s) && Has(toReap, h, s))
  {}

  /** Safety, read off a history at any point: nothing reaped was advertised in the last two generations. */
  lemma {:induction false} ReapedOnlyWhenSilent(log: History, i: nat)
    requires Safe(log) && i < |log| && log[i].Reaped?
    ensures !Within(log[..i], log[i].host, log[i].service, 2)
  {
    if i < |log| - 1 {
      ReapedOnlyWhenSilent(Init(log), i);
      assert Init(log)[..i] == log[..i];
    }
  }

  /** What that means: from the second-latest snapshot on there is no advertisement of the pair. */
  lemma {:induction false} SilentSince(log: History, h: HostPort, s: string, n: nat, j: nat)
    requires !Within(log, h, s, n) && j < |log| && log[j] == Ad(h, s)
    ensures SnapshotsFrom(log, j) >= n
  {
    if j < |log| - 1 && n > 0 {
      SilentSince(Init(log), h, s, if Last(log).Snapshot? then n - 1 else n, j);
    }
  }

  /** And the other way round: a pair within n generations has an advertisement with fewer snapshots after it. */
  lemma {:induction false} AdvertisedSince(log: History, h: HostPort, s: string, n: nat) returns (j: nat)
    requires Within(log, h, s, n)
    ensures j < |log| && log[j] == Ad(h, s) && SnapshotsFrom(log, j) < n
  {
    if Last(log) == Ad(h, s) {
      j := |log| - 1;
    } else {
      j := AdvertisedSince(Init(log), h, s, if Last(log).Snapshot? then n - 1 else n);
    }
  }

  /** Snapshots taken after position `j`. */
  function SnapshotsFrom(log: History, j: nat): nat
    requires j < |log|
  {
    if j == |log| - 1 then 0
    else SnapshotsFrom(Init(log), j) + if Last(log).Snapshot? then 1 else 0
  }

  lemma {:induction false} NoSnapshotFrom(log: History, j: nat)
    requires j < |log|
    ensures SnapshotsFrom(log, j) == 0 <==> forall i :: j < i < |log| ==> !log[i].Snapshot?
  {
    if j < |log| - 1 {
      NoSnapshotFrom(Init(log), j);
      assert forall i :: 0 <= i < |log| - 1 ==> Init(log)[i] == log[i];
      assert Last(log) == log[|log| - 1];
    }
  }

  /** Every advertisement of the host, for whatever service, has a snapshot after it. */
  predicate Silent(log: History, h: HostPort) {
    forall j :: 0 <= j < |log| && log[j].Ad? && log[j].host == h ==>
      exists i :: j < i < |log| && log[i].Snapshot?
  }

  /** A host is unknown exactly when it has been silent since the latest snapshot. */
  lemma UnknownIffSilent(known: Index, toReap: Index, reaping: Option<Index>, log: History, h: HostPort)
    requires Remembers(known, toReap, reaping, log)
    ensures h !in known <==> Silent(log, h)
  {
    KeyHasEntry(known, h);
    if s :| Has(known, h, s) {
      var j := AdvertisedSince(log, h, s, 1);
      NoSnapshotFrom(log, j);
    }
    if !Silent(log, h) {
      var j: nat :| j < |log| && log[j].Ad? && log[j].host == h && forall i :: j < i < |log| ==> !log[i].Snapshot?;
      NoSnapshotFrom(log, j);
      if !Within(log, h, log[j].service, 1) {
        SilentSince(log, h, log[j].service, 1, j);
      }
      assert Has(known, h, log[j].service);
    }
  }
}
