/**
  Which hosts an exit channel lists, told from the history (service-proxy.js): those that advertised the
  service and were not unadvertised, reaped, or cleared away by a change to forwarding since.
 */
module Listings {
  import opened Collections
  import opened HostOrder
  import opened ReapHistory

  predicate TakesBack(m: Mark, h: HostPort, s: string) {
    m == Withdrawn(h, s) || m == Reaped(h, s) || m == Cleared(s)
  }

  /** The host advertised the service, and that was not taken back. */
  predicate Listed(log: History, h: HostPort, s: string) {
    log != [] && (Last(log) == Ad(h, s) || (!TakesBack(Last(log), h, s) && Listed(Init(log), h, s)))
  }

  /** It did so for some service. */
  ghost predicate ListedSomewhere(log: History, h: HostPort) {
    exists s :: Listed(log, h, s)
  }

  lemma IsListedSomewhere(log: History, h: HostPort, s: string)
    requires Listed(log, h, s)
    ensures ListedSomewhere(log, h)
  {}

  /** It did so after the latest prune run took its queue. */
  predicate AskedSincePrune(log: History, h: HostPort, s: string) {
    log != [] && !Last(log).PruneRun? &&
    (Last(log) == Ad(h, s) || (!TakesBack(Last(log), h, s) && AskedSincePrune(Init(log), h, s)))
  }

  /** It was listed when the latest prune run took its queue, and that was not taken back. */
  predicate KeptSincePrune(log: History, h: HostPort, s: string) {
    log != [] &&
    (if Last(log).PruneRun? then Listed(Init(log), h, s)
     else !TakesBack(Last(log), h, s) && KeptSincePrune(Init(log), h, s))
  }

  lemma {:induction false} ListedSincePrune(log: History, h: HostPort, s: string)
    ensures Listed(log, h, s) <==> AskedSincePrune(log, h, s) || KeptSincePrune(log, h, s)
  {
    if log != [] && !Last(log).PruneRun? {
      ListedSincePrune(Init(log), h, s);
    }
  }

  lemma ListedNext(log: History, m: Mark, h: HostPort, s: string)
    ensures Listed(log + [m], h, s) <==> m == Ad(h, s) || (!TakesBack(m, h, s) && Listed(log, h, s))
  {
    Extend(log, m);
  }

  /** What that means: an advertisement of the pair, with nothing after it that takes it back. */
  lemma {:induction false} ListedMeans(log: History, h: HostPort, s: string)
    ensures Listed(log, h, s) <==>
      exists i :: 0 <= i < |log| && log[i] == Ad(h, s) && forall j :: i < j < |log| ==> !TakesBack(log[j], h, s)
  {
    if log != [] {
      var before := Init(log);
      ListedMeans(before, h, s);
      assert forall i :: 0 <= i < |before| ==> before[i] == log[i];
      if Listed(log, h, s) {
        if Last(log) == Ad(h, s) {
          assert log[|log| - 1] == Ad(h, s);
        } else {
          var i :| 0 <= i < |before| && before[i] == Ad(h, s) && forall j :: i < j < |before| ==> !TakesBack(before[j], h, s);
          assert log[i] == Ad(h, s);
        }
      }
      if i :| 0 <= i < |log| && log[i] == Ad(h, s) && forall j :: i < j < |log| ==> !TakesBack(log[j], h, s) {
        if i < |before| {
          assert before[i] == Ad(h, s) && !TakesBack(log[|log| - 1], h, s);
        }
      }
    }
  }
}
