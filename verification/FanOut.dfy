/**
  Fanning an advertisement out to the exit nodes (handler.js): which services each exit is
  told about, how often one exit is tried, and how the caller gets exactly one reply.
 */
module FanOut {
  import opened Collections
  import opened HostOrder
  import opened EgressNodes

  datatype Service = Service(serviceName: string, cost: int, hostPort: HostPort)

  /** Every service is stamped with the address it was advertised from. */
  function Stamp(s: Service, remote: HostPort): Service {
    s.(hostPort := remote)
  }

  /** What one exit is told: the named services it is an exit of, in the order they came. */
  ghost function ToldTo(e: Egress, services: seq<Service>, remote: HostPort, exit: HostPort): seq<Service> {
    if services == [] then []
    else
      var before := ToldTo(e, services[..|services| - 1], remote, exit);
      var s := services[|services| - 1];
      if s.serviceName != "" && exit in ExitHosts(e, s.serviceName) then before + [Stamp(s, remote)] else before
  }

  /** `groups` tells every exit what concerns it, and lists no host that nothing concerns. */
  ghost predicate Transposed(e: Egress, services: seq<Service>, remote: HostPort,
                             groups: map<HostPort, seq<Service>>)
  {
    && (forall h :: h in groups ==> groups[h] == ToldTo(e, services, remote, h) && groups[h] != [])
    && (forall h :: h !in groups ==> ToldTo(e, services, remote, h) == [])
  }

  /** Adds one service to the groups of all its exits, in whatever order those come. */
  method AddToExits(groups: map<HostPort, seq<Service>>, exits: set<HostPort>, s: Service)
    returns (r: map<HostPort, seq<Service>>)
    ensures r.Keys == groups.Keys + exits
    ensures forall h :: h in r ==>
      r[h] == (if h in groups then groups[h] else []) + if h in exits then [s] else []
  {
    r := groups;
    var todo := exits;
    while todo != {}
      invariant todo <= exits
      invariant r.Keys == groups.Keys + (exits - todo)
      invariant forall h :: h in r ==>
        r[h] == (if h in groups then groups[h] else []) + if h in exits - todo then [s] else []
    {
      var exit :| exit in todo;
      r := r[exit := (if exit in r then r[exit] else []) + [s]];
      todo := todo - {exit};
    }
  }

  lemma TransposedNext(e: Egress, services: seq<Service>, remote: HostPort, s: Service,
                       groups: map<HostPort, seq<Service>>, next: map<HostPort, seq<Service>>)
    requires Transposed(e, services, remote, groups)
    requires var exits := if s.serviceName == "" then {} else ExitHosts(e, s.serviceName);
      && next.Keys == groups.Keys + exits
      && forall h :: h in next ==>
           next[h] == (if h in groups then groups[h] else []) + if h in exits then [Stamp(s, remote)] else []
    ensures Transposed(e, services + [s], remote, next)
  {
    hide ExitHosts;
    assert (services + [s])[..|services|] == services;
    forall h
      ensures ToldTo(e, services + [s], remote, h) == ToldTo(e, services, remote, h) +
              if s.serviceName != "" && h in ExitHosts(e, s.serviceName) then [Stamp(s, remote)] else []
    {}
  }

  /** The exit loops of every named service end. */
  ghost predicate AllEnd(e: Egress, services: seq<Service>) {
    forall s :: s in services && s.serviceName != "" ==> EndsFor(e, s.serviceName)
  }

  /** The grouping loops of `sendRelays`. */
  method GroupByExit(e: Egress, services: seq<Service>, remote: HostPort)
    returns (groups: map<HostPort, seq<Service>>)
    requires AllEnd(e, services)
    ensures Transposed(e, services, remote, groups)
  {
    hide ExitHosts, EndsFor;
    groups := map[];
    for i := 0 to |services|
      invariant Transposed(e, services[..i], remote, groups)
    {
      var s := services[i];
      assert services[..i + 1] == services[..i] + [s];
      var next := groups;
      if s.serviceName != "" {
        var exitNodes := CollectExits(e, s.serviceName);
        next := AddToExits(groups, exitNodes.Keys, Stamp(s, remote));
      }
      TransposedNext(e, services[..i], remote, s, groups, next);
      groups := next;
    }
    assert services[..|services|] == services;
  }

  /** A host is contacted if and only if it is an exit of one of the named services. */
  lemma {:induction false} ContactedIffExit(e: Egress, services: seq<Service>, remote: HostPort, host: HostPort)
    ensures ToldTo(e, services, remote, host) != [] <==>
      exists i :: 0 <= i < |services| && services[i].serviceName != "" && host in ExitHosts(e, services[i].serviceName)
  {
    hide ExitHosts;
    if services != [] {
      var before := services[..|services| - 1];
      ContactedIffExit(e, before, remote, host);
      if i :| 0 <= i < |before| && before[i].serviceName != "" && host in ExitHosts(e, before[i].serviceName) {
        assert services[i] == before[i];
      }
      if i :| 0 <= i < |services| && services[i].serviceName != "" && host in ExitHosts(e, services[i].serviceName) {
        assert i < |before| ==> before[i] == services[i];
      }
    }
  }

  /** Every host that is an exit of a named service. */
  ghost function AllExits(e: Egress, services: seq<Service>): set<HostPort> {
    if services == [] then {}
    else AllExits(e, Init(services)) +
         if Last(services).serviceName == "" then {} else ExitHosts(e, Last(services).serviceName)
  }

  lemma {:induction false} ToldIffExit(e: Egress, services: seq<Service>, remote: HostPort, host: HostPort)
    ensures host in AllExits(e, services) <==> ToldTo(e, services, remote, host) != []
  {
    hide ExitHosts;
    if services != [] {
      ToldIffExit(e, Init(services), remote, host);
    }
  }

  lemma GroupsOfAllExits(e: Egress, services: seq<Service>, remote: HostPort, groups: map<HostPort, seq<Service>>)
    requires Transposed(e, services, remote, groups)
    ensures groups.Keys == AllExits(e, services)
  {
    hide ExitHosts, AllExits, ToldTo;
    forall h ensures h in AllExits(e, services) <==> ToldTo(e, services, remote, h) != [] {
      ToldIffExit(e, services, remote, h);
    }
  }

  /**
    What an exit is told of: services as they were advertised, but under the address they were advertised from, and
    each a service that it is an exit of.
   */
  lemma {:induction false} ToldAsAdvertised(e: Egress, services: seq<Service>, remote: HostPort, exit: HostPort, k: nat)
    returns (i: nat)
    requires k < |ToldTo(e, services, remote, exit)|
    ensures var told := ToldTo(e, services, remote, exit)[k];
      && i < |services| && told == Service(services[i].serviceName, services[i].cost, remote)
      && told.serviceName != "" && exit in ExitHosts(e, told.serviceName)
  {
    hide ExitHosts;
    var before := ToldTo(e, services[..|services| - 1], remote, exit);
    if k < |before| {
      i := ToldAsAdvertised(e, services[..|services| - 1], remote, exit, k);
    } else {
      i := |services| - 1;
    }
  }

  // ----- one relay -----

  /** How an attempt ends; only network errors and timeouts are worth another. */
  datatype Outcome = Accepted | Retryable | Fatal

  datatype Stage = Waiting | Pausing | Finished

  class Relay {
    const maxAttempts: nat
    var attempts: nat
    var stage: Stage
    var callbacks: nat
    ghost var outcomes: seq<Outcome>

    /** Attempts so far, and one callback once an outcome was final. */
    ghost predicate Valid()
      reads this
    {
      && attempts == |outcomes| + (if stage == Waiting then 1 else 0)
      && 1 <= attempts <= maxAttempts + 1
      && (stage != Waiting ==> outcomes != [])
      && (forall i :: 0 <= i < |outcomes| - 1 ==> outcomes[i] == Retryable)
      && (outcomes != [] ==>
            (outcomes[|outcomes| - 1] == Retryable && |outcomes| <= maxAttempts <==> stage != Finished))
      && callbacks == if stage == Finished then 1 else 0
    }

    constructor (maxAttempts: nat)
      ensures Valid() && stage == Waiting && outcomes == [] && this.maxAttempts == maxAttempts
    {
      this.maxAttempts := maxAttempts;
      attempts, stage, callbacks, outcomes := 1, Waiting, 0, [];
    }

    /** An attempt ended, in identification or in its response. */
    method OnResponse(outcome: Outcome)
      requires Valid() && stage == Waiting
      modifies this`stage, this`callbacks, this`outcomes
      ensures Valid() && outcomes == old(outcomes) + [outcome]
      ensures stage == Pausing <==> outcome == Retryable && attempts <= maxAttempts
      ensures callbacks == old(callbacks) + if stage == Finished then 1 else 0
    {
      outcomes := outcomes + [outcome];
      if outcome == Accepted {
        callbacks := callbacks + 1;
        stage := Finished;
      } else if attempts <= maxAttempts && outcome == Retryable {
        stage := Pausing;
      } else {
        callbacks := callbacks + 1;
        stage := Finished;
      }
    }

    /** What the attempts still to come will meet with is what `all` says from here on. */
    ghost predicate Follows(all: nat -> Outcome)
      reads this
    {
      && Valid()
      && AttemptsNeeded(all, maxAttempts, 0) ==
         match stage
         case Waiting => AttemptsNeeded(all, maxAttempts, attempts - 1)
         case Pausing => AttemptsNeeded(all, maxAttempts, attempts)
         case Finished => attempts
    }

    /** After `n` responses and retry timers, those after its callback not counting. */
    ghost predicate At(all: nat -> Outcome, n: nat)
      reads this
    {
      && Follows(all)
      && 2 * (attempts - 1) + (if stage == Waiting then 0 else 1) == Least(n, MovesNeeded(all, maxAttempts))
    }

    lemma FinishedInTime(all: nat -> Outcome, n: nat)
      requires At(all, n)
      ensures stage == Finished <==> n >= MovesNeeded(all, maxAttempts)
    {
      if stage == Waiting {
        AttemptsAreBounded(all, maxAttempts, attempts - 1);
      } else if stage == Pausing {
        AttemptsAreBounded(all, maxAttempts, attempts);
      }
    }

    /** The next response or retry timer, if the relay waits for one. */
    method Move(all: nat -> Outcome, ghost n: nat) returns (calledBack: bool)
      requires At(all, n)
      modifies this`stage, this`attempts, this`callbacks, this`outcomes
      ensures At(all, n + 1)
      ensures calledBack <==> n + 1 == MovesNeeded(all, maxAttempts)
      ensures callbacks == old(callbacks) + if calledBack then 1 else 0
    {
      FinishedInTime(all, n);
      calledBack := false;
      if stage == Waiting {
        OnResponse(all(attempts - 1));
        calledBack := stage == Finished;
      } else if stage == Pausing {
        TryAgain();
      }
      FinishedInTime(all, n + 1);
    }

    /** The retry timer fires. */
    method TryAgain()
      requires Valid() && stage == Pausing
      modifies this`stage, this`attempts
      ensures Valid() && stage == Waiting && attempts == old(attempts) + 1
    {
      attempts := attempts + 1;
      stage := Waiting;
    }
  }

  /** Attempts are over after the first final outcome, or after the last one allowed. */
  function AttemptsNeeded(outcomes: nat -> Outcome, max: nat, from: nat): (n: nat)
    decreases max - from
  {
    if outcomes(from) == Retryable && from < max then AttemptsNeeded(outcomes, max, from + 1) else from + 1
  }

  lemma {:induction false} AttemptsAreBounded(outcomes: nat -> Outcome, max: nat, from: nat)
    requires from <= max
    ensures var n := AttemptsNeeded(outcomes, max, from);
      && from < n <= max + 1
      && (forall i: nat :: from <= i < n - 1 ==> outcomes(i) == Retryable)
      && (n <= max ==> outcomes(n - 1) != Retryable)
    decreases max - from
  {
    if outcomes(from) == Retryable && from < max {
      AttemptsAreBounded(outcomes, max, from + 1);
    }
  }

  /** Responses and retry timers until the callback. */
  ghost function MovesNeeded(outcomes: nat -> Outcome, max: nat): int {
    2 * AttemptsNeeded(outcomes, max, 0) - 1
  }

  /** Drives one relay to its end, whatever its attempts meet with: it calls back once. */
  method SendRelay(outcomes: nat -> Outcome, max: nat) returns (attempts: nat, callbacks: nat)
    ensures attempts == AttemptsNeeded(outcomes, max, 0)
    ensures attempts <= max + 1
    ensures callbacks == 1
  {
    var relay := new Relay(max);
    while relay.stage != Finished
      invariant fresh(relay) && relay.Valid() && relay.maxAttempts == max
      invariant relay.stage != Pausing
      invariant AttemptsNeeded(outcomes, max, 0) ==
        if relay.stage == Finished then relay.attempts else AttemptsNeeded(outcomes, max, relay.attempts - 1)
      decreases max + 1 - relay.attempts, if relay.stage == Finished then 0 else 1
    {
      relay.OnResponse(outcomes(relay.attempts - 1));
      if relay.stage == Pausing {
        relay.TryAgain();
      }
    }
    attempts, callbacks := relay.attempts, relay.callbacks;
  }

  // ----- the countdown -----

  /** Something happens to the relay to exit `k`, all relays are sent, or the fan-out timer fires. */
  datatype Event = OfRelay(k: nat) | AllSent | TimerFires

  /** The exits that have called back in a schedule. */
  ghost function Called(exits: nat, schedule: seq<Event>): set<nat> {
    set k | 0 <= k < exits && OfRelay(k) in schedule
  }

  /** The fan-out timer is set when all is sent, and fires after that. */
  ghost predicate TimesOut(timeout: int, schedule: seq<Event>) {
    timeout > 0 && exists i, j :: 0 <= i < j < |schedule| && schedule[i] == AllSent && schedule[j] == TimerFires
  }

  lemma TimesOutNext(timeout: int, schedule: seq<Event>, e: Event)
    ensures TimesOut(timeout, schedule + [e]) <==>
      TimesOut(timeout, schedule) || (timeout > 0 && AllSent in schedule && e == TimerFires)
  {
    var next := schedule + [e];
    if TimesOut(timeout, schedule) {
      var i, j :| 0 <= i < j < |schedule| && schedule[i] == AllSent && schedule[j] == TimerFires;
      assert next[i] == AllSent && next[j] == TimerFires;
    }
    if timeout > 0 && AllSent in schedule && e == TimerFires {
      var i :| 0 <= i < |schedule| && schedule[i] == AllSent;
      assert next[i] == AllSent && next[|schedule|] == TimerFires;
    }
  }

  class Countdown {
    const exits: nat
    var counter: int
    var finished: bool
    var replies: nat
    var launched: bool
    var timerArmed: bool
    ghost var done: set<nat>
    ghost var timedOut: bool

    /** Every exit calls back at most once, and the reply is out exactly when the countdown or the timer is. */
    ghost predicate Valid()
      reads this
    {
      && (forall k: nat :: k in done ==> k < exits)
      && counter == 1 + exits - |done| - (if launched then 1 else 0)
      && |done| <= exits
      && (finished <==> timedOut || (launched && |done| == exits))
      && (timedOut ==> launched)
      && (timerArmed ==> launched && !finished)
      && replies == if finished then 1 else 0
    }

    constructor (exits: nat)
      ensures Valid() && this.exits == exits && done == {} && !launched && !timedOut
    {
      this.exits, counter := exits, 1 + exits;
      finished, replies, launched, timerArmed := false, 0, false, false;
      done, timedOut := {}, false;
    }

    method Finish()
      modifies this`finished, this`replies, this`timerArmed
      ensures finished && replies == old(replies) + if old(finished) then 0 else 1
      ensures timerArmed == (old(timerArmed) && old(finished))
    {
      if finished {
        return;
      }
      finished := true;
      timerArmed := false;
      replies := replies + 1;
    }

    method OnRelaySent()
      modifies this`counter, this`finished, this`replies, this`timerArmed
      ensures counter == old(counter) - 1
      ensures finished == (old(finished) || counter <= 0)
      ensures replies == old(replies) + if !old(finished) && counter <= 0 then 1 else 0
      ensures timerArmed == (old(timerArmed) && (old(finished) || counter > 0))
    {
      counter := counter - 1;
      if counter <= 0 {
        Finish();
      }
    }

    /** The relay to exit `k` calls back, while the relays are still being sent or later. */
    method Complete(k: nat)
      requires Valid() && k < exits && k !in done
      modifies this`counter, this`finished, this`replies, this`timerArmed, this`done
      ensures Valid() && done == old(done) + {k}
      ensures timerArmed == (old(timerArmed) && !finished)
    {
      done := done + {k};
      FullBelow(done, exits);
      OnRelaySent();
    }

    /** All relays are sent: the timer is set, and the sender's own share of the count is taken off. */
    method Launched(timeout: int)
      requires Valid() && !launched
      modifies this`counter, this`finished, this`replies, this`timerArmed, this`launched
      ensures Valid() && launched && timerArmed == (timeout > 0 && !finished)
    {
      if timeout > 0 {
        timerArmed := true;
      }
      launched := true;
      OnRelaySent();
    }

    method Timeout()
      requires Valid() && timerArmed
      modifies this`finished, this`replies, this`timerArmed, this`timedOut
      ensures Valid() && timedOut
    {
      timedOut := true;
      Finish();
    }

    /** The sending and the timer went as `schedule` says. */
    ghost predicate Timed(timeout: int, schedule: seq<Event>)
      reads this
    {
      && Valid()
      && (launched <==> AllSent in schedule)
      && (launched && timeout > 0 ==> timerArmed || finished)
      && (timerArmed ==> timeout > 0)
      && (timedOut ==> TimesOut(timeout, schedule))
      && (TimesOut(timeout, schedule) ==> finished)
    }

    /** Any event: a callback that is due, the sending, or the timer; what cannot occur is skipped. */
    method Meet(e: Event, calledBack: bool, timeout: int, ghost schedule: seq<Event>)
      requires Timed(timeout, schedule)
      requires calledBack ==> e.OfRelay? && e.k < exits && e.k !in done
      modifies this
      ensures Timed(timeout, schedule + [e])
      ensures done == old(done) + if calledBack then {e.k} else {}
    {
      hide TimesOut;
      TimesOutNext(timeout, schedule, e);
      if calledBack {
        Complete(e.k);
      } else if e.AllSent? && !launched {
        Launched(timeout);
      } else if e.TimerFires? && timerArmed {
        Timeout();
      }
    }

    lemma ReplyIsOut(timeout: int, schedule: seq<Event>)
      requires Timed(timeout, schedule)
      ensures replies <= 1
      ensures replies == 1 <==> AllSent in schedule && (|done| == exits || TimesOut(timeout, schedule))
    {}
  }

  lemma CalledNext(exits: nat, schedule: seq<Event>, e: Event)
    ensures Called(exits, schedule + [e]) ==
      Called(exits, schedule) + if e.OfRelay? && e.k < exits then {e.k} else {}
  {}

  /**
    Any interleaving of callbacks, early or late, with the timer: events that cannot occur (a
    second callback of one relay, a timer that is not armed) are skipped. There is a reply, and
    only one, if and only if all relays were sent, and all have called back or the timer fired.
   */
  method AnyInterleaving(exits: nat, timeout: int, schedule: seq<Event>) returns (replies: nat)
    ensures replies <= 1
    ensures replies == 1 <==>
      AllSent in schedule && (|Called(exits, schedule)| == exits || TimesOut(timeout, schedule))
  {
    hide Called, TimesOut, Countdown.Timed;
    var c := new Countdown(exits);
    NothingYet(c, exits, timeout);
    for i := 0 to |schedule|
      invariant fresh(c) && c.exits == exits && c.Timed(timeout, schedule[..i])
      invariant c.done == Called(exits, schedule[..i])
    {
      var e := schedule[i];
      assert schedule[..i + 1] == schedule[..i] + [e];
      CalledNext(exits, schedule[..i], e);
      CalledMeans(exits, schedule[..i], if e.OfRelay? then e.k else 0);
      c.Meet(e, e.OfRelay? && e.k < exits && e !in schedule[..i], timeout, schedule[..i]);
    }
    assert schedule[..|schedule|] == schedule;
    c.ReplyIsOut(timeout, schedule);
    replies := c.replies;
  }

  lemma CalledMeans(exits: nat, schedule: seq<Event>, k: nat)
    ensures k in Called(exits, schedule) <==> k < exits && OfRelay(k) in schedule
  {}

  lemma NothingYet(c: Countdown, exits: nat, timeout: int)
    requires c.Valid() && !c.launched && !c.timedOut && !c.finished
    ensures Called(exits, []) == {} && c.Timed(timeout, [])
  {}

  // ----- relays and countdown together -----

  /** How often something happened to the relay to exit `k`. */
  ghost function Seen(schedule: seq<Event>, k: nat): nat {
    multiset(schedule)[OfRelay(k)]
  }

  /** The relays of one fan-out, each with outcomes of its own, after `schedule`. */
  ghost predicate Team(relays: seq<Relay>, max: nat, outcomes: nat -> nat -> Outcome, schedule: seq<Event>)
    reads relays
  {
    && (forall i: nat, j: nat :: i < j < |relays| ==> relays[i] != relays[j])
    && (forall j: nat :: j < |relays| ==>
          relays[j].maxAttempts == max && relays[j].At(outcomes(j), Seen(schedule, j)))
  }

  method StartRelays(exits: nat, max: nat, outcomes: nat -> nat -> Outcome) returns (relays: seq<Relay>)
    ensures |relays| == exits && Team(relays, max, outcomes, [])
    ensures forall j: nat :: j < exits ==> fresh(relays[j])
  {
    hide Relay.At, Relay.Valid;
    relays := [];
    for k := 0 to exits
      invariant |relays| == k && Team(relays, max, outcomes, [])
      invariant forall j: nat :: j < k ==> fresh(relays[j])
    {
      var relay := new Relay(max);
      StartsAt(relay, outcomes(k));
      relays := relays + [relay];
    }
  }

  lemma StartsAt(relay: Relay, outcomes: nat -> Outcome)
    requires relay.Valid() && relay.stage == Waiting && relay.outcomes == []
    ensures relay.At(outcomes, 0)
  {
    AttemptsAreBounded(outcomes, relay.maxAttempts, 0);
  }

  /** The relay to exit `k` has called back: enough has happened to it for its attempts to be over. */
  ghost predicate Settled(schedule: seq<Event>, k: nat, outcomes: nat -> Outcome, max: nat) {
    Seen(schedule, k) >= MovesNeeded(outcomes, max)
  }

  /** One event at the relay to exit `k`; the others stay as they are. */
  method MoveOne(relays: seq<Relay>, k: nat, max: nat, outcomes: nat -> nat -> Outcome, ghost schedule: seq<Event>)
    returns (calledBack: bool)
    requires k < |relays| && Team(relays, max, outcomes, schedule)
    modifies relays[k]
    ensures Team(relays, max, outcomes, schedule + [OfRelay(k)])
    ensures calledBack <==>
      !Settled(schedule, k, outcomes(k), max) && Settled(schedule + [OfRelay(k)], k, outcomes(k), max)
  {
    hide Relay.At, MovesNeeded;
    calledBack := relays[k].Move(outcomes(k), Seen(schedule, k));
  }

  /**
    Any interleaving of the responses and retry timers of all relays with the fan-out timer, for
    any outcomes: there is a reply, and only one, if and only if all relays were sent, and every
    one of them came to its end or the timer fired.
   */
  method SendRelays(exits: nat, max: nat, timeout: int, outcomes: nat -> nat -> Outcome, schedule: seq<Event>)
    returns (replies: nat)
    ensures replies <= 1
    ensures replies == 1 <==>
      && AllSent in schedule
      && (|| (forall k: nat :: k < exits ==> Settled(schedule, k, outcomes(k), max))
          || TimesOut(timeout, schedule))
  {
    hide Underway, Team, Settled, TimesOut, Countdown.Timed, Countdown.Valid;
    var relays := StartRelays(exits, max, outcomes);
    var c := new Countdown(exits);
    StartsUnderway(c, relays, exits, max, timeout, outcomes);
    for i := 0 to |schedule|
      invariant |relays| == exits && fresh(c) && forall j: nat :: j < exits ==> fresh(relays[j])
      invariant Underway(c, relays, exits, max, timeout, outcomes, schedule[..i])
    {
      assert schedule[..i + 1] == schedule[..i] + [schedule[i]];
      FanOutStep(c, relays, exits, max, timeout, outcomes, schedule[..i], schedule[i]);
    }
    assert schedule[..|schedule|] == schedule;
    RepliesWhenOver(c, relays, exits, max, timeout, outcomes, schedule);
    replies := c.replies;
  }

  /** The relays and the countdown went as `schedule` says, and the countdown knows which relays are over. */
  ghost predicate Underway(c: Countdown, relays: seq<Relay>, exits: nat, max: nat, timeout: int,
                           outcomes: nat -> nat -> Outcome, schedule: seq<Event>)
    reads c, relays
  {
    && |relays| == exits && Team(relays, max, outcomes, schedule)
    && c.exits == exits && c.Timed(timeout, schedule)
    && forall j: nat :: j in c.done <==> j < exits && Settled(schedule, j, outcomes(j), max)
  }

  lemma StartsUnderway(c: Countdown, relays: seq<Relay>, exits: nat, max: nat, timeout: int,
                       outcomes: nat -> nat -> Outcome)
    requires |relays| == exits && Team(relays, max, outcomes, [])
    requires c.Valid() && c.exits == exits && c.done == {} && !c.launched && !c.timedOut
    ensures Underway(c, relays, exits, max, timeout, outcomes, [])
  {
    hide Team, Settled;
    NothingYet(c, exits, timeout);
    NoneSettled(exits, max, outcomes);
  }

  /** One event, wherever it happens. */
  method FanOutStep(c: Countdown, relays: seq<Relay>, ghost exits: nat, max: nat, timeout: int,
                    outcomes: nat -> nat -> Outcome, ghost schedule: seq<Event>, e: Event)
    requires Underway(c, relays, exits, max, timeout, outcomes, schedule)
    modifies c, relays
    ensures Underway(c, relays, exits, max, timeout, outcomes, schedule + [e])
  {
    hide Team, Seen, Settled, Countdown.Timed, Countdown.Valid;
    var calledBack := false;
    if e.OfRelay? && e.k < |relays| {
      calledBack := MoveOne(relays, e.k, max, outcomes, schedule);
    } else {
      TeamIdle(relays, max, outcomes, schedule, e);
    }
    SettledNext(schedule, e, exits, max, outcomes);
    c.Meet(e, calledBack, timeout, schedule);
  }

  lemma RepliesWhenOver(c: Countdown, relays: seq<Relay>, exits: nat, max: nat, timeout: int,
                        outcomes: nat -> nat -> Outcome, schedule: seq<Event>)
    requires Underway(c, relays, exits, max, timeout, outcomes, schedule)
    ensures c.replies <= 1
    ensures c.replies == 1 <==>
      && AllSent in schedule
      && (|| (forall k: nat :: k < exits ==> Settled(schedule, k, outcomes(k), max))
          || TimesOut(timeout, schedule))
  {
    hide Team, Settled, TimesOut, Countdown.Timed;
    FullBelow(c.done, exits);
    c.ReplyIsOut(timeout, schedule);
  }

  /** The whole fan-out of one advertisement: its reply, and the number of exits the reply tells. */
  method FanOutAd(e: Egress, services: seq<Service>, remote: HostPort, max: nat, timeout: int,
                  outcomes: nat -> nat -> Outcome, schedule: seq<Event>)
    returns (replies: nat, connectionCount: nat)
    requires AllEnd(e, services)
    ensures connectionCount == |AllExits(e, services)|
    ensures replies <= 1
    ensures replies == 1 <==>
      && AllSent in schedule
      && (|| (forall k: nat :: k < |AllExits(e, services)| ==> Settled(schedule, k, outcomes(k), max))
          || TimesOut(timeout, schedule))
  {
    hide AllExits, Transposed, Settled, TimesOut;
    var groups := GroupByExit(e, services, remote);
    GroupsOfAllExits(e, services, remote, groups);
    connectionCount := |groups.Keys|;
    replies := SendRelays(connectionCount, max, timeout, outcomes, schedule);
  }

  lemma SettledNext(schedule: seq<Event>, e: Event, exits: nat, max: nat, outcomes: nat -> nat -> Outcome)
    ensures forall k: nat :: k < exits && Settled(schedule, k, outcomes(k), max) ==>
      Settled(schedule + [e], k, outcomes(k), max)
    ensures forall k: nat :: k < exits && e != OfRelay(k) && Settled(schedule + [e], k, outcomes(k), max) ==>
      Settled(schedule, k, outcomes(k), max)
  {
    hide MovesNeeded;
  }

  lemma NoneSettled(exits: nat, max: nat, outcomes: nat -> nat -> Outcome)
    ensures forall k: nat :: k < exits ==> !Settled([], k, outcomes(k), max)
  {
    forall k: nat | k < exits ensures !Settled([], k, outcomes(k), max) {
      AttemptsAreBounded(outcomes(k), max, 0);
    }
  }

  lemma TeamIdle(relays: seq<Relay>, max: nat, outcomes: nat -> nat -> Outcome, schedule: seq<Event>, e: Event)
    requires Team(relays, max, outcomes, schedule) && (e.OfRelay? ==> e.k >= |relays|)
    ensures Team(relays, max, outcomes, schedule + [e])
  {
    forall j: nat | j < |relays| ensures Seen(schedule + [e], j) == Seen(schedule, j) {}
  }

  function Least(a: int, b: int): int { if a < b then a else b }
}
