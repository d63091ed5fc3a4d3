/**
  Admission control: the counters and limit tables of rate_limiter.js and the decision that
  `rateLimit` in service-proxy.js takes with them. The reference decides by counting in
  the history; the class RateLimiter decides by its ring counters.
 */
module RateLimiting {
  import opened Options
  import opened Collections
  import opened RateCounters

  const DEFAULT_SERVICE_RPS_LIMIT := 100.0
  const DEFAULT_TOTAL_RPS_LIMIT := 1000.0
  const DEFAULT_BUCKET_NUMBER: nat := 20
  const DEFAULT_TOTAL_KILL_SWITCH_BUFFER := 200.0
  const DEFAULT_SERVICE_KILL_SWITCH_FACTOR := 2.0
  const MIN_SERVICE_KILL_SWITCH_FACTOR := 1.0

  // ----- the decision, by counting in the history -----

  predicate Exceeds(limit: real, count: int) {
    limit > 0.0 && count as real > limit
  }

  predicate TotalKill(n: nat, log: History, limits: Limits) {
    Exceeds(limits.totalKs, InWindow(log, n, TotalKs))
  }

  predicate ServiceKill(n: nat, log: History, s: string, limits: Limits) {
    Exceeds(limits.serviceKs, InWindow(log, n, ServiceKs(s)))
  }

  function Decide(n: nat, log: History, s: string, exit: bool, exempt: bool, limits: Limits): Verdict {
    if exempt then Allowed
    else if TotalKill(n, log, limits) || (exit && ServiceKill(n, log, s, limits)) then Killed
    else if Exceeds(limits.total, InWindow(log, n, Total)) then BusyTotal
    else if exit && Exceeds(limits.service, InWindow(log, n, Service(s))) then BusyService
    else Allowed
  }

  /** A positive limit that the requests of a tally in the window have passed. */
  predicate Passed(n: nat, log: History, t: Tally, limit: real) {
    limit > 0.0 && InWindow(log, n, t) as real > limit
  }

  /**
    The verdicts, one by one. Each way to be turned away needs a positive limit that the window has passed, and
    where there is none, or for an exempt service, the request is allowed.
   */
  ghost predicate Judged(n: nat, log: History, s: string, exit: bool, exempt: bool, l: Limits, verdict: Verdict) {
    && (verdict == Killed <==>
          !exempt && (Passed(n, log, TotalKs, l.totalKs) || (exit && Passed(n, log, ServiceKs(s), l.serviceKs))))
    && (verdict == BusyTotal ==> !exempt && Passed(n, log, Total, l.total))
    && (verdict == BusyService ==> !exempt && exit && Passed(n, log, Service(s), l.service))
    && (verdict == Allowed <==>
          exempt ||
          (!Passed(n, log, TotalKs, l.totalKs) && !Passed(n, log, Total, l.total) &&
           (exit ==> !Passed(n, log, ServiceKs(s), l.serviceKs) && !Passed(n, log, Service(s), l.service))))
    && (verdict == BusyService ==> !Passed(n, log, Total, l.total))
  }

  lemma DecideIsJudged(n: nat, log: History, s: string, exit: bool, exempt: bool, l: Limits)
    ensures Judged(n, log, s, exit, exempt, l, Decide(n, log, s, exit, exempt, l))
  {
    hide InWindow;
  }

  /** Every verdict in the history is the one its past called for. */
  ghost predicate Justified(n: nat, log: History) {
    log == [] ||
    (Justified(n, Init(log)) &&
     (Last(log).Asked? ==>
        var m := Last(log);
        m.verdict == Decide(n, Init(log), m.service, m.exit, m.exempt, m.limits)))
  }

  /** The total limit in force never changed. */
  ghost predicate FixedTotal(log: History, limit: real) {
    forall i :: 0 <= i < |log| && log[i].Asked? && !log[i].exempt ==> log[i].limits.total == limit
  }

  ghost predicate FixedService(log: History, s: string, limit: real) {
    forall i :: 0 <= i < |log| && log[i].Asked? && !log[i].exempt && log[i].exit && log[i].service == s ==>
      log[i].limits.service == limit
  }

  // ----- the theorems, over every history -----

  /** With a fixed positive total limit, no window admits more than one request beyond it. */
  lemma {:induction false} TotalStaysWithinLimit(n: nat, log: History, limit: real)
    requires Justified(n, log) && FixedTotal(log, limit) && limit > 0.0
    ensures InWindow(log, n, Total) as real <= limit + 1.0
  {
    if log != [] && n > 0 {
      var before := Init(log);
      assert FixedTotal(before, limit) by {
        assert forall i :: 0 <= i < |before| ==> before[i] == log[i];
      }
      TotalStaysWithinLimit(n, before, limit);
      if Last(log).Tick? {
        SmallerWindow(before, n - 1, Total);
      } else {
        assert log[|log| - 1] == Last(log);
      }
    }
  }

  /** With a fixed positive limit for a service, no window admits more than one request beyond it. */
  lemma {:induction false} ServiceStaysWithinLimit(n: nat, log: History, s: string, limit: real)
    requires Justified(n, log) && FixedService(log, s, limit) && limit > 0.0
    ensures InWindow(log, n, Service(s)) as real <= limit + 1.0
  {
    if log != [] && n > 0 {
      var before := Init(log);
      assert FixedService(before, s, limit) by {
        assert forall i :: 0 <= i < |before| ==> before[i] == log[i];
      }
      ServiceStaysWithinLimit(n, before, s, limit);
      if Last(log).Tick? {
        SmallerWindow(before, n - 1, Service(s));
      } else {
        assert log[|log| - 1] == Last(log);
      }
    }
  }

  /**
    Kill-switch gating: with a fixed positive total limit and the kill switch set a buffer above
    it, the total kill switch acts only once the buffer's worth of Busy rejections is in the window.
   */
  lemma TotalKillNeedsRejections(n: nat, log: History, limits: Limits, limit: real, buffer: real)
    requires Justified(n, log) && FixedTotal(log, limit) && limit > 0.0
    requires limits.totalKs == limit + buffer
    requires TotalKill(n, log, limits)
    ensures InWindow(log, n, Busy) as real > buffer - 1.0
    ensures buffer == buffer.Floor as real ==> InWindow(log, n, Busy) >= buffer.Floor
  {
    TotalStaysWithinLimit(n, log, limit);
    BusyIsTheDifference(log, n);
  }

  /**
    The same of one service: its kill switch acts only once that many requests beyond its limit were
    turned away, or passed exempt while it had counters.
   */
  lemma ServiceKillNeedsExcess(n: nat, log: History, s: string, limits: Limits, limit: real, factor: real)
    requires Justified(n, log) && FixedService(log, s, limit) && limit > 0.0
    requires limits.serviceKs == limit * factor
    requires ServiceKill(n, log, s, limits)
    ensures InWindow(log, n, ServiceExcess(s)) as real > limit * factor - limit - 1.0
  {
    ServiceStaysWithinLimit(n, log, s, limit);
    forall i | 0 <= i < |log| && log[i].Asked? && log[i].exempt ensures log[i].verdict == Allowed {
      ExemptAlwaysPass(n, log, i);
    }
    ExcessIsTheDifference(log, n, s);
  }

  /** Exempt services are never turned away and never count towards a limit. */
  lemma {:induction false} ExemptAlwaysPass(n: nat, log: History, i: nat)
    requires Justified(n, log) && i < |log| && log[i].Asked? && log[i].exempt
    ensures log[i].verdict == Allowed
    ensures !Counts(Total, log[i]) && !Counts(TotalKs, log[i]) && forall s :: !Counts(Service(s), log[i])
  {
    if i < |log| - 1 {
      ExemptAlwaysPass(n, Init(log), i);
    }
  }

  /** All that was asked in the window stays within every positive limit. */
  ghost predicate Unpressed(n: nat, log: History, s: string, exit: bool, l: Limits) {
    && (l.totalKs > 0.0 ==> InWindow(log, n, Demand) as real <= l.totalKs)
    && (l.total > 0.0 ==> InWindow(log, n, Demand) as real <= l.total)
    && (exit && l.serviceKs > 0.0 ==> InWindow(log, n, DemandFor(s)) as real <= l.serviceKs)
    && (exit && l.service > 0.0 ==> InWindow(log, n, DemandFor(s)) as real <= l.service)
  }

  /** While what is asked stays within the limits, nothing is turned away. */
  lemma UnpressedIsAllowed(n: nat, log: History, s: string, exit: bool, exempt: bool, l: Limits)
    requires Unpressed(n, log, s, exit, l)
    ensures Decide(n, log, s, exit, exempt, l) == Allowed
  {
    WiderTally(log, n, TotalKs, Demand);
    WiderTally(log, n, Total, Demand);
    WiderTally(log, n, ServiceKs(s), DemandFor(s));
    WiderTally(log, n, Service(s), DemandFor(s));
  }

  lemma {:induction false} UnpressedAreAllowed(n: nat, log: History, i: nat)
    requires Justified(n, log) && i < |log| && log[i].Asked?
    requires Unpressed(n, log[..i], log[i].service, log[i].exit, log[i].limits)
    ensures log[i].verdict == Allowed
  {
    if i < |log| - 1 {
      assert Init(log)[..i] == log[..i];
      UnpressedAreAllowed(n, Init(log), i);
    } else {
      assert Init(log) == log[..i];
      UnpressedIsAllowed(n, log[..i], log[i].service, log[i].exit, log[i].exempt, log[i].limits);
    }
  }

  // ----- the books: every counter at once -----

  datatype Books = Books(
    total: Counter,
    totalKs: Counter,
    services: map<string, Counter>,
    serviceKs: map<string, Counter>)

  ghost predicate ServicesShow(counters: map<string, Counter>, n: nat, log: History) {
    forall s :: s in counters ==> Shows(counters[s], n, log, Service(s))
  }

  ghost predicate ServiceKsShow(counters: map<string, Counter>, n: nat, log: History) {
    forall s :: s in counters ==> Shows(counters[s], n, log, ServiceKs(s))
  }

  /** A service without counters was never counted. */
  ghost predicate OthersSilent(services: set<string>, log: History) {
    forall s :: s !in services ==> Never(log, Service(s)) && Never(log, ServiceKs(s))
  }

  /** All counters show the history, and a service has either both its counters or neither. */
  ghost predicate Balanced(b: Books, n: nat, log: History) {
    && Shows(b.total, n, log, Total)
    && Shows(b.totalKs, n, log, TotalKs)
    && b.services.Keys == b.serviceKs.Keys
    && ServicesShow(b.services, n, log)
    && ServiceKsShow(b.serviceKs, n, log)
    && OthersSilent(b.services.Keys, log)
  }

  function RefreshMap(counters: map<string, Counter>): map<string, Counter> {
    map s | s in counters :: Refresh(counters[s])
  }

  function RefreshBooks(b: Books): Books {
    Books(Refresh(b.total), Refresh(b.totalKs), RefreshMap(b.services), RefreshMap(b.serviceKs))
  }

  lemma NewBalances(n: nat, limit: real, ksLimit: real)
    requires n > 0
    ensures Balanced(Books(NewCounter(n, limit), NewCounter(n, ksLimit), map[], map[]), n, [])
  {
    NewShows(n, limit, [], Total);
    NewShows(n, ksLimit, [], TotalKs);
  }

  lemma RefreshBalances(b: Books, n: nat, log: History)
    requires Balanced(b, n, log)
    ensures Balanced(RefreshBooks(b), n, log + [Tick])
  {
    var b' := RefreshBooks(b);
    TickShows(b.total, n, log, Total);
    TickShows(b.totalKs, n, log, TotalKs);
    forall s | s in b'.services ensures Shows(b'.services[s], n, log + [Tick], Service(s)) {
      TickShows(b.services[s], n, log, Service(s));
    }
    forall s | s in b'.serviceKs ensures Shows(b'.serviceKs[s], n, log + [Tick], ServiceKs(s)) {
      TickShows(b.serviceKs[s], n, log, ServiceKs(s));
    }
    SilentAfter(b.services.Keys, log, Tick);
  }

  lemma SilentAfter(services: set<string>, log: History, m: Mark)
    requires OthersSilent(services, log)
    requires m.Asked? && m.tracked ==> m.service in services
    ensures OthersSilent(services, log + [m])
  {
    forall s | s !in services ensures Never(log + [m], Service(s)) && Never(log + [m], ServiceKs(s)) {
      assert Never(log, Service(s)) && Never(log, ServiceKs(s));
    }
  }

  /** Opens the two counters of a service that has none. */
  function Open(b: Books, n: nat, s: string, limit: real, ksLimit: real): Books
    requires n > 0
  {
    b.(services := b.services[s := NewCounter(n, limit)], serviceKs := b.serviceKs[s := NewCounter(n, ksLimit)])
  }

  lemma OpenBalances(b: Books, n: nat, log: History, s: string, limit: real, ksLimit: real)
    requires n > 0 && Balanced(b, n, log) && s !in b.services
    ensures Balanced(Open(b, n, s, limit, ksLimit), n, log)
  {
    assert Never(log, Service(s)) && Never(log, ServiceKs(s));
    NewShows(n, limit, log, Service(s));
    NewShows(n, ksLimit, log, ServiceKs(s));
  }

  function CountIn(counters: map<string, Counter>, s: string, counted: bool): (r: map<string, Counter>)
    requires counted ==> s in counters
    ensures r.Keys == counters.Keys
  {
    if counted then counters[s := Increment(counters[s])] else counters
  }

  lemma NotCounted(counters: map<string, Counter>, s: string)
    ensures CountIn(counters, s, false) == counters
  {}

  /** Counts a judged request wherever it belongs. */
  function Account(b: Books, m: Mark): Books
    requires m.Asked? && b.services.Keys == b.serviceKs.Keys
    requires m.tracked <==> m.service in b.services
  {
    Books(
      if Counts(Total, m) then Increment(b.total) else b.total,
      if Counts(TotalKs, m) then Increment(b.totalKs) else b.totalKs,
      CountIn(b.services, m.service, Counts(Service(m.service), m)),
      CountIn(b.serviceKs, m.service, Counts(ServiceKs(m.service), m)))
  }

  lemma CountsWhere(m: Mark)
    requires m.Asked?
    ensures Counts(Total, m) <==> !m.exempt && m.verdict == Allowed
    ensures Counts(TotalKs, m) <==> !m.exempt && m.verdict != Killed
    ensures Counts(Service(m.service), m) <==> m.exit && m.tracked && !m.exempt && m.verdict == Allowed
    ensures Counts(ServiceKs(m.service), m) <==> m.exit && m.tracked && m.verdict != Killed
  {}

  lemma AccountIs(b: Books, s: string, exit: bool, exempt: bool, limits: Limits, verdict: Verdict)
    requires b.services.Keys == b.serviceKs.Keys
    ensures Account(b, Asked(s, exit, exempt, s in b.services, limits, verdict)) ==
      Books(if !exempt && verdict == Allowed then Increment(b.total) else b.total,
            if !exempt && verdict != Killed then Increment(b.totalKs) else b.totalKs,
            CountIn(b.services, s, exit && s in b.services && !exempt && verdict == Allowed),
            CountIn(b.serviceKs, s, exit && s in b.services && verdict != Killed))
  {
    hide CountIn, Increment, Counts;
    CountsWhere(Asked(s, exit, exempt, s in b.services, limits, verdict));
  }

  lemma CountInServices(counters: map<string, Counter>, n: nat, log: History, m: Mark)
    requires ServicesShow(counters, n, log) && m.Asked?
    requires Counts(Service(m.service), m) ==> m.service in counters
    ensures ServicesShow(CountIn(counters, m.service, Counts(Service(m.service), m)), n, log + [m])
  {
    forall s | s in counters
      ensures Shows(if Counts(Service(s), m) then Increment(counters[s]) else counters[s], n, log + [m], Service(s))
    {
      hide Shows;
      AskedShows(counters[s], n, log, Service(s), m);
    }
  }

  lemma CountInServiceKs(counters: map<string, Counter>, n: nat, log: History, m: Mark)
    requires ServiceKsShow(counters, n, log) && m.Asked?
    requires Counts(ServiceKs(m.service), m) ==> m.service in counters
    ensures ServiceKsShow(CountIn(counters, m.service, Counts(ServiceKs(m.service), m)), n, log + [m])
  {
    forall s | s in counters
      ensures Shows(if Counts(ServiceKs(s), m) then Increment(counters[s]) else counters[s], n, log + [m], ServiceKs(s))
    {
      hide Shows;
      AskedShows(counters[s], n, log, ServiceKs(s), m);
    }
  }

  lemma AccountBalances(b: Books, n: nat, log: History, m: Mark)
    requires Balanced(b, n, log) && m.Asked? && (m.tracked <==> m.service in b.services)
    ensures Balanced(Account(b, m), n, log + [m])
  {
    hide Shows, ServicesShow, ServiceKsShow, OthersSilent;
    AskedShows(b.total, n, log, Total, m);
    AskedShows(b.totalKs, n, log, TotalKs, m);
    CountInServices(b.services, n, log, m);
    CountInServiceKs(b.serviceKs, n, log, m);
    SilentAfter(b.services.Keys, log, m);
  }

  /** Setting limits moves no count. */
  lemma LimitsDoNotCount(b: Books, b': Books, n: nat, log: History)
    requires Balanced(b, n, log)
    requires b'.total == b.total.(rpsLimit := b'.total.rpsLimit)
    requires b'.totalKs == b.totalKs.(rpsLimit := b'.totalKs.rpsLimit)
    requires b'.services.Keys == b.services.Keys && b'.serviceKs.Keys == b.serviceKs.Keys
    requires forall s :: s in b.services ==> b'.services[s] == b.services[s].(rpsLimit := b'.services[s].rpsLimit)
    requires forall s :: s in b.serviceKs ==> b'.serviceKs[s] == b.serviceKs[s].(rpsLimit := b'.serviceKs[s].rpsLimit)
    ensures Balanced(b', n, log)
  {
    forall s | s in b'.services ensures Shows(b'.services[s], n, log, Service(s)) {
      assert Shows(b.services[s], n, log, Service(s));
    }
    forall s | s in b'.serviceKs ensures Shows(b'.serviceKs[s], n, log, ServiceKs(s)) {
      assert Shows(b.serviceKs[s], n, log, ServiceKs(s));
    }
  }

  // ----- the limit tables -----

  datatype Tables = Tables(limits: map<string, real>, default: real, factor: real)

  function LimitFor(t: Tables, s: string): real {
    if s in t.limits then t.limits[s] else t.default
  }

  function KillSwitchLimit(limit: real, factor: real): real { limit * factor }

  /** The limits of one live service agree with the tables. */
  predicate Agrees(t: Tables, limit: real, ksLimit: real, s: string) {
    limit == LimitFor(t, s) && ksLimit == KillSwitchLimit(LimitFor(t, s), t.factor)
  }

  /** The limits of all live services agree with the tables, save perhaps one's. */
  ghost predicate AgreesExcept(t: Tables, services: map<string, Counter>, serviceKs: map<string, Counter>,
                               except: Option<string>) {
    forall s :: s in services && s in serviceKs && Some(s) != except ==>
      Agrees(t, services[s].rpsLimit, serviceKs[s].rpsLimit, s)
  }

  lemma RefreshAgrees(t: Tables, services: map<string, Counter>, serviceKs: map<string, Counter>)
    requires AgreesExcept(t, services, serviceKs, None)
    ensures AgreesExcept(t, RefreshMap(services), RefreshMap(serviceKs), None)
  {}

  lemma JustifiedNext(n: nat, log: History, m: Mark)
    requires Justified(n, log)
    requires m.Asked? ==> m.verdict == Decide(n, log, m.service, m.exit, m.exempt, m.limits)
    ensures Justified(n, log + [m])
  {
    Extend(log, m);
  }

  lemma AccountAgrees(t: Tables, b: Books, m: Mark)
    requires m.Asked? && b.services.Keys == b.serviceKs.Keys
    requires m.tracked <==> m.service in b.services
    requires AgreesExcept(t, b.services, b.serviceKs, None)
    ensures AgreesExcept(t, Account(b, m).services, Account(b, m).serviceKs, None)
  {}

  /** Counting a request changes neither which services have counters nor any limit. */
  lemma AccountKeepsLimits(b: Books, m: Mark)
    requires m.Asked? && b.services.Keys == b.serviceKs.Keys
    requires m.tracked <==> m.service in b.services
    ensures var b' := Account(b, m);
      && b'.total.rpsLimit == b.total.rpsLimit && b'.totalKs.rpsLimit == b.totalKs.rpsLimit
      && b'.services.Keys == b.services.Keys && b'.serviceKs.Keys == b.serviceKs.Keys
      && (forall s :: s in b.services ==> b'.services[s].rpsLimit == b.services[s].rpsLimit)
      && (forall s :: s in b.serviceKs ==> b'.serviceKs[s].rpsLimit == b.serviceKs[s].rpsLimit)
  {}

  lemma OpenAgrees(t: Tables, b: Books, n: nat, s: string)
    requires n > 0 && s !in b.services && AgreesExcept(t, b.services, b.serviceKs, None)
    requires b.services.Keys == b.serviceKs.Keys
    ensures var b' := Open(b, n, s, LimitFor(t, s), KillSwitchLimit(LimitFor(t, s), t.factor));
      AgreesExcept(t, b'.services, b'.serviceKs, None)
  {}

  function WithLimit(limits: map<string, real>, name: string, limit: Option<real>): map<string, real> {
    if limit.None? then limits - {name} else limits[name := limit.value]
  }

  function SetLimit(counters: map<string, Counter>, name: string, limit: real): map<string, Counter> {
    if name in counters then counters[name := counters[name].(rpsLimit := limit)] else counters
  }

  /** Setting one service's limit, in the table and in both its counters, restores its agreement. */
  lemma SetLimitAgrees(t: Tables, t': Tables, services: map<string, Counter>, serviceKs: map<string, Counter>,
                       name: string)
    requires AgreesExcept(t, services, serviceKs, Some(name))
    requires t'.default == t.default && t'.factor == t.factor
    requires forall s :: s != name ==> LimitFor(t', s) == LimitFor(t, s)
    ensures AgreesExcept(t', SetLimit(services, name, LimitFor(t', name)),
                         SetLimit(serviceKs, name, KillSwitchLimit(LimitFor(t', name), t'.factor)), None)
  {}

  lemma AgreesWithoutException(t: Tables, services: map<string, Counter>, serviceKs: map<string, Counter>,
                               except: Option<string>)
    requires AgreesExcept(t, services, serviceKs, None)
    ensures AgreesExcept(t, services, serviceKs, except)
  {}

  lemma RemoveEntryAgrees(t: Tables, services: map<string, Counter>, serviceKs: map<string, Counter>, name: string)
    requires AgreesExcept(t, services, serviceKs, None)
    ensures AgreesExcept(t.(limits := t.limits - {name}), services, serviceKs, Some(name))
  {}

  lemma SameProductIff(limit: real, factor: real, factor': real)
    ensures KillSwitchLimit(limit, factor) == KillSwitchLimit(limit, factor') <==> factor == factor' || limit == 0.0
  {
    if limit * factor == limit * factor' {
      assert limit * (factor - factor') == 0.0;
    }
  }

  /** Kill-switch limits follow the old factor; the new one gives the same only where it has no effect. */
  lemma FactorAgrees(t: Tables, t': Tables, services: map<string, Counter>, serviceKs: map<string, Counter>)
    requires AgreesExcept(t, services, serviceKs, None) && services.Keys == serviceKs.Keys
    requires t' == t.(factor := t'.factor)
    ensures AgreesExcept(t', services, serviceKs, None) <==>
      t'.factor == t.factor || forall s :: s in services ==> services[s].rpsLimit == 0.0
  {
    forall s | s in services
      ensures Agrees(t', services[s].rpsLimit, serviceKs[s].rpsLimit, s) <==>
        t'.factor == t.factor || services[s].rpsLimit == 0.0
    {
      assert Agrees(t, services[s].rpsLimit, serviceKs[s].rpsLimit, s);
      SameProductIff(LimitFor(t, s), t.factor, t'.factor);
    }
  }

  lemma SetLimitBalances(b: Books, n: nat, log: History, name: string, limit: real, ksLimit: real)
    requires Balanced(b, n, log)
    ensures Balanced(b.(services := SetLimit(b.services, name, limit),
                        serviceKs := SetLimit(b.serviceKs, name, ksLimit)), n, log)
  {
    LimitsDoNotCount(b, b.(services := SetLimit(b.services, name, limit),
                           serviceKs := SetLimit(b.serviceKs, name, ksLimit)), n, log);
  }

  // ----- the object -----

  /** Zero stands for an absent number too, except that a total limit of zero is one. */
  datatype Settings = Settings(
    numOfBuckets: nat,
    totalKillSwitchBuffer: real,
    serviceKillSwitchFactor: real,
    defaultServiceRpsLimit: real,
    totalRpsLimit: Option<real>,
    rpsLimitForServiceName: map<string, real>,
    exemptServices: seq<string>)

  function OrDefault(value: real, default: real): real { if value == 0.0 then default else value }

  function BucketsOf(o: Settings): nat {
    if o.numOfBuckets == 0 then DEFAULT_BUCKET_NUMBER else o.numOfBuckets
  }

  function TotalOf(o: Settings): real {
    if o.totalRpsLimit.Some? then o.totalRpsLimit.value else DEFAULT_TOTAL_RPS_LIMIT
  }

  class RateLimiter {
    const numOfBuckets: nat
    const killSwitchBuffer: real
    var totalRpsLimit: real
    var serviceKillSwitchFactor: real
    var defaultServiceRpsLimit: real
    var rpsLimitForServiceName: map<string, real>
    var exemptServices: seq<string>
    var totalRequestCounter: Counter
    var totalKsCounter: Counter
    var serviceCounters: map<string, Counter>
    var ksCounters: map<string, Counter>
    ghost var log: History

    ghost function View(): Books
      reads this
    {
      Books(totalRequestCounter, totalKsCounter, serviceCounters, ksCounters)
    }

    function TablesNow(): Tables
      reads this
    {
      Tables(rpsLimitForServiceName, defaultServiceRpsLimit, serviceKillSwitchFactor)
    }

    ghost predicate Valid()
      reads this
    {
      && numOfBuckets > 0
      && serviceCounters.Keys == ksCounters.Keys
      && Balanced(View(), numOfBuckets, log)
      && Justified(numOfBuckets, log)
      && totalRequestCounter.rpsLimit == totalRpsLimit
      && totalKsCounter.rpsLimit == totalRpsLimit + killSwitchBuffer
    }

    /** Every live counter's limit is the one its tables give. */
    ghost predicate Coherent()
      reads this
    {
      AgreesExcept(TablesNow(), serviceCounters, ksCounters, None)
    }

    ghost function LimitsInForce(s: string): Limits
      reads this
    {
      Limits(totalRequestCounter.rpsLimit, totalKsCounter.rpsLimit,
             if s in serviceCounters then serviceCounters[s].rpsLimit else 0.0,
             if s in ksCounters then ksCounters[s].rpsLimit else 0.0)
    }

    predicate IsExempt(s: string)
      reads this
    {
      s in exemptServices
    }

    constructor (options: Settings)
      requires options.numOfBuckets <= 1000
      ensures Valid() && Coherent() && log == [Tick]
      ensures numOfBuckets == BucketsOf(options)
      ensures killSwitchBuffer == OrDefault(options.totalKillSwitchBuffer, DEFAULT_TOTAL_KILL_SWITCH_BUFFER)
      ensures totalRpsLimit == TotalOf(options)
      ensures TablesNow() == Tables(options.rpsLimitForServiceName,
                                    OrDefault(options.defaultServiceRpsLimit, DEFAULT_SERVICE_RPS_LIMIT),
                                    OrDefault(options.serviceKillSwitchFactor, DEFAULT_SERVICE_KILL_SWITCH_FACTOR))
      ensures exemptServices == options.exemptServices && serviceCounters == map[]
    {
      hide Balanced, Justified, AgreesExcept, NewCounter;
      var n := if options.numOfBuckets == 0 then DEFAULT_BUCKET_NUMBER else options.numOfBuckets;
      var buffer := OrDefault(options.totalKillSwitchBuffer, DEFAULT_TOTAL_KILL_SWITCH_BUFFER);
      var limit := if options.totalRpsLimit.Some? then options.totalRpsLimit.value else DEFAULT_TOTAL_RPS_LIMIT;
      numOfBuckets, killSwitchBuffer, totalRpsLimit := n, buffer, limit;
      serviceKillSwitchFactor := OrDefault(options.serviceKillSwitchFactor, DEFAULT_SERVICE_KILL_SWITCH_FACTOR);
      defaultServiceRpsLimit := OrDefault(options.defaultServiceRpsLimit, DEFAULT_SERVICE_RPS_LIMIT);
      rpsLimitForServiceName, exemptServices := options.rpsLimitForServiceName, options.exemptServices;
      serviceCounters, ksCounters := map[], map[];
      totalRequestCounter := NewCounter(n, limit);
      totalKsCounter := NewCounter(n, limit + buffer);
      log := [];
      new;
      NewIsInOrder();
      RefreshAll();
    }

    lemma NewIsInOrder()
      requires numOfBuckets > 0 && log == [] && serviceCounters == ksCounters == map[]
      requires totalRequestCounter == NewCounter(numOfBuckets, totalRpsLimit)
      requires totalKsCounter == NewCounter(numOfBuckets, totalRpsLimit + killSwitchBuffer)
      ensures Valid() && Coherent()
    {
      NewBalances(numOfBuckets, totalRpsLimit, totalRpsLimit + killSwitchBuffer);
    }

    // ----- refresh -----

    /** Refreshes every counter of a dictionary, in whatever order its keys come. */
    static method RefreshEach(counters: map<string, Counter>) returns (r: map<string, Counter>)
      ensures r == RefreshMap(counters)
    {
      r := counters;
      var todo := counters.Keys;
      while todo != {}
        invariant todo <= counters.Keys == r.Keys
        invariant forall s :: s in counters ==> r[s] == if s in todo then counters[s] else Refresh(counters[s])
      {
        var s :| s in todo;
        r := r[s := Refresh(r[s])];
        todo := todo - {s};
      }
    }

    method RefreshCounters()
      modifies this`totalRequestCounter, this`totalKsCounter, this`serviceCounters, this`ksCounters
      ensures View() == RefreshBooks(old(View()))
    {
      totalRequestCounter := Refresh(totalRequestCounter);
      totalKsCounter := Refresh(totalKsCounter);
      serviceCounters := RefreshEach(serviceCounters);
      ksCounters := RefreshEach(ksCounters);
    }

    method RefreshAll()
      requires Valid()
      modifies this`totalRequestCounter, this`totalKsCounter, this`serviceCounters, this`ksCounters, this`log
      ensures Valid() && log == old(log) + [Tick]
      ensures View() == RefreshBooks(old(View()))
      ensures old(Coherent()) ==> Coherent()
    {
      hide Balanced, Justified, AgreesExcept;
      RefreshBalances(View(), numOfBuckets, log);
      JustifiedNext(numOfBuckets, log, Tick);
      if Coherent() {
        RefreshAgrees(TablesNow(), serviceCounters, ksCounters);
      }
      RefreshCounters();
      log := log + [Tick];
    }

    // ----- the counters of one service -----

    function KillSwitchLimitFor(s: string): real
      requires s in serviceCounters
      reads this
    {
      KillSwitchLimit(serviceCounters[s].rpsLimit, serviceKillSwitchFactor)
    }

    method CreateServiceCounter(s: string)
      requires s != "" && numOfBuckets > 0
      modifies this`serviceCounters
      ensures serviceCounters == if IsExempt(s) || s in old(serviceCounters) then old(serviceCounters)
        else old(serviceCounters)[s := NewCounter(numOfBuckets, LimitFor(TablesNow(), s))]
    {
      if !IsExempt(s) && s !in serviceCounters {
        var limit := if s in rpsLimitForServiceName then rpsLimitForServiceName[s] else defaultServiceRpsLimit;
        serviceCounters := serviceCounters[s := NewCounter(numOfBuckets, limit)];
      }
    }

    method CreateKillSwitchServiceCounter(s: string)
      requires s != "" && numOfBuckets > 0
      requires !IsExempt(s) ==> s in serviceCounters
      modifies this`ksCounters
      ensures ksCounters == if IsExempt(s) || s in old(ksCounters) then old(ksCounters)
        else old(ksCounters)[s := NewCounter(numOfBuckets, KillSwitchLimitFor(s))]
    {
      if !IsExempt(s) && s !in ksCounters {
        ksCounters := ksCounters[s := NewCounter(numOfBuckets, KillSwitchLimitFor(s))];
      }
    }

    /** Both counters of an exit service exist from here on, unless the service is exempt. */
    method PrepareCounters(s: string)
      requires Valid() && s != ""
      modifies this`serviceCounters, this`ksCounters
      ensures Valid()
      ensures View() == if IsExempt(s) || s in old(serviceCounters) then old(View())
        else Open(old(View()), numOfBuckets, s, LimitFor(TablesNow(), s),
                  KillSwitchLimit(LimitFor(TablesNow(), s), serviceKillSwitchFactor))
      ensures old(Coherent()) ==> Coherent()
    {
      hide Balanced, Justified, AgreesExcept;
      CreateServiceCounter(s);
      CreateKillSwitchServiceCounter(s);
      if !IsExempt(s) && s !in old(serviceCounters) {
        if old(Coherent()) {
          OpenAgrees(TablesNow(), old(View()), numOfBuckets, s);
        }
        OpenBalances(old(View()), numOfBuckets, log, s, LimitFor(TablesNow(), s), KillSwitchLimitFor(s));
      }
    }

    // ----- the decision -----

    method ShouldKillSwitch(s: string, isExit: bool) returns (kill: bool)
      requires Valid() && (isExit && !IsExempt(s) ==> s in serviceCounters)
      ensures kill == (!IsExempt(s) &&
        (TotalKill(numOfBuckets, log, LimitsInForce(s)) ||
         (isExit && ServiceKill(numOfBuckets, log, s, LimitsInForce(s)))))
    {
      kill := !IsExempt(s) && (Over(totalKsCounter) || (isExit && Over(ksCounters[s])));
    }

    method ShouldRateLimitTotal(s: string) returns (busy: bool)
      requires Valid()
      ensures busy == (!IsExempt(s) && Exceeds(totalRequestCounter.rpsLimit, InWindow(log, numOfBuckets, Total)))
    {
      busy := !IsExempt(s) && Over(totalRequestCounter);
    }

    method ShouldRateLimitService(s: string) returns (busy: bool)
      requires Valid() && (!IsExempt(s) ==> s in serviceCounters)
      ensures busy == (!IsExempt(s) &&
        Exceeds(serviceCounters[s].rpsLimit, InWindow(log, numOfBuckets, Service(s))))
    {
      busy := !IsExempt(s) && Over(serviceCounters[s]);
    }

    method Judge(s: string, isExit: bool) returns (verdict: Verdict)
      requires Valid() && (isExit && !IsExempt(s) ==> s in serviceCounters)
      ensures verdict == Decide(numOfBuckets, log, s, isExit, IsExempt(s), LimitsInForce(s))
      ensures Judged(numOfBuckets, log, s, isExit, IsExempt(s), LimitsInForce(s), verdict)
    {
      DecideIsJudged(numOfBuckets, log, s, isExit, IsExempt(s), LimitsInForce(s));
      var kill := ShouldKillSwitch(s, isExit);
      if kill {
        return Killed;
      }
      var busy := ShouldRateLimitTotal(s);
      if busy {
        return BusyTotal;
      }
      if isExit {
        busy := ShouldRateLimitService(s);
        if busy {
          return BusyService;
        }
      }
      return Allowed;
    }

    method CountForKillSwitches(s: string, isExit: bool)
      requires isExit ==> s in ksCounters
      modifies this`totalKsCounter, this`ksCounters
      ensures totalKsCounter == Increment(old(totalKsCounter))
      ensures ksCounters == CountIn(old(ksCounters), s, isExit)
    {
      totalKsCounter := Increment(totalKsCounter);
      if isExit {
        ksCounters := ksCounters[s := Increment(ksCounters[s])];
      }
    }

    method CountForLimits(s: string, isExit: bool)
      requires isExit ==> s in serviceCounters
      modifies this`totalRequestCounter, this`serviceCounters
      ensures totalRequestCounter == Increment(old(totalRequestCounter))
      ensures serviceCounters == CountIn(old(serviceCounters), s, isExit)
    {
      totalRequestCounter := Increment(totalRequestCounter);
      if isExit {
        serviceCounters := serviceCounters[s := Increment(serviceCounters[s])];
      }
    }

    /**
      A request that was not kill-switched counts for the kill switches, and if admitted for the limits.
      Only the service's kill switch ignores an exemption, once it has a counter.
     */
    method CountRequest(s: string, isExit: bool, verdict: Verdict, ghost limits: Limits)
      requires serviceCounters.Keys == ksCounters.Keys && (isExit && !IsExempt(s) ==> s in serviceCounters)
      modifies this`totalRequestCounter, this`totalKsCounter, this`serviceCounters, this`ksCounters
      ensures View() ==
        Account(old(View()), Asked(s, isExit, IsExempt(s), s in old(serviceCounters), limits, verdict))
      ensures serviceCounters.Keys == ksCounters.Keys
    {
      hide Increment, CountIn, Counts, Account;
      AccountIs(View(), s, isExit, IsExempt(s), limits, verdict);
      NotCounted(serviceCounters, s);
      NotCounted(ksCounters, s);
      if verdict == Killed {
        return;
      }
      if IsExempt(s) {
        ksCounters := CountIn(ksCounters, s, isExit && s in ksCounters);
        return;
      }
      CountForKillSwitches(s, isExit);
      if verdict == Allowed {
        CountForLimits(s, isExit);
      }
    }

    /** Judges a request and records it. */
    method JudgeAndCount(s: string, isExit: bool) returns (verdict: Verdict)
      requires Valid() && (isExit && !IsExempt(s) ==> s in serviceCounters)
      modifies this`totalRequestCounter, this`totalKsCounter, this`serviceCounters, this`ksCounters, this`log
      ensures Valid()
      ensures log == old(log) + [Asked(s, isExit, IsExempt(s), s in old(serviceCounters), old(LimitsInForce(s)), verdict)]
      ensures verdict == Decide(numOfBuckets, old(log), s, isExit, IsExempt(s), old(LimitsInForce(s)))
      ensures View() == Account(old(View()), log[|log| - 1])
      ensures LimitsInForce(s) == old(LimitsInForce(s)) && serviceCounters.Keys == old(serviceCounters.Keys)
      ensures old(Coherent()) ==> Coherent()
      ensures Judged(numOfBuckets, old(log), s, isExit, IsExempt(s), old(LimitsInForce(s)), verdict)
    {
      hide Judged, Coherent, Balanced, Justified, AgreesExcept, Decide, InWindow, Account, Counts;
      CoherentMeans();
      verdict := Judge(s, isExit);
      ghost var m := Asked(s, isExit, IsExempt(s), s in serviceCounters, LimitsInForce(s), verdict);
      AccountBalances(View(), numOfBuckets, log, m);
      JustifiedNext(numOfBuckets, log, m);
      AccountKeepsLimits(View(), m);
      CountRequest(s, isExit, verdict, LimitsInForce(s));
      log := log + [m];
      StillCoherent(old(TablesNow()), old(View()), m);
    }

    lemma StillCoherent(t: Tables, b: Books, m: Mark)
      requires m.Asked? && b.services.Keys == b.serviceKs.Keys && (m.tracked <==> m.service in b.services)
      requires View() == Account(b, m) && TablesNow() == t
      ensures AgreesExcept(t, b.services, b.serviceKs, None) ==> Coherent()
    {
      if AgreesExcept(t, b.services, b.serviceKs, None) {
        AccountAgrees(t, b, m);
      }
    }

    /** What coherence gives: a live service's limit is its entry or the default, its kill switch's the factor times that. */
    lemma LiveLimits(s: string)
      requires Valid() && Coherent() && s in serviceCounters
      ensures var limit := if s in rpsLimitForServiceName then rpsLimitForServiceName[s] else defaultServiceRpsLimit;
        && LimitsInForce(s) == Limits(totalRpsLimit, totalRpsLimit + killSwitchBuffer, limit, limit * serviceKillSwitchFactor)
    {
      hide Balanced, Justified;
      assert Agrees(TablesNow(), serviceCounters[s].rpsLimit, ksCounters[s].rpsLimit, s);
    }

    lemma CoherentMeans()
      ensures Coherent() <==> AgreesExcept(TablesNow(), View().services, View().serviceKs, None)
    {}

    /** `rateLimit`: the verdict is the one the history calls for, and no live limit changes. */
    method RateLimit(s: string, isExit: bool) returns (verdict: Verdict)
      requires Valid() && s != ""
      modifies this`totalRequestCounter, this`totalKsCounter, this`serviceCounters, this`ksCounters, this`log
      ensures Valid()
      ensures log == old(log) + [Asked(s, isExit, s in exemptServices, s in serviceCounters, LimitsInForce(s), verdict)]
      ensures verdict == Decide(numOfBuckets, old(log), s, isExit, IsExempt(s), LimitsInForce(s))
      ensures serviceCounters.Keys == old(serviceCounters.Keys) + if isExit && s !in exemptServices then {s} else {}
      ensures old(Coherent()) ==> Coherent()
      ensures Judged(numOfBuckets, old(log), s, isExit, s in exemptServices, LimitsInForce(s), verdict)
    {
      hide Judged, Balanced, Justified, AgreesExcept, Decide, Account;
      if isExit {
        PrepareCounters(s);
      }
      verdict := JudgeAndCount(s, isExit);
    }

    // ----- changing the limits -----

    /** `limit` is missing for the source's 'default'. */
    method UpdateServiceLimit(name: string, limit: Option<real>)
      requires Valid()
      modifies this`rpsLimitForServiceName, this`serviceCounters, this`ksCounters
      ensures Valid() && serviceCounters.Keys == old(serviceCounters.Keys) == ksCounters.Keys
      ensures rpsLimitForServiceName == WithLimit(old(rpsLimitForServiceName), name, limit)
      ensures serviceCounters == SetLimit(old(serviceCounters), name, LimitFor(TablesNow(), name))
      ensures ksCounters == SetLimit(old(ksCounters), name,
                                     KillSwitchLimit(LimitFor(TablesNow(), name), serviceKillSwitchFactor))
      ensures old(AgreesExcept(TablesNow(), serviceCounters, ksCounters, Some(name))) ==> Coherent()
      ensures name in rpsLimitForServiceName <==> limit.Some?
      ensures limit.Some? ==> rpsLimitForServiceName[name] == limit.value
      ensures rpsLimitForServiceName - {name} == old(rpsLimitForServiceName) - {name}
    {
      hide Balanced, Justified, AgreesExcept, SetLimit, KillSwitchLimit, Agrees, WithLimit, LimitFor, Shows,
        OthersSilent;
      ghost var tables, books := TablesNow(), View();
      var rps := UpdateTable(name, limit);
      SetLimitBalances(books, numOfBuckets, log, name, rps, KillSwitchLimit(rps, serviceKillSwitchFactor));
      if AgreesExcept(tables, books.services, books.serviceKs, Some(name)) {
        SetLimitAgrees(tables, TablesNow(), books.services, books.serviceKs, name);
      }
      UpdateCounters(name, rps);
    }

    method UpdateTable(name: string, limit: Option<real>) returns (rps: real)
      modifies this`rpsLimitForServiceName
      ensures rpsLimitForServiceName == WithLimit(old(rpsLimitForServiceName), name, limit)
      ensures rps == LimitFor(TablesNow(), name)
      ensures forall s :: s != name ==> LimitFor(TablesNow(), s) == LimitFor(old(TablesNow()), s)
      ensures name in rpsLimitForServiceName <==> limit.Some?
      ensures limit.Some? ==> rpsLimitForServiceName[name] == limit.value
      ensures rpsLimitForServiceName - {name} == old(rpsLimitForServiceName) - {name}
    {
      if limit.None? {
        rpsLimitForServiceName := rpsLimitForServiceName - {name};
        rps := defaultServiceRpsLimit;
      } else {
        rpsLimitForServiceName := rpsLimitForServiceName[name := limit.value];
        rps := limit.value;
      }
    }

    method UpdateCounters(name: string, rps: real)
      requires serviceCounters.Keys == ksCounters.Keys
      modifies this`serviceCounters, this`ksCounters
      ensures serviceCounters == SetLimit(old(serviceCounters), name, rps)
      ensures ksCounters == SetLimit(old(ksCounters), name, KillSwitchLimit(rps, serviceKillSwitchFactor))
      ensures serviceCounters.Keys == old(serviceCounters.Keys) == ksCounters.Keys
    {
      if name in serviceCounters {
        serviceCounters := serviceCounters[name := serviceCounters[name].(rpsLimit := rps)];
      }
      if name in ksCounters {
        ksCounters := ksCounters[name := ksCounters[name].(rpsLimit := KillSwitchLimitFor(name))];
      }
    }

    /** A name of the old table is removed or given its new limit. */
    method UpdateOldService(name: string, table: map<string, real>)
      requires Valid()
      modifies this`rpsLimitForServiceName, this`serviceCounters, this`ksCounters
      ensures Valid() && serviceCounters.Keys == old(serviceCounters.Keys)
      ensures rpsLimitForServiceName ==
        if name in table then old(rpsLimitForServiceName)[name := table[name]] else old(rpsLimitForServiceName) - {name}
      ensures old(Coherent()) ==> Coherent()
    {
      hide Balanced, Justified, AgreesExcept, SetLimit;
      if name in table {
        if Coherent() {
          AgreesWithoutException(TablesNow(), serviceCounters, ksCounters, Some(name));
        }
        UpdateServiceLimit(name, Some(table[name]));
      } else {
        ghost var tables := TablesNow();
        rpsLimitForServiceName := rpsLimitForServiceName - {name};
        if AgreesExcept(tables, serviceCounters, ksCounters, None) {
          RemoveEntryAgrees(tables, serviceCounters, ksCounters, name);
        }
        UpdateServiceLimit(name, None);
      }
    }

    /** First pass of the table update, over the old names. */
    method UpdateOldServices(table: map<string, real>)
      requires Valid()
      modifies this`rpsLimitForServiceName, this`serviceCounters, this`ksCounters
      ensures Valid() && serviceCounters.Keys == old(serviceCounters.Keys)
      ensures rpsLimitForServiceName.Keys == old(rpsLimitForServiceName.Keys) * table.Keys
      ensures forall s :: s in rpsLimitForServiceName ==> rpsLimitForServiceName[s] == table[s]
      ensures old(Coherent()) ==> Coherent()
    {
      hide Balanced, Justified, AgreesExcept, Valid, Coherent;
      var todo := rpsLimitForServiceName.Keys;
      while todo != {}
        invariant Valid() && serviceCounters.Keys == old(serviceCounters.Keys)
        invariant todo <= old(rpsLimitForServiceName.Keys)
        invariant rpsLimitForServiceName.Keys == old(rpsLimitForServiceName.Keys) * (table.Keys + todo)
        invariant forall s :: s in rpsLimitForServiceName && s !in todo ==> rpsLimitForServiceName[s] == table[s]
        invariant old(Coherent()) ==> Coherent()
      {
        var name :| name in todo;
        UpdateOldService(name, table);
        todo := todo - {name};
      }
    }

    /** Replaces the whole table, in two passes over the old and the new names. */
    method UpdateRpsLimitForAllServices(table: map<string, real>)
      requires Valid()
      modifies this`rpsLimitForServiceName, this`serviceCounters, this`ksCounters
      ensures Valid() && serviceCounters.Keys == old(serviceCounters.Keys)
      ensures rpsLimitForServiceName == table
      ensures old(Coherent()) ==> Coherent()
    {
      hide Balanced, Justified, AgreesExcept;
      UpdateOldServices(table);
      var todo := table.Keys;
      while todo != {}
        invariant Valid() && serviceCounters.Keys == old(serviceCounters.Keys)
        invariant todo <= table.Keys
        invariant rpsLimitForServiceName.Keys <= table.Keys <= rpsLimitForServiceName.Keys + todo
        invariant forall s :: s in rpsLimitForServiceName ==> rpsLimitForServiceName[s] == table[s]
        invariant old(Coherent()) ==> Coherent()
      {
        var name :| name in todo;
        if name !in rpsLimitForServiceName {
          if Coherent() {
            AgreesWithoutException(TablesNow(), serviceCounters, ksCounters, Some(name));
          }
          UpdateServiceLimit(name, Some(table[name]));
        }
        todo := todo - {name};
      }
    }

    method UpdateTotalLimit(limit: real)
      requires Valid()
      modifies this`totalRpsLimit, this`totalRequestCounter, this`totalKsCounter
      ensures Valid() && totalRpsLimit == limit
      ensures totalRequestCounter == old(totalRequestCounter).(rpsLimit := limit)
      ensures totalKsCounter == old(totalKsCounter).(rpsLimit := limit + killSwitchBuffer)
    {
      totalRpsLimit := limit;
      totalRequestCounter := totalRequestCounter.(rpsLimit := limit);
      totalKsCounter := totalKsCounter.(rpsLimit := totalRpsLimit + killSwitchBuffer);
      LimitsDoNotCount(old(View()), View(), numOfBuckets, log);
    }

    /**
      Changes the default for counters yet to be made. Live counters keep their limit, so the
      tables stay coherent exactly when the default did not change or every live service has
      an entry of its own.
     */
    method UpdateDefaultServiceRpsLimit(limit: real)
      requires Valid()
      modifies this`defaultServiceRpsLimit
      ensures Valid()
      ensures defaultServiceRpsLimit == if limit == 0.0 then DEFAULT_SERVICE_RPS_LIMIT else limit
      ensures old(Coherent()) ==>
        (Coherent() <==>
         (defaultServiceRpsLimit == old(defaultServiceRpsLimit)
          || forall s :: s in serviceCounters ==> s in rpsLimitForServiceName))
    {
      defaultServiceRpsLimit := if limit == 0.0 then DEFAULT_SERVICE_RPS_LIMIT else limit;
    }

    /**
      Changes the factor for counters yet to be made. Live counters keep their limit, so the tables
      stay coherent exactly when the factor did not change or every live service's limit is zero.
     */
    method SetServiceKillSwitchFactor(factor: real)
      requires Valid()
      modifies this`serviceKillSwitchFactor
      ensures View() == old(View())
      ensures old(Coherent()) ==>
        (Coherent() <==>
         (serviceKillSwitchFactor == old(serviceKillSwitchFactor)
          || forall s :: s in serviceCounters ==> serviceCounters[s].rpsLimit == 0.0))
      ensures Valid() && serviceKillSwitchFactor >= MIN_SERVICE_KILL_SWITCH_FACTOR
      ensures factor >= MIN_SERVICE_KILL_SWITCH_FACTOR ==> serviceKillSwitchFactor == factor
      ensures factor == 0.0 ==> serviceKillSwitchFactor == DEFAULT_SERVICE_KILL_SWITCH_FACTOR
      ensures factor != 0.0 && factor < MIN_SERVICE_KILL_SWITCH_FACTOR ==>
        serviceKillSwitchFactor == MIN_SERVICE_KILL_SWITCH_FACTOR
    {
      hide Balanced, Justified, AgreesExcept;
      var chosen := if factor == 0.0 then DEFAULT_SERVICE_KILL_SWITCH_FACTOR else factor;
      serviceKillSwitchFactor := if chosen >= MIN_SERVICE_KILL_SWITCH_FACTOR then chosen
                                 else MIN_SERVICE_KILL_SWITCH_FACTOR;
      if old(Coherent()) {
        FactorAgrees(old(TablesNow()), TablesNow(), serviceCounters, ksCounters);
      }
    }

    method UpdateExemptServices(exempt: seq<string>)
      requires Valid()
      modifies this`exemptServices
      ensures Valid() && exemptServices == exempt && (old(Coherent()) ==> Coherent())
    {
      exemptServices := exempt;
    }
  }

  // ----- every run with a fixed total limit -----

  datatype Event =
    | Request(service: string, exit: bool)
    | Refreshed
    | ServiceLimit(service: string, limit: Option<real>)
    | AllLimits(table: map<string, real>)
    | DefaultLimit(value: real)
    | Factor(factor: real)
    | Exempt(services: seq<string>)

  lemma FixedTotalNext(log: History, m: Mark, limit: real)
    requires FixedTotal(log, limit) && (m.Asked? ==> m.limits.total == limit)
    ensures FixedTotal(log + [m], limit)
  {}

  method Step(limiter: RateLimiter, e: Event)
    requires limiter.Valid() && FixedTotal(limiter.log, limiter.totalRpsLimit)
    requires e.Request? ==> e.service != ""
    modifies limiter
    ensures limiter.Valid() && FixedTotal(limiter.log, limiter.totalRpsLimit)
    ensures limiter.totalRpsLimit == old(limiter.totalRpsLimit)
    ensures old(limiter.Coherent()) && !e.DefaultLimit? && !e.Factor? ==> limiter.Coherent()
  {
    hide Balanced, Justified, AgreesExcept, FixedTotal, Decide;
    ghost var log := limiter.log;
    match e
    case Request(s, exit) =>
      var _ := limiter.RateLimit(s, exit);
      FixedTotalNext(log, limiter.log[|log|], limiter.totalRpsLimit);
    case Refreshed =>
      limiter.RefreshAll();
      FixedTotalNext(log, Tick, limiter.totalRpsLimit);
    case ServiceLimit(s, limit) =>
      if limiter.Coherent() {
        AgreesWithoutException(limiter.TablesNow(), limiter.serviceCounters, limiter.ksCounters, Some(s));
      }
      limiter.UpdateServiceLimit(s, limit);
    case AllLimits(table) => limiter.UpdateRpsLimitForAllServices(table);
    case DefaultLimit(limit) => limiter.UpdateDefaultServiceRpsLimit(limit);
    case Factor(factor) => limiter.SetServiceKillSwitchFactor(factor);
    case Exempt(services) => limiter.UpdateExemptServices(services);
  }

  /**
    Any run under a fixed total limit, from the limiter's creation on: the total kill switch is ahead of the
    total limit by exactly the Busy rejections of the window, and a positive limit is never passed by
    more than one request.
   */
  method Play(options: Settings, events: seq<Event>) returns (limiter: RateLimiter)
    requires options.numOfBuckets <= 1000
    requires forall i :: 0 <= i < |events| ==> (events[i].Request? ==> events[i].service != "")
    ensures limiter.Valid()
    ensures limiter.totalKsCounter.rps - limiter.totalRequestCounter.rps ==
      InWindow(limiter.log, BucketsOf(options), Busy)
    ensures TotalOf(options) > 0.0 ==> limiter.totalRequestCounter.rps as real <= TotalOf(options) + 1.0
    ensures limiter.serviceCounters.Keys == limiter.ksCounters.Keys
    ensures forall i :: 0 <= i < |limiter.log| && limiter.log[i].Asked? ==>
      var m, before := limiter.log[i], limiter.log[..i];
      Unpressed(BucketsOf(options), before, m.service, m.exit, m.limits) ==> m.verdict == Allowed
    ensures (forall i :: 0 <= i < |events| ==> !events[i].DefaultLimit? && !events[i].Factor?) ==> limiter.Coherent()
  {
    limiter := new RateLimiter(options);
    for i := 0 to |events|
      invariant fresh(limiter) && limiter.numOfBuckets == BucketsOf(options) && limiter.totalRpsLimit == TotalOf(options)
      invariant limiter.Valid() && FixedTotal(limiter.log, TotalOf(options))
      invariant (forall j :: 0 <= j < i ==> !events[j].DefaultLimit? && !events[j].Factor?) ==> limiter.Coherent()
    {
      hide *;
      Step(limiter, events[i]);
    }
    BusyIsTheDifference(limiter.log, BucketsOf(options));
    forall i | 0 <= i < |limiter.log| && limiter.log[i].Asked? &&
               Unpressed(BucketsOf(options), limiter.log[..i], limiter.log[i].service, limiter.log[i].exit, limiter.log[i].limits)
      ensures limiter.log[i].verdict == Allowed
    {
      UnpressedAreAllowed(BucketsOf(options), limiter.log, i);
    }
    if TotalOf(options) > 0.0 {
      TotalStaysWithinLimit(BucketsOf(options), limiter.log, TotalOf(options));
    }
  }
}
