/**
  The circuit breaker of one caller, service and endpoint (circuits.js).

  The reference model keeps the whole history of the circuit, a list of marks, and
  decides every transition by counting in that history. The class Circuit below keeps
  the source's counters instead, and each of its methods extends the history exactly as
  the reference does. What holds of every run is then proved about histories.
 */
module Circuits {
  import opened Arithmetic
  import opened Collections

  type Positive = n: int | n >= 1 witness 1

  /** `maxErrorRate` and `minRequests` gate tripping; `probation` gates the way back. */
  datatype Config = Config(period: Positive, maxErrorRate: real, minRequests: int, probation: Positive)

  /** Successive readings of the clock; every `timers.now()` consumes one. */
  type Clock = nat -> int

  ghost predicate Monotone(clock: Clock) {
    forall i: nat, j: nat :: i <= j ==> clock(i) <= clock(j)
  }

  datatype Kind = Healthy | Unhealthy | Shorted

  /** What can happen to a circuit. `Pass` marks a request let through, `Good` and `Bad` its outcome. */
  datatype Mark =
    | Enter(kind: Kind, at: int)
    | Roll(at: int)
    | Good
    | Bad
    | Pass

  type History = seq<Mark>

  // ----- reading a history -----

  function KindOf(log: History): Kind {
    if log == [] then Healthy
    else match Last(log) case Enter(k, _) => k case _ => KindOf(Init(log))
  }

  /** When the current state was entered. */
  function StayStart(log: History): int {
    if log == [] then 0
    else match Last(log) case Enter(_, at) => at case _ => StayStart(Init(log))
  }

  /** When the current period began. */
  function PeriodStart(log: History): int {
    if log == [] then 0
    else match Last(log) case Enter(_, at) => at case Roll(at) => at case _ => PeriodStart(Init(log))
  }

  /** Occurrences of `m` since the current period began. */
  function InPeriod(log: History, m: Mark): nat {
    if log == [] || Last(log).Enter? || Last(log).Roll? then 0
    else InPeriod(Init(log), m) + if Last(log) == m then 1 else 0
  }

  /** Occurrences of `m` since the current state was entered. */
  function InStay(log: History, m: Mark): nat {
    if log == [] || Last(log).Enter? then 0
    else InStay(Init(log), m) + if Last(log) == m then 1 else 0
  }

  /** Consecutive healthy outcomes, up to now, of the current stay. */
  function Streak(log: History): nat {
    if log == [] || Last(log).Enter? || Last(log).Bad? then 0
    else Streak(Init(log)) + if Last(log).Good? then 1 else 0
  }

  /** Whether the current period has no trial left. A new state starts without one. */
  function Tried(log: History): bool {
    if log == [] then true
    else match Last(log)
      case Enter(_, _) => true
      case Roll(_) => false
      case Pass => true
      case _ => Tried(Init(log))
  }

  function Entries(log: History): nat {
    if log == [] then 0 else Entries(Init(log)) + if Last(log).Enter? then 1 else 0
  }

  /** The error rate of a period, compared the way JavaScript does: no outcomes, no rate. */
  predicate TooManyErrors(good: nat, bad: nat, rate: real) {
    good + bad > 0 && bad as real / (good + bad) as real > rate
  }

  predicate Tripped(cfg: Config, log: History) {
    && TooManyErrors(InPeriod(log, Good), InPeriod(log, Bad), cfg.maxErrorRate)
    && InStay(log, Good) + InStay(log, Bad) > cfg.minRequests
  }

  /** Whether a period that ends with this history ends the stay as well. */
  predicate Turns(cfg: Config, log: History) {
    if KindOf(log) == Healthy then Tripped(cfg, log) else Streak(log) >= cfg.probation
  }

  // ----- the reference steps -----

  /** A history and the number of clock readings consumed so far. */
  datatype Trace = Trace(log: History, tick: nat)

  function Start(clock: Clock): Trace {
    Trace([Enter(Healthy, clock(0))], 1)
  }

  function NextKind(kind: Kind, shorted: bool): Kind {
    if kind != Healthy then Healthy else if shorted then Shorted else Unhealthy
  }

  /** `setState`: the constructor of the new state reads the clock. */
  function Switch(clock: Clock, shorted: bool, t: Trace): Trace {
    Trace(t.log + [Enter(NextKind(KindOf(t.log), shorted), clock(t.tick))], t.tick + 1)
  }

  predicate PeriodOver(cfg: Config, log: History, now: int) {
    now - PeriodStart(log) >= cfg.period
  }

  function CheckPeriod(cfg: Config, clock: Clock, shorted: bool, t: Trace, now: int): Trace {
    if !PeriodOver(cfg, t.log, now) then t
    else if Turns(cfg, t.log) then Switch(clock, shorted, t)
    else t.(log := t.log + [Roll(now)])
  }

  /** Reads the clock, then checks the period. */
  function CheckNow(cfg: Config, clock: Clock, shorted: bool, t: Trace): Trace {
    CheckPeriod(cfg, clock, shorted, t.(tick := t.tick + 1), clock(t.tick))
  }

  /** Whether a request may pass, asked again of the new state when the check switched. */
  function ShouldRequest(cfg: Config, clock: Clock, shorted: bool, t: Trace): (Trace, bool)
    decreases if Turns(cfg, t.log) then 1 else 0
  {
    var t' := CheckNow(cfg, clock, shorted, t);
    if PeriodOver(cfg, t.log, clock(t.tick)) && Turns(cfg, t.log) then
      ShouldRequest(cfg, clock, shorted, t')
    else
      (t', KindOf(t'.log) != Unhealthy || !Tried(t'.log))
  }

  function OnRequest(cfg: Config, clock: Clock, shorted: bool, t: Trace): Trace {
    var passed := t.(log := t.log + [Pass]);
    if KindOf(t.log) == Healthy then passed else CheckNow(cfg, clock, shorted, passed)
  }

  /** A dispatched request: ask, and if allowed, tell the state that is current by then. */
  function Dispatch(cfg: Config, clock: Clock, shorted: bool, t: Trace): (Trace, bool) {
    var (asked, ok) := ShouldRequest(cfg, clock, shorted, t);
    (if ok then OnRequest(cfg, clock, shorted, asked) else asked, ok)
  }

  function OnHealthy(cfg: Config, clock: Clock, shorted: bool, t: Trace): Trace {
    var counted := t.(log := t.log + [Good]);
    if KindOf(t.log) != Healthy && Streak(counted.log) > cfg.probation then Switch(clock, shorted, counted)
    else CheckNow(cfg, clock, shorted, counted)
  }

  function OnUnhealthy(cfg: Config, clock: Clock, shorted: bool, t: Trace): Trace {
    CheckNow(cfg, clock, shorted, t.(log := t.log + [Bad]))
  }

  /** An error response; only a healthy circuit checks its period after an unhealthy one. */
  function OnError(cfg: Config, clock: Clock, shorted: bool, t: Trace, unhealthy: bool): Trace {
    if !unhealthy then OnHealthy(cfg, clock, shorted, t)
    else if KindOf(t.log) == Healthy then OnUnhealthy(cfg, clock, shorted, t)
    else t.(log := t.log + [Bad])
  }

  datatype Event =
    | Request
    | HealthyResponse
    | UnhealthyResponse
    | ErrorResponse(unhealthy: bool)
    | SetShorted(shorted: bool)

  datatype System = System(trace: Trace, shorted: bool)

  function Next(cfg: Config, clock: Clock, s: System, e: Event): System {
    match e
    case Request => s.(trace := Dispatch(cfg, clock, s.shorted, s.trace).0)
    case HealthyResponse => s.(trace := OnHealthy(cfg, clock, s.shorted, s.trace))
    case UnhealthyResponse => s.(trace := OnUnhealthy(cfg, clock, s.shorted, s.trace))
    case ErrorResponse(unhealthy) => s.(trace := OnError(cfg, clock, s.shorted, s.trace, unhealthy))
    case SetShorted(shorted) => s.(shorted := shorted)
  }

  function Run(cfg: Config, clock: Clock, shorted: bool, events: seq<Event>): System {
    if events == [] then System(Start(clock), shorted)
    else Next(cfg, clock, Run(cfg, clock, shorted, events[..|events| - 1]), events[|events| - 1])
  }

  // ----- at most one transition per call, whatever the clock -----

  lemma FreshStateStays(cfg: Config, clock: Clock, shorted: bool, t: Trace)
    requires !Turns(cfg, t.log)
    ensures Entries(CheckNow(cfg, clock, shorted, t).log) == Entries(t.log)
    ensures !Turns(cfg, CheckNow(cfg, clock, shorted, t).log)
  {
    var t' := CheckNow(cfg, clock, shorted, t);
    if t'.log != t.log {
      AppendMark(t.log, Last(t'.log));
    }
  }

  lemma CheckOnce(cfg: Config, clock: Clock, shorted: bool, t: Trace)
    ensures Entries(t.log) <= Entries(CheckNow(cfg, clock, shorted, t).log) <= Entries(t.log) + 1
    ensures Entries(CheckNow(cfg, clock, shorted, t).log) == Entries(t.log) + 1
      ==> !Turns(cfg, CheckNow(cfg, clock, shorted, t).log)
  {
    var t' := CheckNow(cfg, clock, shorted, t);
    if t'.log != t.log {
      AppendMark(t.log, Last(t'.log));
    }
  }

  /** How the readings of a history change when a mark is appended. */
  lemma AppendMark(log: History, m: Mark)
    ensures Init(log + [m]) == log && Last(log + [m]) == m
    ensures var log' := log + [m];
      && KindOf(log') == (if m.Enter? then m.kind else KindOf(log))
      && StayStart(log') == (if m.Enter? then m.at else StayStart(log))
      && PeriodStart(log') == (if m.Enter? || m.Roll? then m.at else PeriodStart(log))
      && Tried(log') == (if m.Enter? || m.Pass? then true else if m.Roll? then false else Tried(log))
      && Streak(log') == (if m.Enter? || m.Bad? then 0 else Streak(log) + if m.Good? then 1 else 0)
      && Entries(log') == Entries(log) + if m.Enter? then 1 else 0
  {}

  /** And how the counts of one kind of mark change. */
  lemma AppendCounts(log: History, m: Mark, x: Mark)
    requires x == Good || x == Bad || x == Pass
    ensures InPeriod(log + [m], x) == if m.Enter? || m.Roll? then 0 else InPeriod(log, x) + if m == x then 1 else 0
    ensures InStay(log + [m], x) == if m.Enter? then 0 else InStay(log, x) + if m == x then 1 else 0
  {
    Extend(log, m);
  }

  lemma EnterResets(log: History, kind: Kind, at: int)
    ensures var log' := log + [Enter(kind, at)];
      && KindOf(log') == kind && StayStart(log') == PeriodStart(log') == at && Tried(log')
      && InPeriod(log', Good) == InPeriod(log', Bad) == 0
      && InStay(log', Good) == InStay(log', Bad) == InStay(log', Pass) == 0
      && Streak(log') == 0
  {
    AppendMark(log, Enter(kind, at));
    AppendCounts(log, Enter(kind, at), Good);
    AppendCounts(log, Enter(kind, at), Bad);
    AppendCounts(log, Enter(kind, at), Pass);
  }

  /** A state just entered does not end with its first period. */
  lemma NewStateStays(cfg: Config, clock: Clock, shorted: bool, t: Trace)
    requires PeriodOver(cfg, t.log, clock(t.tick)) && Turns(cfg, t.log)
    ensures !Turns(cfg, CheckNow(cfg, clock, shorted, t).log)
    ensures Entries(CheckNow(cfg, clock, shorted, t).log) == Entries(t.log) + 1
  {
    var m := Enter(NextKind(KindOf(t.log), shorted), clock(t.tick + 1));
    EnterResets(t.log, m.kind, m.at);
    AppendMark(t.log, m);
  }

  lemma AskOnce(cfg: Config, clock: Clock, shorted: bool, t: Trace)
    ensures var t' := ShouldRequest(cfg, clock, shorted, t).0;
      && Entries(t.log) <= Entries(t'.log) <= Entries(t.log) + 1
      && (Entries(t'.log) == Entries(t.log) + 1 ==> !Turns(cfg, t'.log))
  {
    CheckOnce(cfg, clock, shorted, t);
    if PeriodOver(cfg, t.log, clock(t.tick)) && Turns(cfg, t.log) {
      var t' := CheckNow(cfg, clock, shorted, t);
      AppendMark(t.log, Last(t'.log));
      FreshStateStays(cfg, clock, shorted, t');
    }
  }

  lemma DispatchOnce(cfg: Config, clock: Clock, shorted: bool, t: Trace)
    ensures Entries(t.log) <= Entries(Dispatch(cfg, clock, shorted, t).0.log) <= Entries(t.log) + 1
  {
    AskOnce(cfg, clock, shorted, t);
    var (t', ok) := ShouldRequest(cfg, clock, shorted, t);
    AppendMark(t'.log, Pass);
    if ok && KindOf(t'.log) != Healthy {
      var passed := t'.(log := t'.log + [Pass]);
      CheckOnce(cfg, clock, shorted, passed);
      if !Turns(cfg, t'.log) {
        FreshStateStays(cfg, clock, shorted, passed);
      }
    }
  }

  lemma OutcomeOnce(cfg: Config, clock: Clock, shorted: bool, t: Trace, m: Mark)
    requires m == Good || m == Bad
    ensures var counted := t.(log := t.log + [m]);
      && Entries(counted.log) == Entries(t.log)
      && Entries(Switch(clock, shorted, counted).log) == Entries(t.log) + 1
      && Entries(t.log) <= Entries(CheckNow(cfg, clock, shorted, counted).log) <= Entries(t.log) + 1
  {
    var counted := t.(log := t.log + [m]);
    AppendMark(t.log, m);
    CheckOnce(cfg, clock, shorted, counted);
    AppendMark(counted.log, Last(Switch(clock, shorted, counted).log));
  }

  /** The recursion through the new state is at most one level deep: no event enters two states. */
  lemma AtMostOneTransition(cfg: Config, clock: Clock, s: System, e: Event)
    ensures Entries(s.trace.log)
      <= Entries(Next(cfg, clock, s, e).trace.log)
      <= Entries(s.trace.log) + 1
  {
    hide Entries, KindOf, Streak, Turns, PeriodOver, CheckNow, Switch, Dispatch;
    match e
    case Request => DispatchOnce(cfg, clock, s.shorted, s.trace);
    case HealthyResponse => OutcomeOnce(cfg, clock, s.shorted, s.trace, Good);
    case UnhealthyResponse => OutcomeOnce(cfg, clock, s.shorted, s.trace, Bad);
    case ErrorResponse(unhealthy) =>
      OutcomeOnce(cfg, clock, s.shorted, s.trace, if unhealthy then Bad else Good);
    case SetShorted(_) =>
  }

  // ----- every mark of every history is justified by what precedes it -----

  /** With `more` trials added, the trials of the stay are paid for by whole periods. */
  ghost predicate Paid(cfg: Config, log: History, more: nat) {
    (InStay(log, Pass) + more) * cfg.period <= PeriodStart(log) - StayStart(log)
  }

  /** Why a mark may follow a history. */
  ghost predicate Justified(cfg: Config, before: History, m: Mark) {
    match m
    case Enter(Healthy, at) =>
      before == [] ||
      (KindOf(before) != Healthy &&
       (Streak(before) == cfg.probation + 1 || (PeriodOver(cfg, before, at) && Streak(before) >= cfg.probation)))
    case Enter(_, at) =>
      KindOf(before) == Healthy && PeriodOver(cfg, before, at) && Tripped(cfg, before)
    case Roll(at) =>
      PeriodOver(cfg, before, at) && !Turns(cfg, before)
    case Pass =>
      KindOf(before) == Unhealthy ==>
        !Tried(before) && Paid(cfg, before, 1)
    case Good =>
      KindOf(before) != Healthy ==> Streak(before) <= cfg.probation
    case Bad => true
  }

  ghost predicate AllJustified(cfg: Config, log: History) {
    log == [] || (AllJustified(cfg, Init(log)) && Justified(cfg, Init(log), Last(log)))
  }

  ghost predicate Sound(cfg: Config, clock: Clock, t: Trace) {
    && t.log != []
    && AllJustified(cfg, t.log)
    && (KindOf(t.log) == Unhealthy ==> Paid(cfg, t.log, if Tried(t.log) then 0 else 1))
    && StayStart(t.log) <= PeriodStart(t.log) <= clock(t.tick)
    && (KindOf(t.log) != Healthy ==> Streak(t.log) <= cfg.probation)
  }

  lemma SwitchIsSound(cfg: Config, clock: Clock, shorted: bool, t: Trace)
    requires Monotone(clock) && t.log != [] && AllJustified(cfg, t.log)
    requires Justified(cfg, t.log, Last(Switch(clock, shorted, t).log))
    ensures Sound(cfg, clock, Switch(clock, shorted, t))
  {
    var m := Last(Switch(clock, shorted, t).log);
    AppendMark(t.log, m);
    EnterResets(t.log, m.kind, m.at);
  }

  lemma RollIsSound(cfg: Config, clock: Clock, t: Trace, now: int)
    requires Sound(cfg, clock, t) && PeriodOver(cfg, t.log, now) && !Turns(cfg, t.log) && now <= clock(t.tick)
    ensures Sound(cfg, clock, t.(log := t.log + [Roll(now)]))
  {
    var log' := t.log + [Roll(now)];
    AppendMark(t.log, Roll(now));
    var n := InStay(t.log, Pass);
    assert InStay(log', Pass) == n;
    if KindOf(t.log) == Unhealthy {
      Distribute(n, 1, cfg.period);
      assert Paid(cfg, log', 1);
    }
  }

  lemma CheckIsSound(cfg: Config, clock: Clock, shorted: bool, t: Trace)
    requires Monotone(clock) && Sound(cfg, clock, t)
    ensures Sound(cfg, clock, CheckNow(cfg, clock, shorted, t))
  {
    hide KindOf, PeriodStart, StayStart, InPeriod, InStay, Tried, AllJustified, Paid;
    var now := clock(t.tick);
    var read := t.(tick := t.tick + 1);
    if PeriodOver(cfg, t.log, now) {
      if Turns(cfg, t.log) {
        SwitchIsSound(cfg, clock, shorted, read);
      } else {
        RollIsSound(cfg, clock, read, now);
      }
    }
  }

  lemma AskIsSound(cfg: Config, clock: Clock, shorted: bool, t: Trace)
    requires Monotone(clock) && Sound(cfg, clock, t)
    ensures Sound(cfg, clock, ShouldRequest(cfg, clock, shorted, t).0)
    decreases if Turns(cfg, t.log) then 1 else 0
  {
    CheckIsSound(cfg, clock, shorted, t);
    if PeriodOver(cfg, t.log, clock(t.tick)) && Turns(cfg, t.log) {
      var t' := CheckNow(cfg, clock, shorted, t);
      AppendMark(t.log, Last(t'.log));
      AskIsSound(cfg, clock, shorted, t');
    }
  }

  lemma AskAnswers(cfg: Config, clock: Clock, shorted: bool, t: Trace)
    ensures var (t', ok) := ShouldRequest(cfg, clock, shorted, t);
      ok <==> KindOf(t'.log) != Unhealthy || !Tried(t'.log)
    decreases if Turns(cfg, t.log) then 1 else 0
  {
    if PeriodOver(cfg, t.log, clock(t.tick)) && Turns(cfg, t.log) {
      var t' := CheckNow(cfg, clock, shorted, t);
      AppendMark(t.log, Last(t'.log));
      AskAnswers(cfg, clock, shorted, t');
    }
  }

  lemma PassIsSound(cfg: Config, clock: Clock, t: Trace)
    requires Sound(cfg, clock, t) && (KindOf(t.log) == Unhealthy ==> !Tried(t.log))
    ensures Sound(cfg, clock, t.(log := t.log + [Pass]))
  {
    AppendMark(t.log, Pass);
  }

  lemma OutcomeIsSound(cfg: Config, clock: Clock, t: Trace, m: Mark)
    requires Sound(cfg, clock, t) && (m == Good || m == Bad)
    requires m == Good && KindOf(t.log) != Healthy ==> Streak(t.log) < cfg.probation
    ensures Sound(cfg, clock, t.(log := t.log + [m]))
  {
    AppendMark(t.log, m);
  }

  lemma OnHealthyIsSound(cfg: Config, clock: Clock, shorted: bool, t: Trace)
    requires Monotone(clock) && Sound(cfg, clock, t)
    ensures Sound(cfg, clock, OnHealthy(cfg, clock, shorted, t))
  {
    var counted := t.(log := t.log + [Good]);
    AppendMark(t.log, Good);
    if KindOf(t.log) != Healthy && Streak(counted.log) > cfg.probation {
      SwitchIsSound(cfg, clock, shorted, counted);
    } else {
      OutcomeIsSound(cfg, clock, t, Good);
      CheckIsSound(cfg, clock, shorted, counted);
    }
  }

  lemma NextIsSound(cfg: Config, clock: Clock, s: System, e: Event)
    requires Monotone(clock) && Sound(cfg, clock, s.trace)
    ensures Sound(cfg, clock, Next(cfg, clock, s, e).trace)
  {
    var t := s.trace;
    match e
    case Request =>
      AskIsSound(cfg, clock, s.shorted, t);
      AskAnswers(cfg, clock, s.shorted, t);
      var (t', ok) := ShouldRequest(cfg, clock, s.shorted, t);
      if ok {
        PassIsSound(cfg, clock, t');
        if KindOf(t'.log) != Healthy {
          CheckIsSound(cfg, clock, s.shorted, t'.(log := t'.log + [Pass]));
        }
      }
    case HealthyResponse =>
      OnHealthyIsSound(cfg, clock, s.shorted, t);
    case UnhealthyResponse =>
      OutcomeIsSound(cfg, clock, t, Bad);
      CheckIsSound(cfg, clock, s.shorted, t.(log := t.log + [Bad]));
    case ErrorResponse(unhealthy) =>
      if !unhealthy {
        OnHealthyIsSound(cfg, clock, s.shorted, t);
      } else {
        OutcomeIsSound(cfg, clock, t, Bad);
        CheckIsSound(cfg, clock, s.shorted, t.(log := t.log + [Bad]));
      }
    case SetShorted(_) =>
  }

  lemma {:induction false} RunIsSound(cfg: Config, clock: Clock, shorted: bool, events: seq<Event>)
    requires Monotone(clock)
    ensures Sound(cfg, clock, Run(cfg, clock, shorted, events).trace)
  {
    if events == [] {
      var log: History := [Enter(Healthy, clock(0))];
      assert log == [] + log;
      EnterResets([], Healthy, clock(0));
      assert AllJustified(cfg, []) && Justified(cfg, [], log[0]);
      assert Init(log) == [] && AllJustified(cfg, log);
    } else {
      RunIsSound(cfg, clock, shorted, events[..|events| - 1]);
      NextIsSound(cfg, clock, Run(cfg, clock, shorted, events[..|events| - 1]), events[|events| - 1]);
    }
  }

  lemma {:induction false} JustifiedAt(cfg: Config, log: History, i: nat)
    requires AllJustified(cfg, log) && i < |log|
    ensures AllJustified(cfg, log[..i]) && Justified(cfg, log[..i], log[i])
  {
    if i < |log| - 1 {
      JustifiedAt(cfg, Init(log), i);
      assert Init(log)[..i] == log[..i];
    }
  }

  // ----- the theorems, over every run -----

  /**
    Probe bound: while a circuit stays Unhealthy, the requests let through since it became so
    number at most one per whole period elapsed, for every monotone clock and every
    order of responses.
   */
  lemma ProbeBound(cfg: Config, clock: Clock, shorted: bool, events: seq<Event>)
    requires Monotone(clock)
    ensures var t := Run(cfg, clock, shorted, events).trace;
      KindOf(t.log) == Unhealthy ==>
        InStay(t.log, Pass) <= (clock(t.tick) - StayStart(t.log)) / cfg.period
  {
    hide Run, Sound, KindOf, InStay, StayStart;
    RunIsSound(cfg, clock, shorted, events);
    var t := Run(cfg, clock, shorted, events).trace;
    if KindOf(t.log) == Unhealthy {
      SoundBound(cfg, clock, t);
    }
  }

  lemma SoundBound(cfg: Config, clock: Clock, t: Trace)
    requires Sound(cfg, clock, t) && KindOf(t.log) == Unhealthy
    ensures InStay(t.log, Pass) <= (clock(t.tick) - StayStart(t.log)) / cfg.period
  {
    hide AllJustified, KindOf, InStay, StayStart, PeriodStart, Tried, Streak, Paid;
    PaidBound(cfg, t.log, if Tried(t.log) then 0 else 1, clock(t.tick));
  }

  lemma PaidBound(cfg: Config, log: History, more: nat, now: int)
    requires Paid(cfg, log, more) && PeriodStart(log) <= now
    ensures InStay(log, Pass) <= (now - StayStart(log)) / cfg.period
  {
    hide InStay, StayStart, PeriodStart;
    var n := InStay(log, Pass);
    ScaleAtMost(n, n + more, cfg.period);
    AtMostQuotient(n, now - StayStart(log), cfg.period);
  }

  /** The k-th request let through in an unhealthy stay falls in a period begun k periods after it started. */
  lemma ProbesAreSpaced(cfg: Config, clock: Clock, shorted: bool, events: seq<Event>, log: History, i: nat)
    requires Monotone(clock) && log == Run(cfg, clock, shorted, events).trace.log
    requires i < |log| && log[i] == Pass && KindOf(log[..i]) == Unhealthy
    ensures Paid(cfg, log[..i], 1)
  {
    RunIsSound(cfg, clock, shorted, events);
    JustifiedAt(cfg, log, i);
  }

  /**
    Tripping is exact: where the history of a healthy circuit has a period end, the circuit trips
    if and only if the outcomes since the previous period end exceed the error rate and the
    outcomes since it became healthy exceed the minimum.
   */
  lemma TripsExactly(cfg: Config, clock: Clock, shorted: bool, events: seq<Event>, log: History, i: nat)
    requires Monotone(clock) && log == Run(cfg, clock, shorted, events).trace.log
    requires 0 < i < |log| && KindOf(log[..i]) == Healthy && (log[i].Enter? || log[i].Roll?)
    ensures log[i].at - PeriodStart(log[..i]) >= cfg.period
    ensures log[i].Enter? <==>
      && InPeriod(log[..i], Bad) as real >
         cfg.maxErrorRate * (InPeriod(log[..i], Good) + InPeriod(log[..i], Bad)) as real
      && InStay(log[..i], Good) + InStay(log[..i], Bad) > cfg.minRequests
    ensures log[i].Enter? ==> log[i].kind != Healthy
  {
    hide KindOf, PeriodStart, InPeriod, InStay, Run, Justified, AllJustified;
    SoundRun(cfg, clock, shorted, events);
    JustifiedAt(cfg, log, i);
    HealthyRollover(cfg, log[..i], log[i]);
  }

  lemma SoundRun(cfg: Config, clock: Clock, shorted: bool, events: seq<Event>)
    requires Monotone(clock)
    ensures AllJustified(cfg, Run(cfg, clock, shorted, events).trace.log)
  {
    hide AllJustified, Run;
    RunIsSound(cfg, clock, shorted, events);
  }

  lemma HealthyRollover(cfg: Config, before: History, m: Mark)
    requires before != [] && Justified(cfg, before, m) && KindOf(before) == Healthy && (m.Enter? || m.Roll?)
    ensures m.at - PeriodStart(before) >= cfg.period
    ensures m.Enter? <==> Errs(cfg, before)
    ensures m.Enter? ==> m.kind != Healthy
  {
    hide KindOf, PeriodStart, InPeriod, InStay, Streak, Tried;
    TooManyErrorsMeans(InPeriod(before, Good), InPeriod(before, Bad), cfg.maxErrorRate);
  }

  /** The way back: never before `probation` consecutive healthy outcomes, always by one more. */
  lemma RecoversExactly(cfg: Config, clock: Clock, shorted: bool, events: seq<Event>)
    requires Monotone(clock)
    ensures var log := Run(cfg, clock, shorted, events).trace.log;
      && (forall i :: 0 < i < |log| && log[i].Enter? && log[i].kind == Healthy ==>
            KindOf(log[..i]) != Healthy && cfg.probation <= Streak(log[..i]) <= cfg.probation + 1)
      && (KindOf(log) != Healthy ==> Streak(log) <= cfg.probation)
      && (forall i :: 0 < i < |log| && KindOf(log[..i]) != Healthy && log[i].Roll? ==>
            Streak(log[..i]) < cfg.probation)
  {
    RunIsSound(cfg, clock, shorted, events);
    var log := Run(cfg, clock, shorted, events).trace.log;
    forall i | 0 < i < |log| ensures Justified(cfg, log[..i], log[i]) {
      JustifiedAt(cfg, log, i);
    }
    forall i | 0 < i < |log| && log[i].Enter? && log[i].kind == Healthy
      ensures KindOf(log[..i]) != Healthy && Streak(log[..i]) <= cfg.probation + 1
    {
      JustifiedAt(cfg, log, i);
      StreakAtMost(cfg, log[..i]);
    }
  }

  lemma {:induction false} StreakAtMost(cfg: Config, log: History)
    requires AllJustified(cfg, log) && KindOf(log) != Healthy
    ensures Streak(log) <= cfg.probation + 1
  {
    if !Last(log).Enter? {
      StreakAtMost(cfg, Init(log));
    }
  }

  // ----- which state is entered, and which requests pass -----

  /** The readings of a history that tell its state. */
  ghost predicate GoesTo(shorted: bool, log: History, log': History) {
    && Entries(log) <= Entries(log') <= Entries(log) + 1
    && KindOf(log') ==
       if Entries(log') == Entries(log) then KindOf(log)
       else if KindOf(log) == Unhealthy || KindOf(log) == Shorted then Healthy
       else if shorted then Shorted
       else Unhealthy
  }

  lemma CheckGoes(cfg: Config, clock: Clock, shorted: bool, t: Trace)
    ensures GoesTo(shorted, t.log, CheckNow(cfg, clock, shorted, t).log)
  {
    hide KindOf, Entries, Turns, PeriodOver;
    AppendMark(t.log, Enter(NextKind(KindOf(t.log), shorted), clock(t.tick + 1)));
    AppendMark(t.log, Roll(clock(t.tick)));
  }

  lemma AskGoes(cfg: Config, clock: Clock, shorted: bool, t: Trace)
    ensures GoesTo(shorted, t.log, ShouldRequest(cfg, clock, shorted, t).0.log)
  {
    hide KindOf, Entries, Turns, PeriodOver, CheckNow;
    CheckGoes(cfg, clock, shorted, t);
    if PeriodOver(cfg, t.log, clock(t.tick)) && Turns(cfg, t.log) {
      var t' := CheckNow(cfg, clock, shorted, t);
      NewStateStays(cfg, clock, shorted, t);
      FreshStateStays(cfg, clock, shorted, t');
      CheckGoes(cfg, clock, shorted, t');
    }
  }

  lemma OutcomeGoes(cfg: Config, clock: Clock, shorted: bool, t: Trace, m: Mark)
    requires m == Good || m == Bad || m == Pass
    ensures var counted := t.(log := t.log + [m]);
      && GoesTo(shorted, t.log, counted.log)
      && GoesTo(shorted, t.log, CheckNow(cfg, clock, shorted, counted).log)
      && GoesTo(shorted, t.log, Switch(clock, shorted, counted).log)
  {
    hide KindOf, Entries, CheckNow;
    var counted := t.(log := t.log + [m]);
    AppendMark(t.log, m);
    CheckGoes(cfg, clock, shorted, counted);
    AppendMark(counted.log, Enter(NextKind(KindOf(counted.log), shorted), clock(counted.tick)));
  }

  lemma PassKeepsTurns(cfg: Config, log: History)
    ensures Turns(cfg, log + [Pass]) == Turns(cfg, log)
  {
    AppendMark(log, Pass);
    AppendCounts(log, Pass, Good);
    AppendCounts(log, Pass, Bad);
  }

  lemma DispatchGoes(cfg: Config, clock: Clock, shorted: bool, t: Trace)
    ensures GoesTo(shorted, t.log, Dispatch(cfg, clock, shorted, t).0.log)
  {
    hide KindOf, Entries, CheckNow, Switch, ShouldRequest, Streak, Turns;
    AskGoes(cfg, clock, shorted, t);
    AskOnce(cfg, clock, shorted, t);
    var (t', ok) := ShouldRequest(cfg, clock, shorted, t);
    var passed := t'.(log := t'.log + [Pass]);
    AppendMark(t'.log, Pass);
    CheckGoes(cfg, clock, shorted, passed);
    if Entries(t'.log) > Entries(t.log) {
      PassKeepsTurns(cfg, t'.log);
      FreshStateStays(cfg, clock, shorted, passed);
    }
  }

  /**
    A healthy circuit that leaves its state becomes shorted exactly when it is marked so at that event, and unhealthy
    otherwise; the other states lead back to healthy; and the state changes in no other way.
   */
  lemma EntersRightState(cfg: Config, clock: Clock, s: System, e: Event)
    ensures GoesTo(s.shorted, s.trace.log, Next(cfg, clock, s, e).trace.log)
  {
    hide KindOf, Entries, CheckNow, Switch, Dispatch, Streak;
    var t := s.trace;
    match e
    case Request =>
      DispatchGoes(cfg, clock, s.shorted, t);
    case HealthyResponse => OutcomeGoes(cfg, clock, s.shorted, t, Good);
    case UnhealthyResponse => OutcomeGoes(cfg, clock, s.shorted, t, Bad);
    case ErrorResponse(unhealthy) => OutcomeGoes(cfg, clock, s.shorted, t, if unhealthy then Bad else Good);
    case SetShorted(_) =>
  }

  /** The mark in force is the latest one set. */
  function InForce(shorted: bool, events: seq<Event>): bool {
    if events == [] then shorted
    else if Last(events).SetShorted? then Last(events).shorted
    else InForce(shorted, Init(events))
  }

  lemma {:induction false} RunShorted(cfg: Config, clock: Clock, shorted: bool, events: seq<Event>)
    ensures Run(cfg, clock, shorted, events).shorted == InForce(shorted, events)
  {
    hide KindOf, CheckNow, Dispatch, OnHealthy, OnUnhealthy, OnError;
    if events != [] {
      RunShorted(cfg, clock, shorted, Init(events));
    }
  }

  /** In every run, and at every event of it. */
  lemma RunEntersRightState(cfg: Config, clock: Clock, shorted: bool, events: seq<Event>, e: Event)
    ensures GoesTo(InForce(shorted, events), Run(cfg, clock, shorted, events).trace.log,
                   Run(cfg, clock, shorted, events + [e]).trace.log)
  {
    hide GoesTo, Next;
    RunShorted(cfg, clock, shorted, events);
    EntersRightState(cfg, clock, Run(cfg, clock, shorted, events), e);
    assert (events + [e])[..|events|] == events;
  }

  /** A circuit that is never marked as shorted is healthy or unhealthy at every point of its run. */
  lemma {:induction false} NeverShorted(cfg: Config, clock: Clock, events: seq<Event>)
    requires forall i :: 0 <= i < |events| ==> events[i] != SetShorted(true)
    ensures KindOf(Run(cfg, clock, false, events).trace.log) != Shorted
    ensures !InForce(false, events)
  {
    hide Next, Entries;
    if events == [] {
      AppendMark([], Enter(Healthy, clock(0)));
    } else {
      var before, e := Init(events), Last(events);
      assert forall i :: 0 <= i < |before| ==> before[i] == events[i];
      NeverShorted(cfg, clock, before);
      assert before + [e] == events && events[|events| - 1] == e;
      RunEntersRightState(cfg, clock, false, before, e);
    }
  }

  /** The error rate, without the division. */
  lemma TooManyErrorsMeans(good: nat, bad: nat, rate: real)
    ensures TooManyErrors(good, bad, rate) <==> bad as real > rate * (good + bad) as real
  {
    var total := (good + bad) as real;
    if good + bad > 0 {
      assert bad as real / total * total == bad as real;
      if bad as real / total > rate {
        assert (bad as real / total - rate) * total > 0.0;
      }
      if bad as real > rate * total {
        assert (bad as real / total - rate) * total > 0.0;
      }
    }
  }

  /** What the new period of a healthy circuit is decided by. */
  ghost predicate Errs(cfg: Config, log: History) {
    && InPeriod(log, Bad) as real > cfg.maxErrorRate * (InPeriod(log, Good) + InPeriod(log, Bad)) as real
    && InStay(log, Good) + InStay(log, Bad) > cfg.minRequests
  }

  /** A state does not end with its first period. */
  lemma FreshTurns(cfg: Config, log: History, kind: Kind, at: int)
    ensures !Turns(cfg, log + [Enter(kind, at)])
  {
    EnterResets(log, kind, at);
  }

  /**
    Which requests pass. A shorted circuit lets all of them through. An unhealthy one refuses exactly when its
    period is not over and has no trial left. A healthy one refuses exactly the request at which it becomes
    unhealthy, unless a whole period goes by between two readings of the clock.
   */
  lemma AdmitsExactly(cfg: Config, clock: Clock, shorted: bool, t: Trace)
    ensures Dispatch(cfg, clock, shorted, t).1 <==>
      match KindOf(t.log)
      case Shorted => true
      case Unhealthy => clock(t.tick) - PeriodStart(t.log) >= cfg.period || !Tried(t.log)
      case Healthy =>
        || clock(t.tick) - PeriodStart(t.log) < cfg.period || !Errs(cfg, t.log)
        || shorted || clock(t.tick + 2) - clock(t.tick + 1) >= cfg.period
  {
    hide KindOf, PeriodStart, Tried, InPeriod, InStay, Streak, Errs, TooManyErrors, ShouldRequest, Turns;
    TurnsMeans(cfg, t.log);
    if clock(t.tick) - PeriodStart(t.log) >= cfg.period && Turns(cfg, t.log) {
      AskSwitches(cfg, clock, shorted, t);
    } else {
      AskStays(cfg, clock, shorted, t);
    }
  }

  lemma TurnsMeans(cfg: Config, log: History)
    ensures KindOf(log) == Healthy ==> (Turns(cfg, log) <==> Errs(cfg, log))
  {
    hide KindOf, InPeriod, InStay, Streak;
    TooManyErrorsMeans(InPeriod(log, Good), InPeriod(log, Bad), cfg.maxErrorRate);
  }

  /** While no state is left, a new period gives the trial back. */
  lemma AskStays(cfg: Config, clock: Clock, shorted: bool, t: Trace)
    requires !(clock(t.tick) - PeriodStart(t.log) >= cfg.period && Turns(cfg, t.log))
    ensures ShouldRequest(cfg, clock, shorted, t).1 <==>
      KindOf(t.log) != Unhealthy || clock(t.tick) - PeriodStart(t.log) >= cfg.period || !Tried(t.log)
  {
    hide KindOf, PeriodStart, Tried, Turns;
    AppendMark(t.log, Roll(clock(t.tick)));
  }

  /** When a state is left, the new one answers. */
  lemma AskSwitches(cfg: Config, clock: Clock, shorted: bool, t: Trace)
    requires clock(t.tick) - PeriodStart(t.log) >= cfg.period && Turns(cfg, t.log)
    ensures ShouldRequest(cfg, clock, shorted, t).1 <==>
      KindOf(t.log) != Healthy || shorted || clock(t.tick + 2) - clock(t.tick + 1) >= cfg.period
  {
    hide KindOf, PeriodStart, Tried, Turns;
    var m := Enter(NextKind(KindOf(t.log), shorted), clock(t.tick + 1));
    AppendMark(t.log, m);
    FreshTurns(cfg, t.log, m.kind, m.at);
    AskStays(cfg, clock, shorted, Trace(t.log + [m], t.tick + 2));
  }

  /** When a period is checked: a mark is left exactly when a whole period is over. */
  lemma ChecksExactly(cfg: Config, clock: Clock, shorted: bool, t: Trace)
    ensures CheckNow(cfg, clock, shorted, t).log == t.log <==> clock(t.tick) - PeriodStart(t.log) < cfg.period
    ensures clock(t.tick) - PeriodStart(t.log) >= cfg.period ==>
      || PeriodStart(CheckNow(cfg, clock, shorted, t).log) == clock(t.tick)
      || PeriodStart(CheckNow(cfg, clock, shorted, t).log) == clock(t.tick + 1)
  {
    hide KindOf, Turns;
    AppendMark(t.log, Enter(NextKind(KindOf(t.log), shorted), clock(t.tick + 1)));
    AppendMark(t.log, Roll(clock(t.tick)));
  }

  /**
    Which healthy outcomes end probation: the one after the last that is asked for, or the last one itself when the
    period is over by then. An unhealthy one never does.
   */
  lemma OutcomesRecover(cfg: Config, clock: Clock, s: System)
    requires KindOf(s.trace.log) != Healthy
    ensures KindOf(Next(cfg, clock, s, HealthyResponse).trace.log) == Healthy <==>
      || Streak(s.trace.log) >= cfg.probation
      || (Streak(s.trace.log) == cfg.probation - 1 && clock(s.trace.tick) - PeriodStart(s.trace.log) >= cfg.period)
    ensures KindOf(Next(cfg, clock, s, UnhealthyResponse).trace.log) == KindOf(s.trace.log)
    ensures KindOf(Next(cfg, clock, s, ErrorResponse(true)).trace.log) == KindOf(s.trace.log)
  {
    hide KindOf, PeriodStart, InPeriod, InStay, Streak, Tried;
    var t := s.trace;
    AppendMark(t.log, Good);
    AppendMark(t.log, Bad);
    AfterOutcome(cfg, clock, s.shorted, t.(log := t.log + [Good]));
    AfterOutcome(cfg, clock, s.shorted, t.(log := t.log + [Bad]));
  }

  lemma AfterOutcome(cfg: Config, clock: Clock, shorted: bool, t: Trace)
    requires KindOf(t.log) != Healthy
    ensures KindOf(CheckNow(cfg, clock, shorted, t).log) == Healthy <==>
      clock(t.tick) - PeriodStart(t.log) >= cfg.period && Streak(t.log) >= cfg.probation
    ensures KindOf(CheckNow(cfg, clock, shorted, t).log) == Healthy || KindOf(CheckNow(cfg, clock, shorted, t).log) == KindOf(t.log)
    ensures KindOf(Switch(clock, shorted, t).log) == Healthy
  {
    hide KindOf, PeriodStart, InPeriod, InStay, Streak, Tried;
    AppendMark(t.log, Enter(Healthy, clock(t.tick + 1)));
    AppendMark(t.log, Enter(Healthy, clock(t.tick)));
    AppendMark(t.log, Roll(clock(t.tick)));
  }

  /** Which outcomes read the clock, to check the period: all but the unhealthy errors of a circuit that is not healthy. */
  lemma OutcomesCheck(cfg: Config, clock: Clock, s: System)
    ensures Next(cfg, clock, s, HealthyResponse).trace.tick > s.trace.tick
    ensures Next(cfg, clock, s, UnhealthyResponse).trace.tick > s.trace.tick
    ensures Next(cfg, clock, s, ErrorResponse(false)) == Next(cfg, clock, s, HealthyResponse)
    ensures KindOf(s.trace.log) == Healthy ==>
      Next(cfg, clock, s, ErrorResponse(true)) == Next(cfg, clock, s, UnhealthyResponse)
    ensures KindOf(s.trace.log) != Healthy ==>
      Next(cfg, clock, s, ErrorResponse(true)) == s.(trace := Trace(s.trace.log + [Bad], s.trace.tick))
  {
    hide KindOf, Turns, PeriodOver, Streak;
  }

  ghost predicate Follows(log: History, log': History) {
    |log| <= |log'| && log'[..|log|] == log
  }

  /** Every event leaves its mark: an outcome its own, a request a pass exactly if it was let through. */
  lemma EventLeavesMark(cfg: Config, clock: Clock, s: System, e: Event)
    ensures var log, log' := s.trace.log, Next(cfg, clock, s, e).trace.log;
      && Follows(log, log')
      && match e
         case Request => Pass in log'[|log|..] <==> Dispatch(cfg, clock, s.shorted, s.trace).1
         case HealthyResponse => |log'| > |log| && log'[|log|] == Good
         case UnhealthyResponse => |log'| > |log| && log'[|log|] == Bad
         case ErrorResponse(unhealthy) => |log'| > |log| && log'[|log|] == if unhealthy then Bad else Good
         case SetShorted(_) => log' == log
  {
    hide KindOf, PeriodStart, Turns, Tried, Streak, ShouldRequest;
    if e.Request? {
      AskAdds(cfg, clock, s.shorted, s.trace);
      PassIsThere(cfg, clock, s.shorted, ShouldRequest(cfg, clock, s.shorted, s.trace).0, |s.trace.log|);
    }
  }

  lemma PassIsThere(cfg: Config, clock: Clock, shorted: bool, t: Trace, from: nat)
    requires from <= |t.log|
    ensures var log' := OnRequest(cfg, clock, shorted, t).log; Follows(t.log, log') && Pass in log'[from..]
  {
    hide KindOf, PeriodStart, Turns;
    var log' := OnRequest(cfg, clock, shorted, t).log;
    assert log'[from..][|t.log| - from] == Pass;
  }

  /** Asking only rolls periods and enters states. */
  lemma AskAdds(cfg: Config, clock: Clock, shorted: bool, t: Trace)
    ensures var log' := ShouldRequest(cfg, clock, shorted, t).0.log;
      Follows(t.log, log') && Pass !in log'[|t.log|..]
    decreases if Turns(cfg, t.log) then 1 else 0
  {
    hide KindOf, PeriodStart, Tried, Streak;
    if PeriodOver(cfg, t.log, clock(t.tick)) && Turns(cfg, t.log) {
      NewStateStays(cfg, clock, shorted, t);
      AskAdds(cfg, clock, shorted, CheckNow(cfg, clock, shorted, t));
    }
  }

  // ----- what the readings of a history mean -----

  /** A period began at the latest entry or roll; its counts are over what follows. */
  lemma {:induction false} PeriodMeans(log: History, x: Mark) returns (p: nat)
    requires x == Good || x == Bad || x == Pass
    ensures p <= |log| && (p > 0 ==> (log[p - 1].Enter? || log[p - 1].Roll?) && PeriodStart(log) == log[p - 1].at)
    ensures forall j :: p <= j < |log| ==> !log[j].Enter? && !log[j].Roll?
    ensures InPeriod(log, x) == multiset(log[p..])[x]
    ensures p > 0 ==> (Tried(log) <==> log[p - 1].Enter? || Pass in log[p..])
  {
    if log == [] {
      p := 0;
    } else if Last(log).Enter? || Last(log).Roll? {
      p := |log|;
    } else {
      p := PeriodMeans(Init(log), x);
      assert log[p..] == Init(log)[p..] + [Last(log)];
    }
  }

  /** A stay began at the latest entry; its counts are over what follows. */
  lemma {:induction false} StayMeans(log: History, x: Mark) returns (p: nat)
    requires x == Good || x == Bad || x == Pass
    ensures p <= |log| && (p > 0 ==> log[p - 1].Enter? && KindOf(log) == log[p - 1].kind && StayStart(log) == log[p - 1].at)
    ensures forall j :: p <= j < |log| ==> !log[j].Enter?
    ensures InStay(log, x) == multiset(log[p..])[x]
  {
    if log == [] {
      p := 0;
    } else if Last(log).Enter? {
      p := |log|;
    } else {
      p := StayMeans(Init(log), x);
      assert log[p..] == Init(log)[p..] + [Last(log)];
    }
  }

  /** A streak goes back to the latest entry or unhealthy outcome. */
  lemma {:induction false} StreakMeans(log: History) returns (p: nat)
    ensures p <= |log| && (p > 0 ==> log[p - 1].Enter? || log[p - 1].Bad?)
    ensures forall j :: p <= j < |log| ==> !log[j].Enter? && !log[j].Bad?
    ensures Streak(log) == multiset(log[p..])[Good]
  {
    if log == [] {
      p := 0;
    } else if Last(log).Enter? || Last(log).Bad? {
      p := |log|;
    } else {
      p := StreakMeans(Init(log));
      assert log[p..] == Init(log)[p..] + [Last(log)];
    }
  }

  // ----- the object -----

  /** The fields of the current state object and of the circuit that holds it. */
  class Circuit {
    const cfg: Config
    const clock: Clock
    var shorted: bool
    var kind: Kind
    var start: int
    var healthyCount: nat
    var unhealthyCount: nat
    var totalRequests: nat
    var triedThisPeriod: bool
    var tick: nat
    ghost var log: History

    /** The counters are what the history says they are. */
    ghost predicate Valid()
      reads this
    {
      && kind == KindOf(log)
      && start == PeriodStart(log)
      && (kind == Healthy ==>
            && healthyCount == InPeriod(log, Good)
            && unhealthyCount == InPeriod(log, Bad)
            && totalRequests == InStay(log, Good) + InStay(log, Bad))
      && (kind != Healthy ==> healthyCount == Streak(log) && triedThisPeriod == Tried(log))
    }

    ghost function View(): Trace
      reads this
    {
      Trace(log, tick)
    }

    constructor (cfg: Config, clock: Clock, shorted: bool)
      ensures Valid() && View() == Start(clock)
      ensures this.cfg == cfg && this.clock == clock && this.shorted == shorted
    {
      this.cfg, this.clock, this.shorted := cfg, clock, shorted;
      kind, start, tick := Healthy, clock(0), 1;
      healthyCount, unhealthyCount, totalRequests, triedThisPeriod := 0, 0, 0, true;
      log := [Enter(Healthy, clock(0))];
    }

    method Now() returns (now: int)
      modifies this`tick
      ensures now == clock(old(tick)) && tick == old(tick) + 1
    {
      now := clock(tick);
      tick := tick + 1;
    }

    method SetState(next: Kind)
      requires Valid() && next == NextKind(kind, shorted)
      modifies this
      ensures Valid() && shorted == old(shorted)
      ensures View() == Switch(clock, shorted, old(View()))
    {
      hide KindOf, PeriodStart, InPeriod, InStay, Streak, Tried, StayStart;
      var now := Now();
      kind, start := next, now;
      healthyCount, unhealthyCount, totalRequests, triedThisPeriod := 0, 0, 0, true;
      log := log + [Enter(next, now)];
      EnterResets(old(log), next, now);
    }

    /** `onNewPeriod`, for the state the circuit is in. */
    method StartNewPeriod(now: int) returns (switched: bool)
      requires Valid() && PeriodOver(cfg, log, now)
      modifies this
      ensures Valid() && shorted == old(shorted)
      ensures View() == CheckPeriod(cfg, clock, shorted, old(View()), now)
      ensures switched == old(Turns(cfg, log))
    {
      hide KindOf, PeriodStart, InPeriod, InStay, Streak, Tried, Switch;
      if kind == Healthy {
        var total := healthyCount + unhealthyCount;
        switched := total > 0 && unhealthyCount as real / total as real > cfg.maxErrorRate
                    && totalRequests > cfg.minRequests;
        if switched {
          SetState(if shorted then Shorted else Unhealthy);
          return;
        }
        healthyCount, unhealthyCount := 0, 0;
      } else {
        switched := healthyCount >= cfg.probation;
        if switched {
          SetState(Healthy);
          return;
        }
        triedThisPeriod := false;
      }
      start := now;
      log := log + [Roll(now)];
      AppendMark(old(log), Roll(now));
      AppendCounts(old(log), Roll(now), Good);
      AppendCounts(old(log), Roll(now), Bad);
    }

    method Check(now: int) returns (switched: bool)
      requires Valid()
      modifies this
      ensures Valid() && shorted == old(shorted)
      ensures View() == CheckPeriod(cfg, clock, shorted, old(View()), now)
      ensures switched == old(PeriodOver(cfg, log, now) && Turns(cfg, log))
    {
      var elapsed := now - start;
      var remain := cfg.period - elapsed;
      if remain <= 0 {
        switched := StartNewPeriod(now);
      } else {
        switched := false;
      }
    }

    /** Recurses into the new state; the measure says why that stops. */
    method Ask() returns (ok: bool)
      requires Valid()
      modifies this
      ensures Valid() && shorted == old(shorted)
      ensures (View(), ok) == ShouldRequest(cfg, clock, shorted, old(View()))
      decreases if Turns(cfg, log) then 1 else 0
    {
      hide KindOf, PeriodStart, InPeriod, InStay, Streak, Tried, Switch, StayStart, Turns;
      ghost var before := View();
      var now := Now();
      var switched := Check(now);
      if switched {
        NewStateStays(cfg, clock, shorted, before);
        ok := Ask();
        return;
      }
      ok := match kind case Healthy => true case Shorted => true case Unhealthy => !triedThisPeriod;
    }

    method Admit()
      requires Valid()
      modifies this
      ensures Valid() && shorted == old(shorted)
      ensures View() == OnRequest(cfg, clock, shorted, old(View()))
    {
      hide KindOf, PeriodStart, InPeriod, InStay, Streak, Tried, Switch, CheckPeriod, Turns, PeriodOver;
      log := log + [Pass];
      AppendMark(old(log), Pass);
      AppendCounts(old(log), Pass, Good);
      AppendCounts(old(log), Pass, Bad);
      if kind != Healthy {
        triedThisPeriod := true;
        var now := Now();
        var _ := Check(now);
      }
    }

    /** What the dispatch handler does with a request: ask, then tell. */
    method Offer() returns (ok: bool)
      requires Valid()
      modifies this
      ensures Valid() && shorted == old(shorted)
      ensures (View(), ok) == Dispatch(cfg, clock, shorted, old(View()))
    {
      ok := Ask();
      if ok {
        Admit();
      }
    }

    method HealthyOutcome()
      requires Valid()
      modifies this
      ensures Valid() && shorted == old(shorted)
      ensures View() == OnHealthy(cfg, clock, shorted, old(View()))
    {
      hide KindOf, PeriodStart, InPeriod, InStay, Streak, Tried, Switch, CheckPeriod, Turns, PeriodOver;
      log := log + [Good];
      AppendMark(old(log), Good);
      AppendCounts(old(log), Good, Good);
      AppendCounts(old(log), Good, Bad);
      healthyCount := healthyCount + 1;
      if kind == Healthy {
        totalRequests := totalRequests + 1;
      } else if healthyCount > cfg.probation {
        SetState(Healthy);
        return;
      }
      var now := Now();
      var _ := Check(now);
    }

    method UnhealthyOutcome()
      requires Valid()
      modifies this
      ensures Valid() && shorted == old(shorted)
      ensures View() == OnUnhealthy(cfg, clock, shorted, old(View()))
    {
      hide KindOf, PeriodStart, InPeriod, InStay, Streak, Tried, Switch, CheckPeriod, Turns, PeriodOver;
      log := log + [Bad];
      AppendMark(old(log), Bad);
      AppendCounts(old(log), Bad, Good);
      AppendCounts(old(log), Bad, Bad);
      if kind == Healthy {
        totalRequests := totalRequests + 1;
        unhealthyCount := unhealthyCount + 1;
      } else {
        healthyCount := 0;
      }
      var now := Now();
      var _ := Check(now);
    }

    method ErrorOutcome(unhealthy: bool)
      requires Valid()
      modifies this
      ensures Valid() && shorted == old(shorted)
      ensures View() == OnError(cfg, clock, shorted, old(View()), unhealthy)
    {
      hide KindOf, PeriodStart, InPeriod, InStay, Streak, Tried, OnHealthy, OnUnhealthy;
      if !unhealthy {
        HealthyOutcome();
      } else if kind == Healthy {
        UnhealthyOutcome();
      } else {
        log := log + [Bad];
        AppendMark(old(log), Bad);
        healthyCount := 0;
      }
    }

    method SetShorted(shorted: bool)
      requires Valid()
      modifies this`shorted
      ensures Valid() && View() == old(View()) && this.shorted == shorted
    {
      this.shorted := shorted;
    }

    /** Any one event, as the reference takes it. */
    method Take(e: Event)
      requires Valid()
      modifies this
      ensures Valid()
      ensures System(View(), shorted) == Next(cfg, clock, old(System(View(), shorted)), e)
    {
      hide Valid, Dispatch, OnHealthy, OnUnhealthy, OnError;
      match e
      case Request => var _ := Offer();
      case HealthyResponse => HealthyOutcome();
      case UnhealthyResponse => UnhealthyOutcome();
      case ErrorResponse(unhealthy) => ErrorOutcome(unhealthy);
      case SetShorted(value) => SetShorted(value);
    }
  }

  /** A circuit fed any list of events ends where the reference ends. */
  method Drive(cfg: Config, clock: Clock, shorted: bool, events: seq<Event>) returns (circuit: Circuit)
    ensures circuit.Valid()
    ensures System(circuit.View(), circuit.shorted) == Run(cfg, clock, shorted, events)
  {
    hide Circuit.Valid, Next;
    circuit := new Circuit(cfg, clock, shorted);
    for i := 0 to |events|
      invariant circuit.Valid() && circuit.cfg == cfg && circuit.clock == clock && fresh(circuit)
      invariant System(circuit.View(), circuit.shorted) == Run(cfg, clock, shorted, events[..i])
    {
      assert events[..i + 1][..i] == events[..i];
      circuit.Take(events[i]);
    }
    assert events[..|events|] == events;
  }
}
