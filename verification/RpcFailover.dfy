/**
 Fallback and retry of sui-rpc-failover.ts, over every interleaving of concurrent `invoke` calls. An invocation
 runs without interruption between two awaits; each event is one such stretch and carries its clock readings.
 An event that is not due, or whose clock runs backwards, changes nothing.
 */
module RpcFailover {
  import opened JsBasics
  import opened RpcPacing

  datatype Endpoint = Primary | Fallback

  datatype Config = Config(hasFallback: bool, restMs: int, minIntervalMs: int,
                           maxRetries: int, retryBaseMs: nat, retryMaxMs: nat)

  datatype Mode = Mode(active: Endpoint, fallbackUntilMs: Option<int>)

  function SwitchBack(m: Mode, nowMs: int): Mode {
    if m.active.Primary? || m.fallbackUntilMs.None? || nowMs < m.fallbackUntilMs.value then m
    else Mode(Primary, None)
  }

  function SwitchOver(cfg: Config, m: Mode, nowMs: int): Mode {
    if cfg.hasFallback then Mode(Fallback, Some(nowMs + cfg.restMs)) else m
  }

  /** The endpoint that getActiveClient hands out in mode `m`. */
  function Client(cfg: Config, m: Mode): Endpoint {
    if m.active.Fallback? && cfg.hasFallback then Fallback else Primary
  }

  class SuiRpcFailover {
    const cfg: Config
    var active: Endpoint
    var fallbackUntilMs: Option<int>

    function Current(): Mode
      reads this
    { Mode(active, fallbackUntilMs) }

    constructor (cfg: Config)
      ensures this.cfg == cfg && Current() == Mode(Primary, None)
    {
      this.cfg := cfg;
      active, fallbackUntilMs := Primary, None;
    }

    method MaybeSwitchBackToPrimary(nowMs: int)
      modifies this
      ensures Current() == SwitchBack(old(Current()), nowMs)
    {
      if active != Fallback || fallbackUntilMs.None? { return; }
      if nowMs < fallbackUntilMs.value { return; }
      active := Primary;
      fallbackUntilMs := None;
    }

    method SwitchToFallback(nowMs: int)
      modifies this
      ensures Current() == SwitchOver(cfg, old(Current()), nowMs)
    {
      if !cfg.hasFallback { return; }
      active := Fallback;
      fallbackUntilMs := Some(nowMs + cfg.restMs);
    }

    method GetActiveClient(nowMs: int) returns (client: Endpoint)
      modifies this
      ensures Current() == SwitchBack(old(Current()), nowMs)
      ensures client == Client(cfg, Current())
    {
      MaybeSwitchBackToPrimary(nowMs);
      client := if active == Fallback && cfg.hasFallback then Fallback else Primary;
    }
  }

  // ---- interleaved invocations ---------------------------------------------

  datatype Failure = Fatal | RateLimited | Transient

  datatype Phase =
    | Waiting(dueAt: int)
    | Admitted
    | Calling
    | BackingOff(dueAt: int)
    | Returned
    | Thrown(exhausted: bool)

  /** `calls` counts the calls of the caller's function, `sleptMs` the backoff slept. */
  datatype Invocation = Invocation(attempt: nat, phase: Phase, calls: nat, sleptMs: nat)

  datatype Entry = Called(endpoint: Endpoint, at: int) | SwitchedOver(at: int)

  datatype State = State(mode: Mode, lastCallMs: int, clock: int, invocations: map<nat, Invocation>, log: seq<Entry>)

  datatype Event =
    | Begin(i: nat, nowMs: int)
    | Acquired(i: nat, nowMs: int)
    | CallStarted(i: nat, nowMs: int, againMs: int)
    | CallReturned(i: nat, nowMs: int)
    | CallFailed(i: nat, failure: Failure, nowMs: int)
    | Woke(i: nat, nowMs: int)

  function Pow2(n: nat): nat { if n == 0 then 1 else 2 * Pow2(n - 1) }

  function Backoff(cfg: Config, attempt: nat): nat { Min(cfg.retryBaseMs * Pow2(attempt), cfg.retryMaxMs) }

  /** The most that `calls` failed calls may sleep. */
  function BackoffBudget(cfg: Config, calls: nat): nat {
    if calls == 0 then 0 else BackoffBudget(cfg, calls - 1) + Backoff(cfg, calls - 1)
  }

  function Attempt(cfg: Config, s: State, n: nat, calls: nat, sleptMs: nat, nowMs: int): Invocation {
    Invocation(n, if n < cfg.maxRetries then Waiting(DueAt(s.lastCallMs, cfg.minIntervalMs, nowMs)) else Thrown(true),
               calls, sleptMs)
  }

  function Put(s: State, i: nat, v: Invocation): State { s.(invocations := s.invocations[i := v]) }

  function FailedStep(cfg: Config, s: State, i: nat, failure: Failure): State
    requires i in s.invocations
  {
    var v := s.invocations[i];
    if failure.Fatal? then Put(s, i, v.(phase := Thrown(false)))
    else if s.mode.active.Primary? && cfg.hasFallback && failure.RateLimited? then
      var t := s.(mode := SwitchOver(cfg, s.mode, s.clock), log := s.log + [SwitchedOver(s.clock)]);
      Put(t, i, Attempt(cfg, t, v.attempt + 1, v.calls, v.sleptMs, s.clock))
    else
      var backoff := Backoff(cfg, v.attempt);
      Put(s, i, v.(phase := BackingOff(s.clock + backoff), sleptMs := v.sleptMs + backoff))
  }

  function CallStep(cfg: Config, s: State, i: nat, nowMs: int, againMs: int): State
    requires i in s.invocations
  {
    var v := s.invocations[i];
    var mode := SwitchBack(SwitchBack(s.mode, nowMs), againMs);
    Put(s.(mode := mode, clock := againMs, log := s.log + [Called(Client(cfg, mode), againMs)]),
        i, v.(phase := Calling, calls := v.calls + 1))
  }

  function Step(cfg: Config, s: State, e: Event): State {
    if e.nowMs < s.clock then s
    else
      var i, t := e.i, s.(clock := e.nowMs);
      if e.Begin? then
        if i in s.invocations then s else Put(t, i, Attempt(cfg, t, 0, 0, 0, e.nowMs))
      else if i !in s.invocations then s
      else
        var v := s.invocations[i];
        match e
        case Acquired(_, now) =>
          if v.phase.Waiting? && now >= v.phase.dueAt then Put(t.(lastCallMs := now), i, v.(phase := Admitted)) else s
        case CallStarted(_, now, again) =>
          if v.phase.Admitted? && again >= now then CallStep(cfg, t, i, now, again) else s
        case CallReturned(_, _) => if v.phase.Calling? then Put(t, i, v.(phase := Returned)) else s
        case CallFailed(_, failure, _) => if v.phase.Calling? then FailedStep(cfg, t, i, failure) else s
        case Woke(_, now) =>
          if v.phase.BackingOff? && now >= v.phase.dueAt
          then Put(t, i, Attempt(cfg, t, v.attempt + 1, v.calls, v.sleptMs, now)) else s
        case _ => s
  }

  function Run(cfg: Config, s: State, events: seq<Event>): State {
    if events == [] then s else Step(cfg, Run(cfg, s, events[..|events| - 1]), events[|events| - 1])
  }

  function Start(clock: int): State { State(Mode(Primary, None), 0, clock, map[], []) }

  // ---- what every step keeps -----------------------------------------------

  /** Some switch before entry `j` still rests at time `at`. */
  ghost predicate RestingAt(cfg: Config, log: seq<Entry>, j: nat, at: int) {
    exists k :: 0 <= k < j && k < |log| && log[k].SwitchedOver? && at < log[k].at + cfg.restMs
  }

  /** A call goes to the fallback exactly while a switch rests. */
  ghost predicate LogInv(cfg: Config, log: seq<Entry>) {
    forall j :: 0 <= j < |log| && log[j].Called? ==> (log[j].endpoint.Fallback? <==> RestingAt(cfg, log, j, log[j].at))
  }

  ghost predicate ModeInv(cfg: Config, s: State) {
    && (s.mode.active.Fallback? <==> s.mode.fallbackUntilMs.Some?)
    && (s.mode.active.Fallback? ==> cfg.hasFallback)
    && (forall k :: 0 <= k < |s.log| ==> s.log[k].at <= s.clock)
    && (forall k :: 0 <= k < |s.log| && s.log[k].SwitchedOver? ==>
          s.log[k].at + cfg.restMs <= if s.mode.active.Fallback? then s.mode.fallbackUntilMs.value else s.clock)
    && (s.mode.active.Fallback? ==>
          exists k :: 0 <= k < |s.log| && s.log[k].SwitchedOver?
                      && s.log[k].at + cfg.restMs == s.mode.fallbackUntilMs.value)
  }

  ghost predicate InvocationInv(cfg: Config, v: Invocation) {
    && v.calls <= Max(cfg.maxRetries, 0)
    && v.sleptMs <= BackoffBudget(cfg, v.calls)
    && (v.phase.Waiting? || v.phase.Admitted? ==> v.attempt < cfg.maxRetries && v.calls == v.attempt)
    && (v.phase.Calling? ==> v.calls == v.attempt + 1 && v.sleptMs <= BackoffBudget(cfg, v.attempt))
    && (v.phase.BackingOff? ==> v.calls == v.attempt + 1)
    && (v.phase == Thrown(true) ==> v.calls == Max(cfg.maxRetries, 0))
  }

  ghost predicate Inv(cfg: Config, s: State) {
    && LogInv(cfg, s.log) && ModeInv(cfg, s)
    && forall i :: i in s.invocations ==> InvocationInv(cfg, s.invocations[i])
  }

  lemma {:induction false} BudgetGrows(cfg: Config, n: nat, m: nat)
    requires n <= m
    ensures BackoffBudget(cfg, n) <= BackoffBudget(cfg, m)
  {
    if n < m { BudgetGrows(cfg, n, m - 1); }
  }

  lemma LogOneMore(cfg: Config, log: seq<Entry>, e: Entry)
    requires LogInv(cfg, log)
    requires e.Called? ==> (e.endpoint.Fallback? <==> RestingAt(cfg, log, |log|, e.at))
    ensures LogInv(cfg, log + [e])
  {
    var more := log + [e];
    forall j, at | 0 <= j <= |log| ensures RestingAt(cfg, more, j, at) <==> RestingAt(cfg, log, j, at) {
      if RestingAt(cfg, log, j, at) {
        var k :| 0 <= k < j && k < |log| && log[k].SwitchedOver? && at < log[k].at + cfg.restMs;
        assert more[k] == log[k];
      }
    }
  }

  lemma CallKeepsInv(cfg: Config, s: State, i: nat, nowMs: int, againMs: int)
    requires Inv(cfg, s) && s.clock == nowMs <= againMs && i in s.invocations && s.invocations[i].phase.Admitted?
    ensures Inv(cfg, CallStep(cfg, s, i, nowMs, againMs))
  {
    var mode := SwitchBack(SwitchBack(s.mode, nowMs), againMs);
    if mode.active.Fallback? {
      var k :| 0 <= k < |s.log| && s.log[k].SwitchedOver? && s.log[k].at + cfg.restMs == s.mode.fallbackUntilMs.value;
      assert RestingAt(cfg, s.log, |s.log|, againMs);
      assert (s.log + [Called(Client(cfg, mode), againMs)])[k] == s.log[k];
    }
    LogOneMore(cfg, s.log, Called(Client(cfg, mode), againMs));
  }

  lemma FailedKeepsInv(cfg: Config, s: State, i: nat, failure: Failure)
    requires Inv(cfg, s) && i in s.invocations && s.invocations[i].phase.Calling?
    ensures Inv(cfg, FailedStep(cfg, s, i, failure))
  {
    var v := s.invocations[i];
    BudgetGrows(cfg, v.attempt, v.calls);
    LogOneMore(cfg, s.log, SwitchedOver(s.clock));
    assert (s.log + [SwitchedOver(s.clock)])[|s.log|] == SwitchedOver(s.clock);
  }

  lemma TickKeepsInv(cfg: Config, s: State, nowMs: int)
    requires Inv(cfg, s) && nowMs >= s.clock
    ensures Inv(cfg, s.(clock := nowMs))
  {}

  lemma StepKeepsInv(cfg: Config, s: State, e: Event)
    requires Inv(cfg, s)
    ensures Inv(cfg, Step(cfg, s, e))
  {
    hide CallStep, FailedStep, LogInv;
    if e.nowMs >= s.clock {
      var t := s.(clock := e.nowMs);
      TickKeepsInv(cfg, s, e.nowMs);
      if !e.Begin? && e.i in s.invocations {
        var v := s.invocations[e.i];
        if e.CallStarted? && v.phase.Admitted? && e.againMs >= e.nowMs {
          CallKeepsInv(cfg, t, e.i, e.nowMs, e.againMs);
        }
        if e.CallFailed? && v.phase.Calling? { FailedKeepsInv(cfg, t, e.i, e.failure); }
        if v.phase.Calling? { BudgetGrows(cfg, v.attempt, v.calls); }
      }
    }
  }

  lemma {:induction false} RunKeepsInv(cfg: Config, clock: int, events: seq<Event>)
    ensures Inv(cfg, Run(cfg, Start(clock), events))
  {
    if events != [] {
      RunKeepsInv(cfg, clock, events[..|events| - 1]);
      StepKeepsInv(cfg, Run(cfg, Start(clock), events[..|events| - 1]), events[|events| - 1]);
    }
  }

  // ---- results over every interleaving -------------------------------------

  /** A call goes to the fallback exactly while an earlier switch rests: never longer, and never to the primary then. */
  lemma FallbackExactlyWhileResting(cfg: Config, clock: int, events: seq<Event>, j: nat)
    requires var log := Run(cfg, Start(clock), events).log; j < |log| && log[j].Called?
    ensures var log := Run(cfg, Start(clock), events).log;
            log[j].endpoint.Fallback? <==>
              exists i :: 0 <= i < j && log[i].SwitchedOver? && log[j].at < log[i].at + cfg.restMs
  {
    RunKeepsInv(cfg, clock, events);
    var log := Run(cfg, Start(clock), events).log;
    assert log[j].endpoint.Fallback? <==> RestingAt(cfg, log, j, log[j].at);
  }

  /** Fallback mode always has a fallback client and a deadline; primary mode has none. */
  lemma FallbackModeIsBounded(cfg: Config, clock: int, events: seq<Event>)
    ensures var m := Run(cfg, Start(clock), events).mode;
            m.active.Fallback? ==> cfg.hasFallback && m.fallbackUntilMs.Some?
    ensures var m := Run(cfg, Start(clock), events).mode;
            m.active.Primary? ==> m.fallbackUntilMs.None?
  {
    RunKeepsInv(cfg, clock, events);
  }

  /** An invocation makes at most maxRetries calls, gives up only after all of them, and sleeps within budget. */
  lemma RetriesAreBounded(cfg: Config, clock: int, events: seq<Event>, i: nat)
    requires i in Run(cfg, Start(clock), events).invocations
    ensures var v := Run(cfg, Start(clock), events).invocations[i];
            && v.calls <= Max(cfg.maxRetries, 0)
            && v.sleptMs <= BackoffBudget(cfg, Max(cfg.maxRetries, 0))
            && (v.phase == Thrown(true) ==> v.calls == Max(cfg.maxRetries, 0))
  {
    RunKeepsInv(cfg, clock, events);
    BudgetGrows(cfg, Run(cfg, Start(clock), events).invocations[i].calls, Max(cfg.maxRetries, 0));
  }

  // ---- what one attempt does -----------------------------------------------

  /**
   A rate limit on the primary switches over, if there is a fallback, and the next attempt follows at once. A fatal
   failure ends the invocation. Any other failure keeps the mode and is slept on: the base, doubled for each attempt
   so far, up to the maximum.
   */
  lemma FailureDecides(cfg: Config, s: State, i: nat, failure: Failure, nowMs: int)
    requires i in s.invocations && s.invocations[i].phase.Calling? && nowMs >= s.clock
    ensures var t := Step(cfg, s, CallFailed(i, failure, nowMs));
            var v := s.invocations[i];
            var switches := failure.RateLimited? && s.mode.active.Primary? && cfg.hasFallback;
            var full := cfg.retryBaseMs * Pow2(v.attempt);
            var sleepMs := if full <= cfg.retryMaxMs then full else cfg.retryMaxMs;
            && t.mode == (if switches then Mode(Fallback, Some(nowMs + cfg.restMs)) else s.mode)
            && t.log == (if switches then s.log + [SwitchedOver(nowMs)] else s.log)
            && t.clock == nowMs && t.lastCallMs == s.lastCallMs
            && t.invocations == s.invocations[i :=
                 if failure.Fatal? then v.(phase := Thrown(false))
                 else if !switches then v.(phase := BackingOff(nowMs + sleepMs), sleptMs := v.sleptMs + sleepMs)
                 else if v.attempt + 1 >= cfg.maxRetries then v.(attempt := v.attempt + 1, phase := Thrown(true))
                 else v.(attempt := v.attempt + 1,
                         phase := Waiting(Max(nowMs, s.lastCallMs + cfg.minIntervalMs)))]
  {}

  /** With the default settings the six sleeps are these. */
  lemma DefaultBackoffs(cfg: Config)
    requires cfg.retryBaseMs == 300 && cfg.retryMaxMs == 8_000
    ensures Backoff(cfg, 0) == 300 && Backoff(cfg, 1) == 600 && Backoff(cfg, 2) == 1_200
    ensures Backoff(cfg, 3) == 2_400 && Backoff(cfg, 4) == 4_800 && Backoff(cfg, 5) == 8_000
  {
    assert Pow2(0) == 1 && Pow2(1) == 2 && Pow2(2) == 4;
    assert Pow2(3) == 8 && Pow2(4) == 16 && Pow2(5) == 32;
  }

  lemma RunThree(cfg: Config, s: State, a: Event, b: Event, c: Event)
    ensures Run(cfg, s, [a, b, c]) == Step(cfg, Step(cfg, Step(cfg, s, a), b), c)
  {
    hide Step;
    var events := [a, b, c];
    assert events[..2][..1] == [a] && [a][..0] == [] && events[..2] == [a, b];
    assert Run(cfg, s, [a]) == Step(cfg, s, a);
    assert Run(cfg, s, [a, b]) == Step(cfg, Step(cfg, s, a), b);
  }

  /**
   An attempt that succeeds: let through when due and no sooner, it calls the endpoint of the moment once and returns.
   */
  lemma AttemptSucceeds(cfg: Config, s: State, i: nat, acquiredMs: int, startedMs: int, returnedMs: int)
    requires i in s.invocations && s.invocations[i].phase.Waiting?
    requires s.clock <= acquiredMs <= startedMs <= returnedMs
    ensures var t := Run(cfg, s, [Acquired(i, acquiredMs), CallStarted(i, startedMs, startedMs),
                                  CallReturned(i, returnedMs)]);
            var v := s.invocations[i];
            if acquiredMs < v.phase.dueAt then t == s
            else
              && t.invocations == s.invocations[i := v.(phase := Returned, calls := v.calls + 1)]
              && t.lastCallMs == acquiredMs && t.clock == returnedMs
              && t.mode == (if s.mode.active.Fallback? && s.mode.fallbackUntilMs.Some?
                               && startedMs >= s.mode.fallbackUntilMs.value then Mode(Primary, None) else s.mode)
              && t.log == s.log + [Called(if t.mode.active.Fallback? && cfg.hasFallback then Fallback else Primary,
                                          startedMs)]
  {
    RunThree(cfg, s, Acquired(i, acquiredMs), CallStarted(i, startedMs, startedMs), CallReturned(i, returnedMs));
    hide Run;
  }

  /** The sleep of a failed attempt is slept to its end; then the next attempt waits its turn, or there is none left. */
  lemma SleepEnds(cfg: Config, s: State, i: nat, nowMs: int)
    requires i in s.invocations && s.invocations[i].phase.BackingOff? && nowMs >= s.clock
    ensures var t := Step(cfg, s, Woke(i, nowMs)); var v := s.invocations[i];
            if nowMs < v.phase.dueAt then t == s
            else t == s.(clock := nowMs, invocations := s.invocations[i := v.(
              attempt := v.attempt + 1,
              phase := if v.attempt + 1 >= cfg.maxRetries then Thrown(true)
                       else Waiting(Max(nowMs, s.lastCallMs + cfg.minIntervalMs)))])
  {}

  /** A new invocation starts with its first attempt, or throws at once when no attempt is allowed. */
  lemma InvocationBegins(cfg: Config, s: State, i: nat, nowMs: int)
    requires i !in s.invocations && nowMs >= s.clock
    ensures Step(cfg, s, Begin(i, nowMs)) == s.(clock := nowMs, invocations := s.invocations[i :=
              Invocation(0, if cfg.maxRetries <= 0 then Thrown(true)
                            else Waiting(Max(nowMs, s.lastCallMs + cfg.minIntervalMs)), 0, 0)])
  {}

  /** Over every interleaving: each switch was caused by a rate limit at that moment. */
  lemma {:induction false} SwitchesComeFromRateLimits(cfg: Config, clock: int, events: seq<Event>, k: nat)
    requires var log := Run(cfg, Start(clock), events).log; k < |log| && log[k].SwitchedOver?
    ensures exists j, i :: 0 <= j < |events|
              && events[j] == CallFailed(i, RateLimited, Run(cfg, Start(clock), events).log[k].at)
  {
    var n := |events| - 1;
    var s := Run(cfg, Start(clock), events[..n]);
    var at := Run(cfg, Start(clock), events).log[k].at;
    LogGrows(cfg, s, events[n]);
    if k < |s.log| {
      SwitchesComeFromRateLimits(cfg, clock, events[..n], k);
      var j, i :| 0 <= j < n && events[..n][j] == CallFailed(i, RateLimited, at);
      assert events[j] == CallFailed(i, RateLimited, at);
    } else {
      assert events[n] == CallFailed(events[n].i, RateLimited, at);
    }
  }

  lemma LogGrows(cfg: Config, s: State, e: Event)
    ensures var t := Step(cfg, s, e);
            && s.log <= t.log && |t.log| <= |s.log| + 1
            && (|t.log| > |s.log| && t.log[|s.log|].SwitchedOver? ==>
                  e == CallFailed(e.i, RateLimited, t.log[|s.log|].at))
  {}
}
