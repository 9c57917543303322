/**
 Per-kind locks of keeper-orchestrator.service.ts over every interleaving of runs. A run is interrupted only at its
 awaits: the protocol refresh and each task service.
 */
module KeeperOrchestrator {
  datatype Service = LimitOrders | Liquidations | ForceCloses | Triggers

  datatype Kind = LimitOrder | Liquidation | Trigger | ForceClose | All

  datatype Stage = Refreshing | Serving(service: Service, paused: bool) | Finished

  datatype Run = Run(kind: Kind, stage: Stage)

  predicate IsLocked(running: set<Kind>, kind: Kind) {
    || All in running
    || (if kind.All? then running != {} else kind in running)
  }

  /** The kind that asks for a service by itself. */
  function KindOf(s: Service): Kind {
    match s case LimitOrders => LimitOrder case Liquidations => Liquidation
            case ForceCloses => ForceClose case Triggers => Trigger
  }

  /** Triggers alone wait for trading to be unpaused. */
  predicate Due(kind: Kind, s: Service, paused: bool) {
    (kind.All? || kind == KindOf(s)) && (s.Triggers? ==> !paused)
  }

  const ORDER: seq<Service> := [LimitOrders, Liquidations, ForceCloses, Triggers]

  /** The first due service at or after position `i`. */
  function NextStage(kind: Kind, paused: bool, i: nat): (next: Stage)
    ensures !next.Refreshing?
    ensures next.Serving? ==> next.paused == paused && Position(next.service) >= i && Due(kind, next.service, paused)
    ensures forall s :: i <= Position(s) && (next.Serving? ==> Position(s) < Position(next.service)) ==>
              !Due(kind, s, paused)
    decreases |ORDER| - i
  {
    if i >= |ORDER| then Finished
    else if Due(kind, ORDER[i], paused) then Serving(ORDER[i], paused)
    else
      assert forall s :: Position(s) == i <==> s == ORDER[i];
      NextStage(kind, paused, i + 1)
  }

  function Position(s: Service): nat {
    match s case LimitOrders => 0 case Liquidations => 1 case ForceCloses => 2 case Triggers => 3
  }

  datatype State = State(running: set<Kind>, runs: map<nat, Run>)

  datatype Event =
    | Start(run: nat, kind: Kind)
    | Refreshed(run: nat, paused: bool)
    | Served(run: nat)
    | Failed(run: nat)

  /** Entering a stage; the finished one releases the lock. */
  function Enter(s: State, run: nat, stage: Stage): State
    requires run in s.runs
  {
    State(if stage.Finished? then s.running - {s.runs[run].kind} else s.running,
          s.runs[run := s.runs[run].(stage := stage)])
  }

  function Step(s: State, e: Event): State {
    match e
    case Start(r, kind) =>
      if r in s.runs || IsLocked(s.running, kind) then s
      else State(s.running + {kind}, s.runs[r := Run(kind, Refreshing)])
    case Refreshed(r, paused) =>
      if r in s.runs && s.runs[r].stage.Refreshing? then Enter(s, r, NextStage(s.runs[r].kind, paused, 0)) else s
    case Served(r) =>
      if r in s.runs && s.runs[r].stage.Serving?
      then Enter(s, r, NextStage(s.runs[r].kind, s.runs[r].stage.paused, Position(s.runs[r].stage.service) + 1)) else s
    case Failed(r) =>
      if r in s.runs && !s.runs[r].stage.Finished? then Enter(s, r, Finished) else s
  }

  function RunAll(events: seq<Event>): State {
    if events == [] then State({}, map[]) else Step(RunAll(events[..|events| - 1]), events[|events| - 1])
  }

  /** The lock set as the service holds it, and the runs suspended at an await. */
  class KeeperOrchestratorService {
    var runningKinds: set<Kind>
    var runs: map<nat, Run>

    function Current(): State
      reads this
    { State(runningKinds, runs) }

    constructor ()
      ensures Current() == State({}, map[])
    { runningKinds, runs := {}, map[]; }

    /** `run` up to its first await. */
    method Begin(run: nat, kind: Kind) returns (skipped: bool)
      requires run !in runs
      modifies this
      ensures Current() == Step(old(Current()), Start(run, kind))
      ensures skipped <==> IsLocked(old(runningKinds), kind)
    {
      if IsLocked(runningKinds, kind) { return true; }
      runningKinds := runningKinds + {kind};
      runs := runs[run := Run(kind, Refreshing)];
      return false;
    }

    /** The `finally` block. */
    method Release(run: nat)
      requires run in runs && !runs[run].stage.Finished?
      modifies this
      ensures Current() == Step(old(Current()), Failed(run))
    {
      runningKinds := runningKinds - {runs[run].kind};
      runs := runs[run := runs[run].(stage := Finished)];
    }

    /** From the protocol refresh to the first due service, or the `finally` block. */
    method AfterRefresh(run: nat, paused: bool)
      requires run in runs && runs[run].stage.Refreshing?
      modifies this
      ensures Current() == Step(old(Current()), Refreshed(run, paused))
    {
      var next := NextStage(runs[run].kind, paused, 0);
      if next.Finished? {
        Release(run);
      } else {
        runs := runs[run := runs[run].(stage := next)];
      }
    }

    /** From one await to the next: the following service, or the `finally` block. */
    method Advance(run: nat)
      requires run in runs && runs[run].stage.Serving?
      modifies this
      ensures Current() == Step(old(Current()), Served(run))
    {
      var next := NextStage(runs[run].kind, runs[run].stage.paused, Position(runs[run].stage.service) + 1);
      if next.Finished? {
        Release(run);
      } else {
        runs := runs[run := runs[run].(stage := next)];
      }
    }
  }

  // ---- what every step keeps -----------------------------------------------

  ghost predicate Active(s: State, r: nat) { r in s.runs && !s.runs[r].stage.Finished? }

  predicate Conflict(a: Kind, b: Kind) { a == b || a.All? || b.All? }

  ghost predicate Inv(s: State) {
    && (forall k :: k in s.running <==> exists r :: Active(s, r) && s.runs[r].kind == k)
    && (forall q, r :: Active(s, q) && Active(s, r) && q != r ==> !Conflict(s.runs[q].kind, s.runs[r].kind))
    && (forall r :: r in s.runs && s.runs[r].stage.Serving? ==>
          Due(s.runs[r].kind, s.runs[r].stage.service, s.runs[r].stage.paused))
  }

  lemma LockedExactlyByConflict(s: State, kind: Kind)
    requires Inv(s)
    ensures IsLocked(s.running, kind) <==> exists r :: Active(s, r) && Conflict(s.runs[r].kind, kind)
  {
    if IsLocked(s.running, kind) {
      var k :| k in s.running && Conflict(k, kind);
      var r :| Active(s, r) && s.runs[r].kind == k;
    }
    if r :| Active(s, r) && Conflict(s.runs[r].kind, kind) { assert s.runs[r].kind in s.running; }
  }

  lemma EnterKeepsInv(s: State, r: nat, stage: Stage)
    requires Inv(s) && Active(s, r)
    requires stage.Serving? ==> Due(s.runs[r].kind, stage.service, stage.paused)
    ensures Inv(Enter(s, r, stage))
  {
    var t := Enter(s, r, stage);
    forall k ensures k in t.running <==> exists q :: Active(t, q) && t.runs[q].kind == k {
      if q :| Active(s, q) && s.runs[q].kind == k && q != r { assert Active(t, q); }
      if !stage.Finished? { assert Active(t, r); }
    }
  }

  lemma StepKeepsInv(s: State, e: Event)
    requires Inv(s)
    ensures Inv(Step(s, e))
  {
    match e
    case Start(r, kind) =>
      LockedExactlyByConflict(s, kind);
      if r !in s.runs && !IsLocked(s.running, kind) {
        var t := Step(s, e);
        assert Active(t, r);
        assert forall q :: Active(s, q) ==> Active(t, q) && t.runs[q].kind == s.runs[q].kind;
      }
    case Refreshed(r, paused) =>
      if r in s.runs && s.runs[r].stage.Refreshing? {
        EnterKeepsInv(s, r, NextStage(s.runs[r].kind, paused, 0));
      }
    case Served(r) =>
      if r in s.runs && s.runs[r].stage.Serving? {
        var i := Position(s.runs[r].stage.service) + 1;
        EnterKeepsInv(s, r, NextStage(s.runs[r].kind, s.runs[r].stage.paused, i));
      }
    case Failed(r) =>
      if Active(s, r) { EnterKeepsInv(s, r, Finished); }
  }

  lemma {:induction false} RunKeepsInv(events: seq<Event>)
    ensures Inv(RunAll(events))
  {
    if events != [] {
      RunKeepsInv(events[..|events| - 1]);
      StepKeepsInv(RunAll(events[..|events| - 1]), events[|events| - 1]);
    }
  }

  // ---- results over every interleaving -------------------------------------

  /** The services that a run visits from position `i` on when none of them throws. */
  function Agenda(kind: Kind, paused: bool, i: nat): seq<Service>
    decreases |ORDER| - i
  {
    match NextStage(kind, paused, i)
    case Serving(service, _) => [service] + Agenda(kind, paused, Position(service) + 1)
    case _ => []
  }

  /** A run visits exactly the due services, each once, in the fixed order. */
  lemma {:induction false} AgendaIsDue(kind: Kind, paused: bool, i: nat)
    ensures var agenda := Agenda(kind, paused, i);
            && (forall s :: s in agenda <==> Position(s) >= i && Due(kind, s, paused))
            && forall m, n :: 0 <= m < n < |agenda| ==> Position(agenda[m]) < Position(agenda[n])
    decreases |ORDER| - i
  {
    hide Due;
    var next := NextStage(kind, paused, i);
    if next.Serving? {
      var rest := Agenda(kind, paused, Position(next.service) + 1);
      AgendaIsDue(kind, paused, Position(next.service) + 1);
      assert forall s :: Position(s) == Position(next.service) <==> s == next.service;
      assert forall m :: 0 <= m < |rest| ==> rest[m] in rest;
    }
  }

  /** No task service ever runs twice at once. */
  lemma ServiceRunsAlone(events: seq<Event>, q: nat, r: nat)
    requires var s := RunAll(events);
             q in s.runs && r in s.runs && s.runs[q].stage.Serving? && s.runs[r].stage.Serving?
             && s.runs[q].stage.service == s.runs[r].stage.service
    ensures q == r
  {
    RunKeepsInv(events);
    var s := RunAll(events);
    assert Active(s, q) && Active(s, r);
  }

  /** A full run is in flight only alone. */
  lemma FullRunIsAlone(events: seq<Event>, q: nat, r: nat)
    requires var s := RunAll(events); Active(s, q) && s.runs[q].kind.All? && Active(s, r)
    ensures q == r
  {
    RunKeepsInv(events);
  }

  /** A new run is skipped exactly when one in flight conflicts with it, so a lock goes with its run, failed or not. */
  lemma SkippedExactlyOnConflict(events: seq<Event>, r: nat, kind: Kind)
    requires r !in RunAll(events).runs
    ensures r in Step(RunAll(events), Start(r, kind)).runs
            <==> !exists q :: Active(RunAll(events), q) && Conflict(RunAll(events).runs[q].kind, kind)
  {
    RunKeepsInv(events);
    LockedExactlyByConflict(RunAll(events), kind);
  }

  // ---- which services a run visits -----------------------------------------

  /** The services of each kind of run, in the order of their turns. */
  function Plan(kind: Kind, paused: bool): seq<Service> {
    match kind
    case All => [LimitOrders, Liquidations, ForceCloses] + if paused then [] else [Triggers]
    case LimitOrder => [LimitOrders]
    case Liquidation => [Liquidations]
    case ForceClose => [ForceCloses]
    case Trigger => if paused then [] else [Triggers]
  }

  function StageOf(kind: Kind, paused: bool, k: nat): Stage {
    if k < |Plan(kind, paused)| then Serving(Plan(kind, paused)[k], paused) else Finished
  }

  lemma PlanStarts(kind: Kind, paused: bool)
    ensures NextStage(kind, paused, 0) == StageOf(kind, paused, 0)
  {
    assert ORDER[0] == LimitOrders && ORDER[1] == Liquidations && ORDER[2] == ForceCloses && ORDER[3] == Triggers;
    assert NextStage(kind, paused, 4) == Finished;
    assert NextStage(kind, paused, 3) == if Due(kind, Triggers, paused) then Serving(Triggers, paused) else Finished;
  }

  lemma PlanGoesOn(kind: Kind, paused: bool, k: nat)
    requires k < |Plan(kind, paused)|
    ensures NextStage(kind, paused, Position(Plan(kind, paused)[k]) + 1) == StageOf(kind, paused, k + 1)
  {
    assert ORDER[0] == LimitOrders && ORDER[1] == Liquidations && ORDER[2] == ForceCloses && ORDER[3] == Triggers;
    assert NextStage(kind, paused, 4) == Finished;
    assert NextStage(kind, paused, 3) == if Due(kind, Triggers, paused) then Serving(Triggers, paused) else Finished;
  }

  /** The state after `k` services of the run have come back. */
  function AfterServing(s: State, r: nat, k: nat): State {
    if k == 0 then s else Step(AfterServing(s, r, k - 1), Served(r))
  }

  /**
   A run that starts visits the services of its plan, one after the other, each told whether trading was paused at the
   refresh; it holds its lock until the last one is back and not a moment longer.
   */
  lemma {:induction false} RunServesPlan(s: State, r: nat, kind: Kind, paused: bool, k: nat)
    requires r !in s.runs && !IsLocked(s.running, kind) && k <= |Plan(kind, paused)|
    ensures var t := AfterServing(Step(Step(s, Start(r, kind)), Refreshed(r, paused)), r, k);
            && t.runs == s.runs[r := Run(kind, StageOf(kind, paused, k))]
            && t.running == if k < |Plan(kind, paused)| then s.running + {kind} else s.running
  {
    hide NextStage, StageOf, Plan, Step, IsLocked;
    RunStarts(s, r, kind, paused);
    if k > 0 {
      RunServesPlan(s, r, kind, paused, k - 1);
      var before := AfterServing(Step(Step(s, Start(r, kind)), Refreshed(r, paused)), r, k - 1);
      ServedOnce(before, r, kind, paused, k - 1);
      StageIsLast(kind, paused, k);
      LockedOnce(s.running, kind);
    }
  }

  lemma LockedOnce(running: set<Kind>, kind: Kind)
    ensures kind !in running ==> running + {kind} - {kind} == running
  {}

  lemma StageIsLast(kind: Kind, paused: bool, k: nat)
    ensures StageOf(kind, paused, k).Finished? <==> k >= |Plan(kind, paused)|
  {}

  lemma RunStarts(s: State, r: nat, kind: Kind, paused: bool)
    requires r !in s.runs && !IsLocked(s.running, kind)
    ensures kind !in s.running
    ensures var t := Step(Step(s, Start(r, kind)), Refreshed(r, paused));
            && t.runs == s.runs[r := Run(kind, StageOf(kind, paused, 0))]
            && t.running == if 0 < |Plan(kind, paused)| then s.running + {kind} else s.running
  {
    PlanStarts(kind, paused);
    StageIsLast(kind, paused, 0);
    LockedOnce(s.running, kind);
    hide NextStage, StageOf, Plan;
  }

  lemma ServedOnce(s: State, r: nat, kind: Kind, paused: bool, k: nat)
    requires r in s.runs && k < |Plan(kind, paused)| && s.runs[r] == Run(kind, StageOf(kind, paused, k))
    ensures var next := StageOf(kind, paused, k + 1);
            Step(s, Served(r)) == State(if next.Finished? then s.running - {kind} else s.running,
                                        s.runs[r := Run(kind, next)])
  {
    PlanGoesOn(kind, paused, k);
    hide NextStage, Plan;
  }
}
