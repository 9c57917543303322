/**
 How many managers are created on chain for one address? Follow-up of the interleaved model of manager.service.ts,
 where a created manager whose inspection or save fails is forgotten.
 */
module ManagerExecutions {
  import opened JsBasics
  import opened JsText
  import opened ManagerCreation
  import opened ManagerAgreement

  /** The work's transaction was executed for `address`. */
  predicate Creator(s: State, w: Call, address: string) {
    w in s.onChain && w in s.works && s.works[w].address == address
  }

  /** Its manager exists on chain, but the work ended without storing it. */
  predicate Lost(s: State, w: Call) {
    w in s.works && s.works[w].phase.Settled? && !StoredCreation(s.works[w].phase)
  }

  /** The recheck missed the row and the transaction is not executed yet. */
  predicate MayExecute(p: WorkPhase) {
    p.Executing? || (p.Rechecking? && !p.lookup.ReadingStore?)
  }

  ghost predicate OnChainInv(s: State) {
    forall w :: w in s.onChain ==> w in s.works && HasExecuted(s.works[w].phase)
  }

  /** No row is ever removed. */
  lemma StepKeepsKeys(s: State, e: Event)
    ensures s.store.Keys <= Step(s, e).store.Keys
  {
    if e.CallLookup? && e.call in s.calls && s.calls[e.call].phase.Looking? {
      LookupKeepsKeys(s.store, s.calls[e.call].address, s.calls[e.call].phase.lookup, e.event);
    }
    if e.WorkLookup? && e.call in s.works && s.works[e.call].phase.Rechecking? {
      LookupKeepsKeys(s.store, s.works[e.call].address, s.works[e.call].phase.lookup, e.event);
    }
    SaveKeepsKeys(s.store);
    hide LookupStep, Save;
  }

  lemma StartsAfresh(s: State, c: Call)
    requires LocksInv(s) && c in s.calls && s.calls[c].phase.Authorizing?
    ensures c !in s.works
  {}

  predicate OnCallsOnly(e: Event) { e.Arrive? || e.CallLookup? || e.Resumed? }

  lemma CallStepsKeepWorks(s: State, e: Event)
    requires OnCallsOnly(e)
    ensures Step(s, e).works == s.works && Step(s, e).onChain == s.onChain
  {
    hide LookupStep;
  }

  lemma WorkLookupMoves(s: State, w: Call, l: Lookup, e: LookupEvent, ready: bool)
    requires w in s.works && s.works[w].phase == Rechecking(l)
    ensures var t := WorkLookupStep(s, w, l, e, ready);
            t.works == s.works[w := s.works[w].(phase := t.works[w].phase)] && t.onChain == s.onChain
  {
    hide LookupStep;
  }

  /** A step is about one call or work and leaves all other works alone. */
  lemma StepElsewhere(s: State, e: Event, w: Call)
    requires w in s.works && (OnCallsOnly(e) || e.call != w)
    ensures w in Step(s, e).works && Step(s, e).works[w] == s.works[w] && (w in s.onChain ==> w in Step(s, e).onChain)
  {
    if OnCallsOnly(e) { CallStepsKeepWorks(s, e); }
    if e.WorkLookup? && e.call in s.works && s.works[e.call].phase.Rechecking? {
      WorkLookupMoves(s, e.call, s.works[e.call].phase.lookup, e.event, e.keeperReady);
    }
    hide WorkLookupStep, CallLookupStep, ResumedStep, Save;
  }

  predicate HasExecuted(p: WorkPhase) { p.Inspecting? || p.Saving? || p.Settled? }

  /** A step of the work itself: its address stays, and once executed it stays so. */
  lemma OwnStep(s: State, e: Event, w: Call)
    requires LocksInv(s) && w in s.works && !OnCallsOnly(e) && e.call == w
    ensures var t := Step(s, e);
            && w in t.works && t.works[w].address == s.works[w].address
            && (HasExecuted(s.works[w].phase) ==> HasExecuted(t.works[w].phase)) && (w in s.onChain ==> w in t.onChain)
  {
    if w in s.calls && s.calls[w].phase.Authorizing? { StartsAfresh(s, w); }
    if e.WorkLookup? && s.works[w].phase.Rechecking? {
      WorkLookupMoves(s, w, s.works[w].phase.lookup, e.event, e.keeperReady);
    }
    hide LocksInv, WorkLookupStep, AuthorizedStep, CallLookupStep, ResumedStep, Save;
  }

  /** A work is for one address for good. */
  lemma StepKeepsAddress(s: State, e: Event, w: Call)
    requires LocksInv(s) && w in s.works
    ensures w in Step(s, e).works && Step(s, e).works[w].address == s.works[w].address
  {
    hide Step, LocksInv;
    if OnCallsOnly(e) || e.call != w { StepElsewhere(s, e, w); } else { OwnStep(s, e, w); }
  }

  lemma StepKeepsExecuted(s: State, e: Event, w: Call)
    requires LocksInv(s) && w in s.works && w in s.onChain && HasExecuted(s.works[w].phase)
    ensures w in Step(s, e).works && w in Step(s, e).onChain && HasExecuted(Step(s, e).works[w].phase)
  {
    hide Step, LocksInv;
    if OnCallsOnly(e) || e.call != w { StepElsewhere(s, e, w); } else { OwnStep(s, e, w); }
  }

  lemma NewOnChain(s: State, e: Event, w: Call)
    requires w in Step(s, e).onChain && w !in s.onChain
    ensures w in s.works && s.works[w].phase.Executing?
    ensures w in Step(s, e).works && HasExecuted(Step(s, e).works[w].phase)
  {
    hide LookupStep, CallLookupStep, ResumedStep, Save;
    if OnCallsOnly(e) { CallStepsKeepWorks(s, e); }
  }

  lemma StepKeepsOnChain(s: State, e: Event)
    requires LocksInv(s) && OnChainInv(s)
    ensures OnChainInv(Step(s, e)) && s.onChain <= Step(s, e).onChain
  {
    hide LocksInv, Step, HasExecuted;
    forall w | w in s.onChain || w in Step(s, e).onChain
      ensures w in Step(s, e).works && w in Step(s, e).onChain && HasExecuted(Step(s, e).works[w].phase)
    {
      if w in s.onChain { StepKeepsExecuted(s, e, w); } else { NewOnChain(s, e, w); }
    }
  }

  lemma LookupKeepsKeys(store: Store, address: string, l: Lookup, e: LookupEvent)
    ensures store.Keys <= LookupStep(store, address, l, e).0.Keys
  {}

  lemma SaveKeepsKeys(store: Store)
    ensures forall address, id :: store.Keys <= Save(store, address, id).Keys
  {}

  lemma {:induction false} RunKeepsOnChain(s: State, events: seq<Event>)
    requires Inv(s) && OnChainInv(s)
    ensures Inv(Run(s, events)) && OnChainInv(Run(s, events))
  {
    if events != [] {
      var n := |events| - 1;
      RunKeepsOnChain(s, events[..n]);
      hide LocksInv, RepliesInv, CreationsInv, OnChainInv, Step;
      StepKeepsInv(Run(s, events[..n]), events[n]);
      StepKeepsOnChain(Run(s, events[..n]), events[n]);
    }
  }

  // ---- all but one are lost ------------------------------------------------

  lemma LiveCreator(s: State, w: Call)
    requires OnChainInv(s) && w in s.onChain && !Lost(s, w)
    ensures w in s.works && (StoredCreation(s.works[w].phase) || (InFlight(s, w) && PastStore(s.works[w].phase)))
  {}

  lemma StoredIsLogged(s: State, w: Call)
    requires CreationsInv(s) && w in s.works && StoredCreation(s.works[w].phase)
    ensures CreatedFor(s.creations, s.works[w].address)
  {
    hide IsHexId, Normalize;
    var id := Normalize(s.works[w].phase.reply.id);
    assert LoggedBy(s.creations, w, s.works[w].address, id);
    var i :| 0 <= i < |s.creations| && s.creations[i] == Creation(s.works[w].address, id, w);
  }

  /** Over every interleaving: of two transactions executed for one address, at least one's manager was lost. */
  lemma AllButOneLost(s: State, events: seq<Event>, v: Call, w: Call, address: string)
    requires Initial(s) && v != w
    requires Creator(Run(s, events), v, address) && Creator(Run(s, events), w, address)
    ensures Lost(Run(s, events), v) || Lost(Run(s, events), w)
  {
    assert Inv(s) && OnChainInv(s);
    RunKeepsOnChain(s, events);
    var t := Run(s, events);
    hide Run, Lost, StoredCreation, PastStore, LocksInv, RepliesInv, CreationsInv, OnChainInv;
    if !Lost(t, v) && !Lost(t, w) {
      LiveCreator(t, v);
      LiveCreator(t, w);
      LiveCreatorsMeet(t, v, w);
    }
  }

  lemma LiveCreatorsMeet(s: State, v: Call, w: Call)
    requires Inv(s) && v in s.works && w in s.works && s.works[v].address == s.works[w].address
    requires StoredCreation(s.works[v].phase) || (InFlight(s, v) && PastStore(s.works[v].phase))
    requires StoredCreation(s.works[w].phase) || (InFlight(s, w) && PastStore(s.works[w].phase))
    ensures v == w
  {
    hide LocksInv, RepliesInv;
    if StoredCreation(s.works[v].phase) { StoredIsLogged(s, v); }
    if StoredCreation(s.works[w].phase) { StoredIsLogged(s, w); }
    if InFlight(s, v) && InFlight(s, w) {
      SoleWork(s, v, w);
    } else {
      SoleCreator(s, v, w);
    }
  }

  // ---- exactly when no further creation can happen -------------------------

  ghost predicate Closed(s: State, address: string) {
    && address in s.store
    && forall w :: w in s.works && s.works[w].address == address ==> !MayExecute(s.works[w].phase)
  }

  ghost predicate NoNewCreator(s: State, t: State, address: string) {
    forall w :: Creator(t, w, address) ==> Creator(s, w, address)
  }

  lemma ClosedLookup(s: State, w: Call, e: LookupEvent, ready: bool, address: string)
    requires Closed(s, address) && w in s.works && s.works[w].phase.Rechecking? && s.works[w].address == address
    ensures WorkLookupStep(s, w, s.works[w].phase.lookup, e, ready).works
         == s.works[w := WorkLookupStep(s, w, s.works[w].phase.lookup, e, ready).works[w]]
    ensures !MayExecute(WorkLookupStep(s, w, s.works[w].phase.lookup, e, ready).works[w].phase)
  {
    assert !MayExecute(s.works[w].phase);
    hide Save;
  }

  lemma StepKeepsIdle(s: State, e: Event, address: string, w: Call)
    requires Closed(s, address) && w in Step(s, e).works && Step(s, e).works[w].address == address
    ensures !MayExecute(Step(s, e).works[w].phase)
  {
    if w in s.works && (OnCallsOnly(e) || e.call != w) {
      StepElsewhere(s, e, w);
      hide Step;
    } else {
      OwnStepIsIdle(s, e, address, w);
    }
  }

  lemma OwnStepIsIdle(s: State, e: Event, address: string, w: Call)
    requires Closed(s, address) && w in Step(s, e).works && Step(s, e).works[w].address == address
    requires w !in s.works || (!OnCallsOnly(e) && e.call == w)
    ensures !MayExecute(Step(s, e).works[w].phase)
  {
    if OnCallsOnly(e) { CallStepsKeepWorks(s, e); }
    if e.WorkLookup? && e.call in s.works && s.works[e.call].phase.Rechecking? {
      WorkLookupMoves(s, e.call, s.works[e.call].phase.lookup, e.event, e.keeperReady);
      if s.works[e.call].address == address { ClosedLookup(s, e.call, e.event, e.keeperReady, address); }
    }
    hide WorkLookupStep, CallLookupStep, ResumedStep, Save;
  }

  lemma StepKeepsClosed(s: State, e: Event, address: string)
    requires LocksInv(s) && OnChainInv(s) && Closed(s, address)
    ensures Closed(Step(s, e), address) && NoNewCreator(s, Step(s, e), address)
  {
    StepKeepsKeys(s, e);
    var t := Step(s, e);
    forall w | w in t.works && t.works[w].address == address
      ensures !MayExecute(t.works[w].phase) && (w in t.onChain ==> Creator(s, w, address))
    {
      StepKeepsIdle(s, e, address, w);
      if w in t.onChain && w !in s.onChain { NewOnChain(s, e, w); }
      if w in s.works { StepKeepsAddress(s, e, w); }
    }
    hide Step, LocksInv;
  }

  lemma {:induction false} RunKeepsClosed(s: State, events: seq<Event>, address: string)
    requires Inv(s) && OnChainInv(s) && Closed(s, address)
    ensures Closed(Run(s, events), address) && NoNewCreator(s, Run(s, events), address)
  {
    if events != [] {
      var n := |events| - 1;
      RunKeepsClosed(s, events[..n], address);
      RunKeepsOnChain(s, events[..n]);
      hide Closed, OnChainInv, LocksInv, RepliesInv, CreationsInv, Step;
      StepKeepsClosed(Run(s, events[..n]), events[n], address);
    }
  }

  lemma RecheckMisses(s: State, w: Call) returns (e: Event)
    requires w in s.works && s.works[w].phase.Rechecking? && MayExecute(s.works[w].phase)
    ensures Step(s, e) == SetWork(s, w, Executing)
  {
    e := WorkLookup(w, if s.works[w].phase.lookup.AskingIndexer? then IndexerReplied(None) else HitSaved(false), true);
    assert s.(store := s.store) == s;
    hide SetWork, Save;
  }

  lemma ExecutionSucceeds(s: State, w: Call)
    requires w in s.works && s.works[w].phase.Executing?
    ensures Step(s, Executed(w, true)) == SetWork(s, w, Inspecting).(onChain := s.onChain + {w})
  {
    hide SetWork;
  }

  lemma OnlyRechecking(p: WorkPhase)
    requires MayExecute(p) && !p.Executing?
    ensures p.Rechecking?
  {}

  /** A work past the recheck goes on to execute. */
  lemma WorkExecutes(s: State, w: Call) returns (events: seq<Event>)
    requires w in s.works && MayExecute(s.works[w].phase)
    ensures Run(s, events) == s.(works := s.works[w := s.works[w].(phase := Inspecting)], onChain := s.onChain + {w})
  {
    hide Step, Run, MayExecute;
    if s.works[w].phase.Executing? {
      events := [Executed(w, true)];
      ExecutionSucceeds(s, w);
      RunOne(s, Executed(w, true));
    } else {
      assert s.works[w].phase.Rechecking? by { OnlyRechecking(s.works[w].phase); }
      var e := RecheckMisses(s, w);
      events := [e] + [Executed(w, true)];
      ExecutionSucceeds(Step(s, e), w);
      RunOne(Step(s, e), Executed(w, true));
      RunFirst(s, e, [Executed(w, true)]);
    }
  }

  lemma LeaderReleases(s: State, address: string)
    requires LocksInv(s) && address in s.locks && s.works[s.locks[address]].phase.Settled?
    ensures var t := Step(s, Resumed(s.locks[address]));
            t.store == s.store && t.onChain == s.onChain && address !in t.locks
  {}

  /** A work past its execution may fail. */
  lemma WorkFails(s: State, w: Call) returns (e: Event)
    requires w in s.works && (s.works[w].phase.Inspecting? || s.works[w].phase.Saving?)
    ensures Step(s, e) == SetWork(s, w, Settled(Failed))
  {
    e := if s.works[w].phase.Inspecting? then Inspected(w, None) else CreationSaved(w, false);
    hide SetWork, Save;
  }

  lemma RecheckReads(s: State, w: Call)
    requires w in s.works && s.works[w].phase == Rechecking(ReadingStore) && s.works[w].address !in s.store
    ensures Step(s, WorkLookup(w, StoreRead(true), true)) == SetWork(s, w, Rechecking(AskingIndexer))
  {
    assert s.(store := s.store) == s;
    hide SetWork, Save;
  }

  /** Whoever holds the lock of an address without a row either goes on to create or fails and releases it. */
  lemma LockIsSpent(s: State, address: string) returns (events: seq<Event>)
    requires LocksInv(s) && address !in s.store && address in s.locks
    requires !MayExecute(s.works[s.locks[address]].phase)
    ensures var t := Run(s, events); var leader := s.locks[address];
            && t.store == s.store && t.onChain == s.onChain
            && (address !in t.locks || (leader in t.works && MayExecute(t.works[leader].phase)
                                        && t.works[leader].address == address))
  {
    var w := s.locks[address];
    assert s.works[w].address == address;
    assert Run(s, []) == s && s.(store := s.store) == s;
    hide Run, Step;
    events := [];
    if s.works[w].phase.Rechecking? {
      RecheckReads(s, w);
      events := Then(s, events, WorkLookup(w, StoreRead(true), true));
    } else {
      if !s.works[w].phase.Settled? {
        var e := WorkFails(s, w);
        MoveWorkKeepsLocks(s, s.store, w, Settled(Failed));
        events := Then(s, events, e);
      }
      hide LocksInv;
      LeaderReleases(Run(s, events), address);
      events := Then(s, events, Resumed(w));
    }
  }

  /** A new call takes the free lock and misses the row. */
  lemma NewCallLeads(s: State, address: string) returns (events: seq<Event>, w: Call)
    requires address !in s.store && address !in s.locks
    ensures var t := Run(s, events);
            && t.store == s.store && t.onChain == s.onChain
            && w in t.works && t.works[w].address == address && MayExecute(t.works[w].phase)
  {
    events, w := NewCallReads(s, address);
    hide Run, Save, ResumedStep, CreationSavedStep, ExecutedStep;
    events := Then(s, events, CallLookup(w, IndexerReplied(None)));
    assert Run(s, events) == s.(calls := s.calls[w := CallState(address, Authorizing)]);
    events := Then(s, events, Authorized(w, true, None));
    RecheckReads(Run(s, events), w);
    hide Step;
    events := Then(s, events, WorkLookup(w, StoreRead(true), true));
  }

  lemma SomeWorkMayExecute(s: State, address: string) returns (events: seq<Event>, w: Call)
    requires LocksInv(s) && address !in s.store
    ensures var t := Run(s, events);
            && t.store == s.store && t.onChain == s.onChain
            && w in t.works && t.works[w].address == address && MayExecute(t.works[w].phase)
  {
    hide MayExecute;
    if address in s.locks && MayExecute(s.works[s.locks[address]].phase) {
      events, w := [], s.locks[address];
    } else {
      events := [];
      if address in s.locks {
        events := LockIsSpent(s, address);
        w := s.locks[address];
      }
      var t := Run(s, events);
      hide LocksInv;
      if address !in t.locks {
        var rest;
        rest, w := NewCallLeads(t, address);
        RunInParts(s, events, rest);
        hide Run;
        events := events + rest;
      }
    }
  }

  /** While there is no row, one more manager can always be created. */
  lemma CreatesOnceMore(s: State, address: string) returns (events: seq<Event>, w: Call)
    requires Inv(s) && OnChainInv(s) && address !in s.store
    ensures var t := Run(s, events);
            && t.store == s.store && t.onChain == s.onChain + {w} && w !in s.onChain && Creator(t, w, address)
  {
    events, w := SomeWorkMayExecute(s, address);
    RunKeepsOnChain(s, events);
    var t := Run(s, events);
    assert w !in t.onChain by { hide Run; }
    var rest := WorkExecutes(t, w);
    RunInParts(s, events, rest);
    hide Run;
    events := events + rest;
  }

  /** From any state of the service: no further manager is ever created for an address exactly when it is closed. */
  lemma NoFurtherCreationExactlyWhenClosed(s: State, address: string)
    requires Inv(s) && OnChainInv(s)
    ensures (forall events :: NoNewCreator(s, Run(s, events), address)) <==> Closed(s, address)
  {
    hide Run, MayExecute, LocksInv, RepliesInv, CreationsInv;
    if Closed(s, address) {
      forall events ensures NoNewCreator(s, Run(s, events), address) { RunKeepsClosed(s, events, address); }
    } else if address !in s.store {
      var events, w := CreatesOnceMore(s, address);
      assert Creator(Run(s, events), w, address);
    } else {
      var w :| w in s.works && s.works[w].address == address && MayExecute(s.works[w].phase);
      assert w !in s.onChain by { NotOnChain(s, w); }
      var events := WorkExecutes(s, w);
      assert Creator(Run(s, events), w, address);
    }
  }

  lemma NotOnChain(s: State, w: Call)
    requires OnChainInv(s) && w in s.works && MayExecute(s.works[w].phase)
    ensures w !in s.onChain
  {}

  /** Without a row at start-up there is no bound: failing saves can waste any number of managers on one address. */
  lemma {:induction false} CreationsAreUnbounded(s: State, address: string, n: nat) returns (events: seq<Event>)
    requires Initial(s) && address !in s.store
    ensures var t := Run(s, events);
            t.store == s.store && |t.onChain| == n && forall w :: w in t.onChain ==> Creator(t, w, address)
  {
    assert Inv(s) && OnChainInv(s);
    if n == 0 {
      events := [];
    } else {
      events := CreationsAreUnbounded(s, address, n - 1);
      RunKeepsOnChain(s, events);
      var t := Run(s, events);
      hide Inv, Initial;
      var rest, w := CreatesOnceMore(t, address);
      RunKeepsCreators(t, rest, address);
      RunInParts(s, events, rest);
      hide Run;
      events := events + rest;
    }
  }

  lemma {:induction false} RunKeepsCreators(s: State, events: seq<Event>, address: string)
    requires Inv(s) && OnChainInv(s)
    ensures forall w :: Creator(s, w, address) ==> Creator(Run(s, events), w, address)
  {
    if events != [] {
      var n := |events| - 1;
      RunKeepsCreators(s, events[..n], address);
      RunKeepsOnChain(s, events[..n]);
      var t := Run(s, events[..n]);
      forall w | Creator(t, w, address) ensures Creator(Step(t, events[n]), w, address) {
        StepKeepsAddress(t, events[n], w);
        StepKeepsOnChain(t, events[n]);
      }
    }
  }
}
