/**
 What a call of createOrGetManager goes through, told without the steps: the outcome of a whole lookup and of a whole
 creation, and the authorization that comes before every work.
 */
module ManagerLaws {
  import opened JsBasics
  import opened JsText
  import opened ManagerCreation

  // ---- whole stretches, from start to end ----------------------------------

  lemma RunThree(s: State, a: Event, b: Event, c: Event)
    ensures Run(s, [a, b, c]) == Step(Step(Step(s, a), b), c)
  {
    hide Step;
    RunFirst(s, a, [b, c]);
    RunFirst(Step(s, a), b, [c]);
    RunOne(Step(Step(s, a), b), c);
    assert [a, b, c] == [a] + [b, c] && [b, c] == [b] + [c];
  }

  /** What a lookup comes to: the stored id, else the indexer's once saved, else nothing; a failing read throws. */
  datatype Answer = Told(id: string) | Untold | Broken

  function Answered(store: Store, address: string, readOk: bool, hit: Option<string>, savedOk: bool): Answer {
    if !readOk then Broken
    else if address in store then Told(store[address])
    else if hit.Some? && hit.value != "" && savedOk then Told(hit.value)
    else Untold
  }

  /** The rows after it: a saved hit is stored when it is an object id, in normal form. */
  function RowsAfter(store: Store, address: string, readOk: bool, hit: Option<string>, savedOk: bool): Store {
    if readOk && address !in store && hit.Some? && savedOk && IsHexId(Normalize(hit.value))
    then store[address := Normalize(hit.value)] else store
  }

  function CallAnswer(answer: Answer): CallPhase {
    match answer
    case Told(id) => Done(Found(id, None), Alone)
    case Untold => Authorizing
    case Broken => Done(Failed, Alone)
  }

  function WorkAnswer(answer: Answer, auth: Option<string>, keeperReady: bool): WorkPhase {
    match answer
    case Told(id) => Settled(Found(id, auth))
    case Untold => if keeperReady then Executing else Settled(Failed)
    case Broken => Settled(Failed)
  }

  /** The state but for the row store and where the call stands. */
  function WithCall(s: State, c: Call, address: string, store: Store, phase: CallPhase): State {
    s.(store := store, calls := s.calls[c := CallState(address, phase)])
  }

  function CallNext(store: Store, address: string, phase: CallPhase, e: LookupEvent): (Store, CallPhase) {
    if !phase.Looking? then (store, phase)
    else
      var (after, progress) := LookupStep(store, address, phase.lookup, e);
      (after, match progress
              case Going(next) => Looking(next)
              case Hit(id) => CallAnswer(Told(id))
              case Miss => CallAnswer(Untold)
              case Threw => CallAnswer(Broken))
  }

  lemma CallMovesOnce(s: State, c: Call, address: string, store: Store, phase: CallPhase, after: Store, next: CallPhase)
    ensures var t := WithCall(s, c, address, store, phase);
            && c in t.calls && t.calls[c] == CallState(address, phase) && t.store == store
            && SetCall(t.(store := after), c, next) == WithCall(s, c, address, after, next)
  {}

  lemma CallMoves(s: State, c: Call, address: string, store: Store, phase: CallPhase, e: LookupEvent)
    ensures var (after, next) := CallNext(store, address, phase, e);
            Step(WithCall(s, c, address, store, phase), CallLookup(c, e)) == WithCall(s, c, address, after, next)
  {
    var (after, next) := CallNext(store, address, phase, e);
    CallMovesOnce(s, c, address, store, phase, after, next);
    hide LookupStep, WithCall, SetCall;
  }

  lemma ThreeAnswers(store: Store, address: string, readOk: bool, hit: Option<string>, savedOk: bool)
    ensures var (s1, p1) := CallNext(store, address, Looking(ReadingStore), StoreRead(readOk));
            var (s2, p2) := CallNext(s1, address, p1, IndexerReplied(hit));
            CallNext(s2, address, p2, HitSaved(savedOk))
            == (RowsAfter(store, address, readOk, hit, savedOk),
                CallAnswer(Answered(store, address, readOk, hit, savedOk)))
  {
    if hit.Some? && hit.value == "" { assert !IsHexId(Normalize("")); }
    hide IsHexId, Normalize;
  }

  /** The lookup of a call: store, indexer, save, whatever they answer. */
  lemma WholeLookup(s: State, c: Call, readOk: bool, hit: Option<string>, savedOk: bool)
    requires c in s.calls && s.calls[c].phase == Looking(ReadingStore)
    ensures var address := s.calls[c].address;
            Run(s, [CallLookup(c, StoreRead(readOk)), CallLookup(c, IndexerReplied(hit)),
                    CallLookup(c, HitSaved(savedOk))])
            == WithCall(s, c, address, RowsAfter(s.store, address, readOk, hit, savedOk),
                        CallAnswer(Answered(s.store, address, readOk, hit, savedOk)))
  {
    var address := s.calls[c].address;
    assert s == WithCall(s, c, address, s.store, Looking(ReadingStore));
    hide Step, Run, WithCall, CallNext, RowsAfter, CallAnswer;
    RunThree(s, CallLookup(c, StoreRead(readOk)), CallLookup(c, IndexerReplied(hit)), CallLookup(c, HitSaved(savedOk)));
    var (s1, p1) := CallNext(s.store, address, Looking(ReadingStore), StoreRead(readOk));
    var (s2, p2) := CallNext(s1, address, p1, IndexerReplied(hit));
    CallMoves(s, c, address, s.store, Looking(ReadingStore), StoreRead(readOk));
    CallMoves(s, c, address, s1, p1, IndexerReplied(hit));
    CallMoves(s, c, address, s2, p2, HitSaved(savedOk));
    ThreeAnswers(s.store, address, readOk, hit, savedOk);
  }

  function WithWork(s: State, w: Call, address: string, auth: Option<string>, store: Store, phase: WorkPhase): State {
    s.(store := store, works := s.works[w := WorkState(address, auth, phase)])
  }

  function WorkNext(store: Store, address: string, auth: Option<string>, ready: bool, phase: WorkPhase, e: LookupEvent)
    : (Store, WorkPhase)
  {
    if !phase.Rechecking? then (store, phase)
    else
      var (after, progress) := LookupStep(store, address, phase.lookup, e);
      (after, match progress
              case Going(next) => Rechecking(next)
              case Hit(id) => WorkAnswer(Told(id), auth, ready)
              case Miss => WorkAnswer(Untold, auth, ready)
              case Threw => WorkAnswer(Broken, auth, ready))
  }

  lemma WorkMovesOnce(s: State, w: Call, address: string, auth: Option<string>, store: Store, phase: WorkPhase,
                      after: Store, next: WorkPhase)
    ensures var t := WithWork(s, w, address, auth, store, phase);
            && w in t.works && t.works[w] == WorkState(address, auth, phase) && t.store == store
            && SetWork(t.(store := after), w, next) == WithWork(s, w, address, auth, after, next)
  {}

  lemma WorkMoves(s: State, w: Call, address: string, auth: Option<string>, store: Store, ready: bool,
                  phase: WorkPhase, e: LookupEvent)
    ensures var (after, next) := WorkNext(store, address, auth, ready, phase, e);
            Step(WithWork(s, w, address, auth, store, phase), WorkLookup(w, e, ready))
            == WithWork(s, w, address, auth, after, next)
  {
    var (after, next) := WorkNext(store, address, auth, ready, phase, e);
    WorkMovesOnce(s, w, address, auth, store, phase, after, next);
    hide LookupStep, WithWork, SetWork;
  }

  lemma ThreeAnswersToWork(store: Store, address: string, auth: Option<string>, ready: bool,
                           readOk: bool, hit: Option<string>, savedOk: bool)
    ensures var (s1, p1) := WorkNext(store, address, auth, ready, Rechecking(ReadingStore), StoreRead(readOk));
            var (s2, p2) := WorkNext(s1, address, auth, ready, p1, IndexerReplied(hit));
            WorkNext(s2, address, auth, ready, p2, HitSaved(savedOk))
            == (RowsAfter(store, address, readOk, hit, savedOk),
                WorkAnswer(Answered(store, address, readOk, hit, savedOk), auth, ready))
  {
    if hit.Some? && hit.value == "" { assert !IsHexId(Normalize("")); }
    hide IsHexId, Normalize;
  }

  /** The recheck of a work likewise, up to the execution. */
  lemma WholeRecheck(s: State, w: Call, readOk: bool, hit: Option<string>, savedOk: bool, ready: bool)
    requires w in s.works && s.works[w].phase == Rechecking(ReadingStore)
    ensures var address, auth := s.works[w].address, s.works[w].auth;
            Run(s, [WorkLookup(w, StoreRead(readOk), ready), WorkLookup(w, IndexerReplied(hit), ready),
                    WorkLookup(w, HitSaved(savedOk), ready)])
            == WithWork(s, w, address, auth, RowsAfter(s.store, address, readOk, hit, savedOk),
                        WorkAnswer(Answered(s.store, address, readOk, hit, savedOk), auth, ready))
  {
    var address, auth := s.works[w].address, s.works[w].auth;
    assert s == WithWork(s, w, address, auth, s.store, Rechecking(ReadingStore));
    hide Step, Run, WithWork, WorkNext, RowsAfter, WorkAnswer;
    RunThree(s, WorkLookup(w, StoreRead(readOk), ready), WorkLookup(w, IndexerReplied(hit), ready),
             WorkLookup(w, HitSaved(savedOk), ready));
    var (s1, p1) := WorkNext(s.store, address, auth, ready, Rechecking(ReadingStore), StoreRead(readOk));
    var (s2, p2) := WorkNext(s1, address, auth, ready, p1, IndexerReplied(hit));
    WorkMoves(s, w, address, auth, s.store, ready, Rechecking(ReadingStore), StoreRead(readOk));
    WorkMoves(s, w, address, auth, s1, ready, p1, IndexerReplied(hit));
    WorkMoves(s, w, address, auth, s2, ready, p2, HitSaved(savedOk));
    ThreeAnswersToWork(s.store, address, auth, ready, readOk, hit, savedOk);
  }

  /**
   The creation itself: a created manager is answered once its transaction was executed, its object id found and the
   row saved; any failure on the way fails the work. An executed transaction stays on chain either way.
   */
  lemma WholeCreation(s: State, w: Call, executedOk: bool, id: Option<string>, savedOk: bool)
    requires w in s.works && s.works[w].phase.Executing?
    ensures var t := Run(s, [Executed(w, executedOk), Inspected(w, id), CreationSaved(w, savedOk)]);
            var address := s.works[w].address;
            var created := executedOk && id.Some? && id.value != "" && savedOk;
            && t.works == s.works[w := s.works[w].(
                 phase := Settled(if created then Created(id.value, s.works[w].auth) else Failed))]
            && t.onChain == (if executedOk then s.onChain + {w} else s.onChain)
            && t.store == (if created && IsHexId(Normalize(id.value)) then s.store[address := Normalize(id.value)]
                           else s.store)
            && t.calls == s.calls && t.locks == s.locks
  {
    RunThree(s, Executed(w, executedOk), Inspected(w, id), CreationSaved(w, savedOk));
    hide IsHexId, Normalize, Run;
  }

  /** A call whose authorization fails ends with that, and changes nothing else. */
  lemma RefusedCallFails(s: State, c: Call, token: Option<string>)
    requires c in s.calls && s.calls[c].phase.Authorizing?
    ensures Step(s, Authorized(c, false, token))
         == s.(calls := s.calls[c := CallState(s.calls[c].address, Done(Failed, Alone))])
  {}

  /** An authorized call joins the work that locks its address, or leads a new one with its own token. */
  lemma AuthorizedCallJoinsOrLeads(s: State, c: Call, token: Option<string>)
    requires c in s.calls && s.calls[c].phase.Authorizing?
    ensures var t := Step(s, Authorized(c, true, token)); var address := s.calls[c].address;
            if address in s.locks
            then t == s.(calls := s.calls[c := CallState(address, Joining(s.locks[address]))])
            else t == s.(calls := s.calls[c := CallState(address, Leading)], locks := s.locks[address := c],
                         works := s.works[c := WorkState(address, token, Rechecking(ReadingStore))])
  {}

  /** A settled work is handed to its leader, who frees the lock, and to every call that joined it. */
  lemma SettledWorkIsHandedOut(s: State, c: Call, w: Call)
    requires c in s.calls && (s.calls[c].phase == Joining(w) || (s.calls[c].phase.Leading? && c == w))
    requires w in s.works && s.works[w].phase.Settled?
    ensures var t := Step(s, Resumed(c)); var led := s.calls[c].phase.Leading?;
            && t.calls == s.calls[c := s.calls[c].(
                 phase := Done(s.works[w].phase.reply, if led then Led else Joined(w)))]
            && t.locks == (if led then s.locks - {s.calls[c].address} else s.locks)
            && t == s.(calls := t.calls, locks := t.locks)
  {}

  // ---- what must have come before ------------------------------------------

  /** The event authorized the call, with this token. */
  ghost predicate WasAuthorized(events: seq<Event>, c: Call, token: Option<string>) {
    exists k :: 0 <= k < |events| && events[k] == Authorized(c, true, token)
  }

  ghost predicate EverAuthorized(events: seq<Event>, c: Call) { exists token :: WasAuthorized(events, c, token) }

  /** The call waits for a work, or its reply came from one. */
  predicate TookPart(p: CallPhase) { p.Leading? || p.Joining? || (p.Done? && !p.via.Alone?) }

  ghost predicate AuthorizedFirst(s: State, events: seq<Event>) {
    && (forall w :: w in s.works ==> WasAuthorized(events, w, s.works[w].auth))
    && (forall c :: c in s.calls && TookPart(s.calls[c].phase) ==> EverAuthorized(events, c))
  }

  lemma OneMoreEvent(events: seq<Event>, e: Event, c: Call)
    ensures forall token :: WasAuthorized(events, c, token) ==> WasAuthorized(events + [e], c, token)
    ensures forall token :: e == Authorized(c, true, token) ==> WasAuthorized(events + [e], c, token)
    ensures EverAuthorized(events, c) ==> EverAuthorized(events + [e], c)
  {
    var more := events + [e];
    forall token | WasAuthorized(events, c, token) ensures WasAuthorized(more, c, token) {
      var k :| 0 <= k < |events| && events[k] == Authorized(c, true, token);
      assert more[k] == events[k];
    }
    assert more[|events|] == e;
    if token :| WasAuthorized(events, c, token) { assert WasAuthorized(more, c, token); }
  }

  /** A step gives a call a part in a work only by authorizing that call. */
  lemma StepAuthorizesCall(s: State, e: Event, c: Call)
    ensures c in Step(s, e).calls && TookPart(Step(s, e).calls[c].phase) ==>
              (c in s.calls && TookPart(s.calls[c].phase)) || (e.Authorized? && e.ok && e.call == c)
  {
    if e.WorkLookup? { WorkStepsKeepCalls(s, e); }
    hide LookupStep, WorkLookupStep, CreationSavedStep;
  }

  lemma WorkStepsKeepCalls(s: State, e: Event)
    requires e.WorkLookup?
    ensures Step(s, e).calls == s.calls
  {
    hide LookupStep;
  }

  /** A step starts a work only by authorizing its call, and keeps its token. */
  lemma StepAuthorizesWork(s: State, e: Event, w: Call)
    requires w in Step(s, e).works
    ensures || (w in s.works && s.works[w].auth == Step(s, e).works[w].auth)
            || e == Authorized(w, true, Step(s, e).works[w].auth)
  {
    if e.Arrive? || e.CallLookup? || e.Resumed? { CallStepsKeepWorks(s, e); }
    hide LookupStep, CallLookupStep, ResumedStep, Save;
  }

  lemma StepKeepsAuthorized(s: State, events: seq<Event>, e: Event)
    requires AuthorizedFirst(s, events)
    ensures AuthorizedFirst(Step(s, e), events + [e])
  {
    hide Step, WasAuthorized, EverAuthorized, TookPart;
    var t := Step(s, e);
    forall w | w in t.works ensures WasAuthorized(events + [e], w, t.works[w].auth) {
      StepAuthorizesWork(s, e, w);
      OneMoreEvent(events, e, w);
    }
    forall c | c in t.calls && TookPart(t.calls[c].phase) ensures EverAuthorized(events + [e], c) {
      StepAuthorizesCall(s, e, c);
      OneMoreEvent(events, e, c);
      if e.Authorized? && e.ok && e.call == c { AuthorizedNow(events, e); }
    }
  }

  lemma AuthorizedNow(events: seq<Event>, e: Event)
    requires e.Authorized? && e.ok
    ensures EverAuthorized(events + [e], e.call)
  {
    OneMoreEvent(events, e, e.call);
    assert WasAuthorized(events + [e], e.call, e.token);
  }

  /** Over every interleaving: no work starts, and no call joins one, unless its own authorization has succeeded. */
  lemma {:induction false} NoWorkWithoutAuthorization(s: State, events: seq<Event>)
    requires Initial(s)
    ensures AuthorizedFirst(Run(s, events), events)
  {
    if events != [] {
      var n := |events| - 1;
      NoWorkWithoutAuthorization(s, events[..n]);
      assert events == events[..n] + [events[n]];
      hide AuthorizedFirst, Step;
      StepKeepsAuthorized(Run(s, events[..n]), events[..n], events[n]);
    }
  }

  // ---- no transaction without a ready keeper -------------------------------

  /** The recheck of the work ended without a row while the keeper was ready to sign. */
  ghost predicate FoundReady(events: seq<Event>, w: Call) {
    exists k :: 0 <= k < |events| && events[k].WorkLookup? && events[k].call == w && events[k].keeperReady
  }

  predicate PastRecheck(p: WorkPhase) { p.Executing? || p.Inspecting? || p.Saving? || (p.Settled? && p.reply.Created?) }

  ghost predicate ReadyFirst(s: State, events: seq<Event>) {
    && (forall w :: w in s.works && PastRecheck(s.works[w].phase) ==> FoundReady(events, w))
    && (forall w :: w in s.onChain ==> FoundReady(events, w))
  }

  lemma StepFindsReady(s: State, e: Event, w: Call)
    ensures w in Step(s, e).works && PastRecheck(Step(s, e).works[w].phase) ==>
              (w in s.works && PastRecheck(s.works[w].phase)) || (e.WorkLookup? && e.call == w && e.keeperReady)
    ensures w in Step(s, e).onChain ==> w in s.onChain || (w in s.works && PastRecheck(s.works[w].phase))
  {
    if e.Arrive? || e.CallLookup? || e.Resumed? { CallStepsKeepWorks(s, e); }
    hide LookupStep, CallLookupStep, ResumedStep, Save;
  }

  lemma CallStepsKeepWorks(s: State, e: Event)
    requires e.Arrive? || e.CallLookup? || e.Resumed?
    ensures Step(s, e).works == s.works && Step(s, e).onChain == s.onChain
  {
    hide LookupStep;
  }

  lemma ReadyOneMore(events: seq<Event>, e: Event, w: Call)
    ensures FoundReady(events, w) || (e.WorkLookup? && e.call == w && e.keeperReady) ==> FoundReady(events + [e], w)
  {
    var more := events + [e];
    if k :| 0 <= k < |events| && events[k].WorkLookup? && events[k].call == w && events[k].keeperReady {
      assert more[k] == events[k];
    }
    assert more[|events|] == e;
  }

  /** Over every interleaving: no creating transaction is executed unless the keeper was ready after the recheck. */
  lemma {:induction false} NoExecutionUnlessReady(s: State, events: seq<Event>)
    requires Initial(s)
    ensures ReadyFirst(Run(s, events), events)
  {
    if events != [] {
      var n := |events| - 1;
      var before, t := Run(s, events[..n]), Run(s, events);
      NoExecutionUnlessReady(s, events[..n]);
      assert events == events[..n] + [events[n]];
      assert t == Step(before, events[n]);
      hide Run, Step, PastRecheck, FoundReady;
      forall w ensures w in t.works && PastRecheck(t.works[w].phase) ==> FoundReady(events, w)
               ensures w in t.onChain ==> FoundReady(events, w)
      {
        StepFindsReady(before, events[n], w);
        ReadyOneMore(events[..n], events[n], w);
      }
    }
  }
}
