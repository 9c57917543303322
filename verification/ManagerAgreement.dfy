/**
 Do all replies for an address name the same manager? Follow-up of the interleaved model of manager.service.ts:
 exactly when they always will, a run in which they do not, and the runs without indexer hits.
 */
module ManagerAgreement {
  import opened JsBasics
  import opened JsText
  import opened ManagerCreation
  import opened ManagerRow

  /** The indexer answers a lookup for `address` with an id. */
  predicate HitFor(s: State, e: Event, address: string) {
    match e
    case CallLookup(c, IndexerReplied(hit)) => c in s.calls && s.calls[c].address == address && hit.Some?
    case WorkLookup(w, IndexerReplied(hit), _) => w in s.works && s.works[w].address == address && hit.Some?
    case _ => false
  }

  /** Ids read from the chain are object ids in normal form. */
  predicate CanonicalId(e: Event) {
    e.Inspected? && e.id.Some? ==> IsHexId(e.id.value)
  }

  /** Every reply for `address` names the manager in its row. */
  ghost predicate Agreed(s: State, address: string) {
    forall c :: c in s.calls && s.calls[c].address == address
                && s.calls[c].phase.Done? && Names(s.calls[c].phase.reply) ==>
      address in s.store && s.store[address] == s.calls[c].phase.reply.id
  }

  // ---- exactly when all replies will agree ---------------------------------

  /** The call has no other id than the row's to hand out. */
  predicate CallNames(row: string, p: CallPhase) {
    match p
    case Looking(SavingHit(id)) => id == row
    case Done(reply, _) => Names(reply) ==> reply.id == row
    case _ => true
  }

  predicate WorkNames(row: string, p: WorkPhase) {
    match p
    case Rechecking(SavingHit(id)) => id == row
    case Saving(id) => id == row
    case Settled(reply) => Names(reply) ==> reply.id == row
    case _ => true
  }

  /** The row is settled, and whatever is handed out or about to be names it. */
  ghost predicate RepliesSettled(s: State, address: string) {
    && RowSettled(s, address)
    && (forall c :: c in s.calls && s.calls[c].address == address ==> CallNames(s.store[address], s.calls[c].phase))
    && (forall w :: w in s.works && s.works[w].address == address ==> WorkNames(s.store[address], s.works[w].phase))
  }

  lemma LookupNamesRow(store: Store, address: string, l: Lookup, e: LookupEvent)
    requires address in store && !LookupMayWrite(store, address, l) && (l.SavingHit? ==> l.id == store[address])
    ensures var progress := LookupStep(store, address, l, e).1;
            && (progress.Hit? ==> progress.id == store[address])
            && (progress.Going? ==> progress.lookup == l)
            && (progress.Miss? ==> !l.ReadingStore?)
  {
    hide IsHexId, Normalize;
  }

  lemma CallLookupKeepsReplies(s: State, c: Call, e: LookupEvent, address: string)
    requires RepliesSettled(s, address) && c in s.calls && s.calls[c].phase.Looking?
    ensures RepliesSettled(CallLookupStep(s, c, s.calls[c].phase.lookup, e), address)
  {
    CallLookupKeepsRow(s, c, e, address);
    assert !CallMayWrite(s, c, address);
    if s.calls[c].address == address { LookupNamesRow(s.store, address, s.calls[c].phase.lookup, e); }
    hide RowSettled, LookupStep, LookupMayWrite;
  }

  lemma WorkLookupKeepsReplies(s: State, w: Call, e: LookupEvent, ready: bool, address: string)
    requires RepliesSettled(s, address) && w in s.works && s.works[w].phase.Rechecking?
    ensures RepliesSettled(WorkLookupStep(s, w, s.works[w].phase.lookup, e, ready), address)
  {
    WorkLookupKeepsRow(s, w, e, ready, address);
    if s.works[w].address == address {
      assert !WorkMayWrite(s.store, address, s.works[w].phase);
      LookupNamesRow(s.store, address, s.works[w].phase.lookup, e);
    }
    hide RowSettled, LookupStep, LookupMayWrite, WorkMayWrite;
  }

  lemma CreationKeepsReplies(s: State, w: Call, ok: bool, address: string)
    requires RepliesSettled(s, address) && w in s.works && s.works[w].phase.Saving?
    ensures RepliesSettled(CreationSavedStep(s, w, s.works[w].phase.id, ok), address)
  {
    CreationKeepsRow(s, w, ok, address);
    hide RowSettled, IsHexId, Normalize;
  }

  lemma ResumedKeepsReplies(s: State, c: Call, address: string)
    requires LocksInv(s) && RepliesInv(s) && RepliesSettled(s, address) && c in s.calls
    ensures RepliesSettled(ResumedStep(s, c), address)
  {
    OtherStepsKeepRow(s, Resumed(c), address);
    hide RowSettled, OwnToken;
  }

  lemma OtherStepsKeepReplies(s: State, e: Event, address: string)
    requires RepliesSettled(s, address)
    requires e.Arrive? || e.Authorized? || e.Executed?
    ensures RepliesSettled(Step(s, e), address)
  {
    OtherStepsKeepRow(s, e, address);
    hide RowSettled;
  }

  lemma InspectedKeepsReplies(s: State, w: Call, id: Option<string>, address: string)
    requires RepliesSettled(s, address)
    ensures RepliesSettled(Step(s, Inspected(w, id)), address)
  {
    OtherStepsKeepRow(s, Inspected(w, id), address);
    assert w in s.works && s.works[w].address == address ==> !WorkMayWrite(s.store, address, s.works[w].phase);
    hide RowSettled;
  }

  lemma StepKeepsReplies(s: State, e: Event, address: string)
    requires Inv(s) && RepliesSettled(s, address)
    ensures RepliesSettled(Step(s, e), address)
  {
    hide RepliesSettled, CreationsInv, LocksInv, RepliesInv, CallLookupStep, WorkLookupStep, ResumedStep,
         CreationSavedStep;
    match e
    case CallLookup(c, le) =>
      if c in s.calls && s.calls[c].phase.Looking? { CallLookupKeepsReplies(s, c, le, address); }
    case WorkLookup(w, le, ready) =>
      if w in s.works && s.works[w].phase.Rechecking? { WorkLookupKeepsReplies(s, w, le, ready, address); }
    case CreationSaved(w, ok) =>
      if w in s.works && s.works[w].phase.Saving? { CreationKeepsReplies(s, w, ok, address); }
    case Resumed(c) => if c in s.calls { ResumedKeepsReplies(s, c, address); }
    case Inspected(w, id) => InspectedKeepsReplies(s, w, id, address);
    case _ => OtherStepsKeepReplies(s, e, address);
  }

  lemma {:induction false} RunKeepsReplies(s: State, events: seq<Event>, address: string)
    requires Inv(s) && RepliesSettled(s, address)
    ensures Inv(Run(s, events)) && RepliesSettled(Run(s, events), address)
  {
    if events != [] {
      var n := |events| - 1;
      RunKeepsReplies(s, events[..n], address);
      hide Inv, RepliesSettled;
      StepKeepsInv(Run(s, events[..n]), events[n]);
      StepKeepsReplies(Run(s, events[..n]), events[n], address);
    }
  }

  /** What a new call reads: the manager in the row, or that there is none. */
  function FirstRead(s: State, address: string): CallPhase {
    if address in s.store then Done(Found(s.store[address], None), Alone) else Looking(AskingIndexer)
  }

  lemma NewCallReads(s: State, address: string) returns (events: seq<Event>, c: Call)
    ensures c !in s.calls
    ensures Run(s, events) == s.(calls := s.calls[c := CallState(address, FirstRead(s, address))])
  {
    c := NumbersBelow(s.calls.Keys);
    var t := s.(calls := s.calls[c := CallState(address, Looking(ReadingStore))]);
    assert Step(s, Arrive(c, address)) == t by { assert c !in s.calls; }
    assert Step(t, CallLookup(c, StoreRead(true))) == SetCall(t, c, FirstRead(s, address));
    hide Step;
    RunFirst(s, Arrive(c, address), [CallLookup(c, StoreRead(true))]);
    RunFirst(t, CallLookup(c, StoreRead(true)), []);
    events := [Arrive(c, address)] + ([CallLookup(c, StoreRead(true))] + []);
    assert events == [Arrive(c, address)] + [CallLookup(c, StoreRead(true))];
  }

  /** A row that is not settled can move away from a reply that names it. */
  lemma MovingRowDisagrees(s: State, address: string, other: string) returns (events: seq<Event>)
    requires address in s.store && !RowSettled(s, address) && IsHexId(other) && other != s.store[address]
    ensures !Agreed(Run(s, events), address)
  {
    var first, reader := NewCallReads(s, address);
    var t := Run(s, first);
    assert !RowSettled(t, address) by {
      hide Run, LookupMayWrite, WorkMayWrite, IsHexId;
      if c :| CallMayWrite(s, c, address) { assert CallMayWrite(t, c, address); }
    }
    RowStaysExactlyWhenSettled(t, address, other);
    hide RowSettled, IsHexId;
    var rest :| !SameRow(t, Run(t, rest), address);
    RunKeepsDone(t, rest, reader);
    RunInParts(s, first, rest);
    hide Run;
    events := first + rest;
  }

  /** The leader of a settled work is told its reply, if it was not told yet. */
  lemma ReplyIsHandedOut(s: State, w: Call) returns (events: seq<Event>)
    requires LocksInv(s) && w in s.works && s.works[w].phase.Settled?
    ensures var t := Run(s, events);
            && t.store == s.store && w in t.calls && t.calls[w].address == s.works[w].address
            && t.calls[w].phase == Done(s.works[w].phase.reply, Led)
  {
    if s.calls[w].phase.Leading? {
      events := [Resumed(w)];
      RunFirst(s, Resumed(w), []);
      assert [Resumed(w)] + [] == [Resumed(w)];
    } else {
      events := [];
    }
  }

  lemma OffReplyDisagrees(s: State, w: Call) returns (events: seq<Event>)
    requires LocksInv(s) && w in s.works && s.works[w].address in s.store
    requires s.works[w].phase.Settled? && !WorkNames(s.store[s.works[w].address], s.works[w].phase)
    ensures !Agreed(Run(s, events), s.works[w].address)
  {
    events := ReplyIsHandedOut(s, w);
    hide Run, LocksInv;
  }

  lemma OffWorkDisagrees(s: State, w: Call) returns (events: seq<Event>)
    requires Inv(s) && w in s.works && RowSettled(s, s.works[w].address)
    requires !WorkNames(s.store[s.works[w].address], s.works[w].phase)
    ensures !Agreed(Run(s, events), s.works[w].address)
  {
    hide CreationsInv;
    var e := if s.works[w].phase.Saving? then CreationSaved(w, true) else WorkLookup(w, HitSaved(true), true);
    if s.works[w].phase.Settled? {
      events := OffReplyDisagrees(s, w);
    } else {
      StepKeepsRow(s, e, s.works[w].address);
      StepKeepsInv(s, e);
      hide RowSettled, LocksInv, RepliesInv, CreationsInv, IsHexId, Normalize;
      var rest := OffReplyDisagrees(Step(s, e), w);
      events := [e] + rest;
      RunFirst(s, e, rest);
    }
  }

  lemma OffCallDisagrees(s: State, c: Call) returns (events: seq<Event>)
    requires c in s.calls && RowSettled(s, s.calls[c].address)
    requires !CallNames(s.store[s.calls[c].address], s.calls[c].phase)
    ensures !Agreed(Run(s, events), s.calls[c].address)
  {
    if s.calls[c].phase.Done? {
      events := [];
    } else {
      var e := CallLookup(c, HitSaved(true));
      var row := s.store[s.calls[c].address];
      events := [e] + [];
      RunFirst(s, e, []);
      StepKeepsRow(s, e, s.calls[c].address);
      assert Run(Step(s, e), []) == Step(s, e);
      hide RowSettled, IsHexId, Normalize, Run;
      assert Step(s, e).store[s.calls[c].address] == row;
      assert Step(s, e).calls[c].phase == Done(Found(s.calls[c].phase.lookup.id, None), Alone);
    }
  }

  lemma HitIsSaved(s: State, c: Call, id: string) returns (events: seq<Event>)
    requires c in s.calls && s.calls[c].phase == Looking(AskingIndexer) && IsHexId(id)
    ensures Run(s, events) == s.(store := s.store[s.calls[c].address := id],
                                 calls := s.calls[c := s.calls[c].(phase := Done(Found(id, None), Alone))])
  {
    HexIdIsPlain(id);
    assert id != "";
    assert Run(s, []) == s;
    hide Run, IsHexId, Normalize;
    events := Then(s, [], CallLookup(c, IndexerReplied(Some(id))));
    events := Then(s, events, CallLookup(c, HitSaved(true)));
  }

  /** Without a row, two new calls may be told two managers. */
  lemma MissingRowDisagrees(s: State, address: string, id: string, other: string) returns (events: seq<Event>)
    requires address !in s.store && IsHexId(id) && IsHexId(other) && id != other
    ensures !Agreed(Run(s, events), address)
  {
    hide Run, IsHexId;
    var e1, c := NewCallReads(s, address);
    var s1 := Run(s, e1);
    var e2, d := NewCallReads(s1, address);
    var s2 := Run(s1, e2);
    var e3 := HitIsSaved(s2, c, id);
    var s3 := Run(s2, e3);
    var e4 := HitIsSaved(s3, d, other);
    RunInParts(s, e1, e2);
    RunInParts(s, e1 + e2, e3);
    RunInParts(s, e1 + e2 + e3, e4);
    events := e1 + e2 + e3 + e4;
    assert Run(s3, e4).calls[c].phase == Done(Found(id, None), Alone);
    assert Run(s3, e4).store[address] == other;
  }

  /** From any state of the service: all replies, now and later, name the row exactly when the replies are settled. */
  lemma AgreedExactlyWhenSettled(s: State, address: string, id: string, other: string)
    requires Inv(s) && IsHexId(id) && IsHexId(other) && id != other
    ensures (forall events :: Agreed(Run(s, events), address)) <==> RepliesSettled(s, address)
  {
    hide Run, IsHexId, Inv, WorkNames, CallNames;
    if RepliesSettled(s, address) {
      forall events ensures Agreed(Run(s, events), address) {
        RunKeepsReplies(s, events, address);
        SettledIsAgreed(Run(s, events), address);
      }
    } else if address !in s.store {
      var events := MissingRowDisagrees(s, address, id, other);
    } else if !RowSettled(s, address) {
      var events := MovingRowDisagrees(s, address, if id == s.store[address] then other else id);
    } else if c :| c in s.calls && s.calls[c].address == address && !CallNames(s.store[address], s.calls[c].phase) {
      var events := OffCallDisagrees(s, c);
    } else {
      var w :| w in s.works && s.works[w].address == address && !WorkNames(s.store[address], s.works[w].phase);
      var events := OffWorkDisagrees(s, w);
    }
  }

  lemma SettledIsAgreed(s: State, address: string)
    requires RepliesSettled(s, address)
    ensures Agreed(s, address)
  {
    assert address in s.store by { hide CallNames, WorkNames; }
  }

  /** From start-up: all replies for an address will name one manager exactly when its row is already stored. */
  lemma AgreedExactlyWhenStored(s: State, address: string, id: string, other: string)
    requires Initial(s) && IsHexId(id) && IsHexId(other) && id != other
    ensures (forall events :: Agreed(Run(s, events), address)) <==> address in s.store
  {
    assert Inv(s);
    hide IsHexId, Run;
    AgreedExactlyWhenSettled(s, address, id, other);
  }

  // ---- runs without indexer hits -------------------------------------------

  ghost predicate AgreedInv(s: State, address: string) {
    && Agreed(s, address)
    && (forall c :: c in s.calls && s.calls[c].address == address && s.calls[c].phase.Looking? ==>
          !s.calls[c].phase.lookup.SavingHit?)
    && (forall w :: w in s.works && s.works[w].address == address ==> WorkAgrees(s.store, address, s.works[w].phase))
  }

  predicate WorkAgrees(store: Store, address: string, p: WorkPhase) {
    && (PastStore(p) ==> address !in store)
    && (p.Rechecking? ==> !p.lookup.SavingHit?)
    && (p.Saving? ==> IsHexId(p.id))
    && (p.Settled? && Names(p.reply) ==> address in store && store[address] == p.reply.id)
  }

  lemma LookupFrame(store: Store, of: string, lookup: Lookup, e: LookupEvent, address: string)
    requires of == address ==> !lookup.SavingHit? && !(e.IndexerReplied? && e.hit.Some?)
    ensures var (after, progress) := LookupStep(store, of, lookup, e);
            && SameRowIn(store, after, address)
            && (of == address && progress.Hit? ==> address in store && progress.id == store[address])
            && (of == address && progress.Miss? ==> lookup.AskingIndexer?)
            && (of == address && progress.Going? ==>
                  !progress.lookup.SavingHit? && (progress.lookup == lookup || address !in store))
  {
    hide IsHexId, Normalize;
  }

  ghost predicate SameRowIn(before: Store, after: Store, address: string) {
    (address in before <==> address in after) && (address in before ==> after[address] == before[address])
  }

  lemma SameRowAgrees(before: Store, after: Store, address: string)
    requires SameRowIn(before, after, address)
    ensures forall p :: WorkAgrees(before, address, p) <==> WorkAgrees(after, address, p)
  {
    hide IsHexId;
  }

  predicate CallAgrees(store: Store, address: string, p: CallPhase) {
    && (p.Looking? ==> !p.lookup.SavingHit?)
    && (p.Done? && Names(p.reply) ==> address in store && store[address] == p.reply.id)
  }

  lemma MoveCallAgrees(s: State, store: Store, c: Call, phase: CallPhase, address: string)
    requires AgreedInv(s, address) && c in s.calls && SameRowIn(s.store, store, address)
    requires s.calls[c].address == address ==> CallAgrees(s.store, address, phase)
    ensures AgreedInv(SetCall(s.(store := store), c, phase), address)
  {
    SameRowAgrees(s.store, store, address);
    hide WorkAgrees;
  }

  lemma MoveWorkAgrees(s: State, store: Store, w: Call, phase: WorkPhase, address: string)
    requires AgreedInv(s, address) && w in s.works && SameRowIn(s.store, store, address)
    requires s.works[w].address == address ==> WorkAgrees(s.store, address, phase)
    ensures AgreedInv(SetWork(s.(store := store), w, phase), address)
  {
    SameRowAgrees(s.store, store, address);
    hide WorkAgrees;
  }

  lemma CallLookupAgrees(s: State, c: Call, e: LookupEvent, address: string)
    requires AgreedInv(s, address) && c in s.calls && s.calls[c].phase.Looking?
    requires !HitFor(s, CallLookup(c, e), address)
    ensures AgreedInv(CallLookupStep(s, c, s.calls[c].phase.lookup, e), address)
  {
    var lookup := s.calls[c].phase.lookup;
    LookupFrame(s.store, s.calls[c].address, lookup, e, address);
    var (store, progress) := LookupStep(s.store, s.calls[c].address, lookup, e);
    hide LookupStep, AgreedInv, SetCall, SameRowIn;
    match progress
    case Going(next) => MoveCallAgrees(s, store, c, Looking(next), address);
    case Hit(id) => MoveCallAgrees(s, store, c, Done(Found(id, None), Alone), address);
    case Miss => MoveCallAgrees(s, store, c, Authorizing, address);
    case Threw => MoveCallAgrees(s, store, c, Done(Failed, Alone), address);
  }

  lemma WorkLookupAgrees(s: State, w: Call, e: LookupEvent, ready: bool, address: string)
    requires AgreedInv(s, address) && w in s.works && s.works[w].phase.Rechecking?
    requires !HitFor(s, WorkLookup(w, e, ready), address)
    ensures AgreedInv(WorkLookupStep(s, w, s.works[w].phase.lookup, e, ready), address)
  {
    var lookup := s.works[w].phase.lookup;
    assert s.works[w].address == address ==> WorkAgrees(s.store, address, s.works[w].phase);
    LookupFrame(s.store, s.works[w].address, lookup, e, address);
    var (store, progress) := LookupStep(s.store, s.works[w].address, lookup, e);
    hide LookupStep, AgreedInv, SetWork, SameRowIn, IsHexId;
    match progress
    case Going(next) => MoveWorkAgrees(s, store, w, Rechecking(next), address);
    case Hit(id) => MoveWorkAgrees(s, store, w, Settled(Found(id, s.works[w].auth)), address);
    case Miss => MoveWorkAgrees(s, store, w, if ready then Executing else Settled(Failed), address);
    case Threw => MoveWorkAgrees(s, store, w, Settled(Failed), address);
  }

  lemma CreationElsewhereAgrees(s: State, w: Call, ok: bool, address: string)
    requires AgreedInv(s, address) && w in s.works && s.works[w].phase.Saving? && s.works[w].address != address
    ensures AgreedInv(CreationSavedStep(s, w, s.works[w].phase.id, ok), address)
  {
    var t := CreationSavedStep(s, w, s.works[w].phase.id, ok);
    MoveWorkAgrees(s, t.store, w, t.works[w].phase, address);
    hide IsHexId, Normalize, WorkAgrees;
  }

  /** The row appears only now: nothing was handed out for the address before. */
  lemma NothingNamedYet(s: State, w: Call, v: Call)
    requires w in s.works && s.works[w].phase.Saving? && LocksInv(s) && AgreedInv(s, s.works[w].address)
    requires v in s.works && s.works[v].address == s.works[w].address && v != w
    ensures s.works[v].phase.Settled? && !Names(s.works[v].phase.reply)
  {
    if InFlight(s, v) { SoleWork(s, v, w); }
    hide LocksInv, IsHexId;
    assert WorkAgrees(s.store, s.works[w].address, s.works[w].phase);
    assert WorkAgrees(s.store, s.works[w].address, s.works[v].phase);
  }

  lemma CreationAgrees(s: State, w: Call, ok: bool)
    requires Inv(s) && w in s.works && s.works[w].phase.Saving? && AgreedInv(s, s.works[w].address)
    ensures AgreedInv(CreationSavedStep(s, w, s.works[w].phase.id, ok), s.works[w].address)
  {
    var address, id := s.works[w].address, s.works[w].phase.id;
    assert WorkAgrees(s.store, address, s.works[w].phase);
    HexIdIsPlain(id);
    forall v | v in s.works && s.works[v].address == address && v != w
      ensures s.works[v].phase.Settled? && !Names(s.works[v].phase.reply)
    {
      NothingNamedYet(s, w, v);
    }
    hide IsHexId, Normalize, Inv, LocksInv, RepliesInv, CreationsInv;
    if !ok {
      assert s.(store := s.store) == s;
      MoveWorkAgrees(s, s.store, w, Settled(Failed), address);
    }
  }

  lemma CreationSavedAgrees(s: State, w: Call, ok: bool, address: string)
    requires Inv(s) && AgreedInv(s, address) && w in s.works && s.works[w].phase.Saving?
    ensures AgreedInv(CreationSavedStep(s, w, s.works[w].phase.id, ok), address)
  {
    hide Inv, AgreedInv, CreationSavedStep;
    if s.works[w].address == address {
      CreationAgrees(s, w, ok);
    } else {
      CreationElsewhereAgrees(s, w, ok, address);
    }
  }

  lemma ResumedAgrees(s: State, c: Call, address: string)
    requires Inv(s) && AgreedInv(s, address) && c in s.calls
    ensures AgreedInv(ResumedStep(s, c), address)
  {
    hide CreationsInv, IsHexId;
  }

  lemma AuthorizedAgrees(s: State, c: Call, ok: bool, token: Option<string>, address: string)
    requires AgreedInv(s, address) && c in s.calls && s.calls[c].phase.Authorizing?
    ensures AgreedInv(AuthorizedStep(s, c, ok, token), address)
  {
    hide IsHexId;
  }

  /** Steps that leave the store alone and hand out no id. */
  lemma QuietStepAgrees(s: State, e: Event, address: string)
    requires AgreedInv(s, address) && CanonicalId(e)
    requires e.Arrive? || e.Authorized? || e.Executed? || e.Inspected?
    ensures AgreedInv(Step(s, e), address)
  {
    hide IsHexId, CallLookupStep, WorkLookupStep, ResumedStep, CreationSavedStep, AuthorizedStep;
    if e.Authorized? && e.call in s.calls && s.calls[e.call].phase.Authorizing? {
      AuthorizedAgrees(s, e.call, e.ok, e.token, address);
    }
  }

  lemma StepKeepsAgreed(s: State, e: Event, address: string)
    requires Inv(s) && AgreedInv(s, address) && !HitFor(s, e, address) && CanonicalId(e)
    ensures AgreedInv(Step(s, e), address)
  {
    hide Inv, AgreedInv, CallLookupStep, WorkLookupStep, ResumedStep, CreationSavedStep;
    match e
    case CallLookup(c, le) => if c in s.calls && s.calls[c].phase.Looking? { CallLookupAgrees(s, c, le, address); }
    case WorkLookup(w, le, ready) =>
      if w in s.works && s.works[w].phase.Rechecking? { WorkLookupAgrees(s, w, le, ready, address); }
    case CreationSaved(w, ok) => if w in s.works && s.works[w].phase.Saving? { CreationSavedAgrees(s, w, ok, address); }
    case Resumed(c) => if c in s.calls { ResumedAgrees(s, c, address); }
    case _ => QuietStepAgrees(s, e, address);
  }

  /** While the indexer knows no manager for an address, all replies for it name the one in its row. */
  lemma {:induction false} RepliesAgreeWithoutHits(s: State, events: seq<Event>, address: string)
    requires Initial(s)
    requires forall i :: 0 <= i < |events| ==>
               !HitFor(Run(s, events[..i]), events[i], address) && CanonicalId(events[i])
    ensures AgreedInv(Run(s, events), address)
  {
    if events != [] {
      var n := |events| - 1;
      forall i | 0 <= i < n ensures events[..n][..i] == events[..i] {}
      RepliesAgreeWithoutHits(s, events[..n], address);
      RunKeepsInv(s, events[..n]);
      StepKeepsAgreed(Run(s, events[..n]), events[n], address);
    }
  }

  /** Two calls for one address: call 1 leads a work, call 2 still looks the address up or is done. */
  function Race(store: Store, address: string, call1: CallPhase, call2: CallPhase, work: WorkPhase): State {
    State(store, map[address := 1],
          map[1 := CallState(address, call1), 2 := CallState(address, call2)],
          map[1 := WorkState(address, None, work)], [],
          if work.Inspecting? || work.Saving? then {1} else {})
  }

  lemma RaceMoves(store: Store, address: string, call1: CallPhase, call2: CallPhase, work: WorkPhase,
                  next2: CallPhase, next: WorkPhase)
    ensures SetCall(Race(store, address, call1, call2, work), 2, next2) == Race(store, address, call1, next2, work)
    ensures var moved := Race(store, address, call1, call2, next);
            SetWork(Race(store, address, call1, call2, work), 1, next).(onChain := moved.onChain) == moved
  {}

  lemma Overtaken(s: State, address: string) returns (events: seq<Event>)
    requires Initial(s) && address !in s.store
    ensures Run(s, events) == s.(calls := map[1 := CallState(address, Authorizing),
                                              2 := CallState(address, Looking(AskingIndexer))])
  {
    assert Run(s, []) == s;
    hide Run, ResumedStep, CreationSavedStep, ExecutedStep, WorkLookupStep, AuthorizedStep;
    events := Then(s, [], Arrive(2, address));
    events := Then(s, events, CallLookup(2, StoreRead(true)));
    assert Run(s, events) == s.(calls := map[2 := CallState(address, Looking(AskingIndexer))]);
    events := Then(s, events, Arrive(1, address));
    events := Then(s, events, CallLookup(1, StoreRead(true)));
    events := Then(s, events, CallLookup(1, IndexerReplied(None)));
  }

  lemma LeaderStarts(s: State, address: string) returns (events: seq<Event>)
    requires Initial(s) && address !in s.store
    ensures Run(s, events) == Race(s.store, address, Leading, Looking(AskingIndexer), Rechecking(ReadingStore))
  {
    events := Overtaken(s, address);
    hide Run, Initial, ResumedStep, CreationSavedStep, ExecutedStep, CallLookupStep, WorkLookupStep;
    events := Then(s, events, Authorized(1, true, None));
  }

  /** Call 1 leads and is about to create, while call 2 still waits for the indexer. */
  lemma LeaderOvertakes(s: State, address: string) returns (events: seq<Event>)
    requires Initial(s) && address !in s.store
    ensures Run(s, events) == Race(s.store, address, Leading, Looking(AskingIndexer), Executing)
  {
    events := LeaderStarts(s, address);
    hide Initial, AuthorizedStep, ResumedStep, CreationSavedStep, ExecutedStep, CallLookupStep;
    var waiting := Looking(AskingIndexer);
    RaceMoves(s.store, address, Leading, waiting, Rechecking(ReadingStore), waiting, Rechecking(AskingIndexer));
    RaceMoves(s.store, address, Leading, waiting, Rechecking(AskingIndexer), waiting, Executing);
    hide Run, SetWork;
    events := Then(s, events, WorkLookup(1, StoreRead(true), true));
    events := Then(s, events, WorkLookup(1, IndexerReplied(None), true));
  }

  lemma HitSlipsIn(s: State, address: string, indexed: string) returns (events: seq<Event>)
    requires Initial(s) && address !in s.store && IsHexId(indexed)
    ensures Run(s, events) == Race(s.store[address := indexed], address, Leading,
                                   Done(Found(indexed, None), Alone), Executing)
  {
    events := LeaderOvertakes(s, address);
    hide Run, IsHexId, Initial;
    var t := Run(s, events);
    var hit := HitIsSaved(t, 2, indexed);
    RunInParts(s, events, hit);
    events := events + hit;
  }

  lemma CreationGoesOn(s: State, address: string, indexed: string, created: string) returns (events: seq<Event>)
    requires Initial(s) && address !in s.store && IsHexId(indexed) && created != ""
    ensures Run(s, events)
         == Race(s.store[address := indexed], address, Leading, Done(Found(indexed, None), Alone), Saving(created))
  {
    events := HitSlipsIn(s, address, indexed);
    var rows, served := s.store[address := indexed], Done(Found(indexed, None), Alone);
    RaceMoves(rows, address, Leading, served, Executing, served, Inspecting);
    RaceMoves(rows, address, Leading, served, Inspecting, served, Saving(created));
    hide Run, SetWork, IsHexId;
    events := Then(s, events, Executed(1, true));
    events := Then(s, events, Inspected(1, Some(created)));
  }

  /**
   Without that, they need not: the indexer names `indexed` to the second call between the recheck of the first
   call's work and its creation, whose row then replaces the indexed one.
   */
  lemma RepliesMayDisagree(s: State, address: string, indexed: string, created: string) returns (events: seq<Event>)
    requires Initial(s) && address !in s.store
    requires IsHexId(indexed) && IsHexId(created) && indexed != created
    ensures var t := Run(s, events);
            && 1 in t.calls && t.calls[1] == CallState(address, Done(Created(created, None), Led))
            && 2 in t.calls && t.calls[2] == CallState(address, Done(Found(indexed, None), Alone))
            && address in t.store && t.store[address] == created
            && !Agreed(t, address)
  {
    HexIdIsPlain(created);
    events := CreationGoesOn(s, address, indexed, created);
    hide Run, IsHexId, Normalize, Initial, AuthorizedStep, ExecutedStep, WorkLookupStep, CallLookupStep;
    var served := Done(Found(indexed, None), Alone);
    events := Then(s, events, CreationSaved(1, true));
    var t := Run(s, events);
    assert t.calls == map[1 := CallState(address, Leading), 2 := CallState(address, served)];
    assert t.works == map[1 := WorkState(address, None, Settled(Created(created, None)))];
    assert t.store == s.store[address := indexed][address := created];
    hide CreationSavedStep;
    events := Then(s, events, Resumed(1));
  }
}
