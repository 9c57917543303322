/**
 createOrGetManager of manager.service.ts as interleaved steps. A call runs without interruption between two
 awaits, so every event below is one such stretch; a sequence of events is one interleaving of any number of
 calls, with any outcome of the store, the indexer and the chain. An event that is not due changes nothing.
 */
module ManagerCreation {
  import opened JsBasics
  import opened JsText

  /** A call of createOrGetManager; the work it starts, if any, carries the same number. */
  type Call = nat

  type Store = map<string, string>

  /** `auth` is the session token issued to the call that led the work; a reply found by a call alone has none. */
  datatype Reply = Found(id: string, auth: Option<string>) | Created(id: string, auth: Option<string>) | Failed

  predicate Names(reply: Reply) { !reply.Failed? }

  /** Where resolveManagerId stands. */
  datatype Lookup = ReadingStore | AskingIndexer | SavingHit(id: string)

  datatype LookupEvent = StoreRead(ok: bool) | IndexerReplied(hit: Option<string>) | HitSaved(ok: bool)

  datatype Progress = Going(lookup: Lookup) | Hit(id: string) | Miss | Threw

  /** How a finished call came by its reply. */
  datatype Via = Alone | Led | Joined(leader: Call)

  datatype CallPhase =
    | Looking(lookup: Lookup)
    | Authorizing
    | Leading
    | Joining(leader: Call)
    | Done(reply: Reply, via: Via)

  datatype CallState = CallState(address: string, phase: CallPhase)

  datatype WorkPhase = Rechecking(lookup: Lookup) | Executing | Inspecting | Saving(id: string) | Settled(reply: Reply)

  /** `auth` is what the authorization of the call that started the work yielded. */
  datatype WorkState = WorkState(address: string, auth: Option<string>, phase: WorkPhase)

  datatype Creation = Creation(address: string, id: string, work: Call)

  /**
   `creations` logs the creations that reached the store, oldest first; `onChain` the works whose creating
   transaction was executed.
   */
  datatype State = State(store: Store, locks: map<string, Call>, calls: map<Call, CallState>,
                         works: map<Call, WorkState>, creations: seq<Creation>, onChain: set<Call>)

  datatype Event =
    | Arrive(call: Call, address: string)
    | CallLookup(call: Call, event: LookupEvent)
    | Authorized(call: Call, ok: bool, token: Option<string>)
    | Resumed(call: Call)
    | WorkLookup(call: Call, event: LookupEvent, keeperReady: bool)
    | Executed(call: Call, ok: bool)
    | Inspected(call: Call, id: Option<string>)
    | CreationSaved(call: Call, ok: bool)

  // ---- steps ---------------------------------------------------------------

  /** UserManagerRepository.set: ids are normalised, anything but an object id is silently dropped. */
  function Save(store: Store, address: string, id: string): Store {
    if IsHexId(Normalize(id)) then store[address := Normalize(id)] else store
  }

  function LookupStep(store: Store, address: string, lookup: Lookup, e: LookupEvent): (Store, Progress) {
    match (lookup, e)
    case (ReadingStore, StoreRead(ok)) =>
      if !ok then (store, Threw)
      else if address in store then (store, Hit(store[address]))
      else (store, Going(AskingIndexer))
    case (AskingIndexer, IndexerReplied(hit)) =>
      if hit.Some? && hit.value != "" then (store, Going(SavingHit(hit.value))) else (store, Miss)
    case (SavingHit(id), HitSaved(ok)) =>
      if ok then (Save(store, address, id), Hit(id)) else (store, Miss)
    case _ => (store, Going(lookup))
  }

  function SetCall(s: State, c: Call, phase: CallPhase): State
    requires c in s.calls
  { s.(calls := s.calls[c := s.calls[c].(phase := phase)]) }

  function SetWork(s: State, w: Call, phase: WorkPhase): State
    requires w in s.works
  { s.(works := s.works[w := s.works[w].(phase := phase)]) }

  function CallLookupStep(s: State, c: Call, lookup: Lookup, e: LookupEvent): State
    requires c in s.calls
  {
    var (store, progress) := LookupStep(s.store, s.calls[c].address, lookup, e);
    var t := s.(store := store);
    match progress
    case Going(next) => SetCall(t, c, Looking(next))
    case Hit(id) => SetCall(t, c, Done(Found(id, None), Alone))
    case Miss => SetCall(t, c, Authorizing)
    case Threw => SetCall(t, c, Done(Failed, Alone))
  }

  /** After authorization, in one stretch: join the work in flight, or start one and lock the address. */
  function AuthorizedStep(s: State, c: Call, ok: bool, token: Option<string>): State
    requires c in s.calls
  {
    var address := s.calls[c].address;
    if !ok then SetCall(s, c, Done(Failed, Alone))
    else if address in s.locks then SetCall(s, c, Joining(s.locks[address]))
    else
      SetCall(s, c, Leading).(
        works := s.works[c := WorkState(address, token, Rechecking(ReadingStore))],
        locks := s.locks[address := c])
  }

  function WorkLookupStep(s: State, w: Call, lookup: Lookup, e: LookupEvent, keeperReady: bool): State
    requires w in s.works
  {
    var (store, progress) := LookupStep(s.store, s.works[w].address, lookup, e);
    var t := s.(store := store);
    match progress
    case Going(next) => SetWork(t, w, Rechecking(next))
    case Hit(id) => SetWork(t, w, Settled(Found(id, s.works[w].auth)))
    case Miss => SetWork(t, w, if keeperReady then Executing else Settled(Failed))
    case Threw => SetWork(t, w, Settled(Failed))
  }

  function CreationSavedStep(s: State, w: Call, id: string, ok: bool): State
    requires w in s.works
  {
    if !ok then SetWork(s, w, Settled(Failed))
    else
      var address := s.works[w].address;
      SetWork(s, w, Settled(Created(id, s.works[w].auth))).(
        store := Save(s.store, address, id),
        creations := if IsHexId(Normalize(id)) then s.creations + [Creation(address, Normalize(id), w)]
                      else s.creations)
  }

  /** The creating transaction was executed, or its execution threw. */
  function ExecutedStep(s: State, w: Call, ok: bool): State
    requires w in s.works
  {
    if ok then SetWork(s, w, Inspecting).(onChain := s.onChain + {w}) else SetWork(s, w, Settled(Failed))
  }

  /** The work that a call awaits has settled; a leader releases the lock, whatever the outcome. */
  function ResumedStep(s: State, c: Call): State
    requires c in s.calls
  {
    match s.calls[c].phase
    case Leading =>
      if c in s.works && s.works[c].phase.Settled?
      then SetCall(s, c, Done(s.works[c].phase.reply, Led)).(locks := s.locks - {s.calls[c].address})
      else s
    case Joining(w) =>
      if w in s.works && s.works[w].phase.Settled? then SetCall(s, c, Done(s.works[w].phase.reply, Joined(w))) else s
    case _ => s
  }

  function Step(s: State, e: Event): State {
    match e
    case Arrive(c, address) =>
      if c in s.calls then s else s.(calls := s.calls[c := CallState(address, Looking(ReadingStore))])
    case CallLookup(c, le) =>
      if c in s.calls && s.calls[c].phase.Looking? then CallLookupStep(s, c, s.calls[c].phase.lookup, le) else s
    case Authorized(c, ok, token) =>
      if c in s.calls && s.calls[c].phase.Authorizing? then AuthorizedStep(s, c, ok, token) else s
    case Resumed(c) => if c in s.calls then ResumedStep(s, c) else s
    case WorkLookup(w, le, ready) =>
      if w in s.works && s.works[w].phase.Rechecking?
      then WorkLookupStep(s, w, s.works[w].phase.lookup, le, ready) else s
    case Executed(w, ok) =>
      if w in s.works && s.works[w].phase.Executing? then ExecutedStep(s, w, ok) else s
    case Inspected(w, id) =>
      if w in s.works && s.works[w].phase.Inspecting?
      then SetWork(s, w, if id.Some? && id.value != "" then Saving(id.value) else Settled(Failed)) else s
    case CreationSaved(w, ok) =>
      if w in s.works && s.works[w].phase.Saving? then CreationSavedStep(s, w, s.works[w].phase.id, ok) else s
  }

  /** The same stretches as the service runs them, on its own fields and the calls suspended at an await. */
  class ManagerService {
    var managers: Store
    var creationLocks: map<string, Call>
    var calls: map<Call, CallState>
    var works: map<Call, WorkState>
    ghost var creations: seq<Creation>
    ghost var onChain: set<Call>

    ghost function Current(): State
      reads this
    { State(managers, creationLocks, calls, works, creations, onChain) }

    constructor (managers: Store)
      ensures Current() == State(managers, map[], map[], map[], [], {})
    {
      this.managers, creationLocks, calls, works, creations, onChain := managers, map[], map[], map[], [], {};
    }

    // The lookup of a call, one method for each await of resolveManagerId.

    method LookupReadsStore(call: Call, ok: bool)
      requires call in calls && calls[call].phase == Looking(ReadingStore)
      modifies this
      ensures Current() == Step(old(Current()), CallLookup(call, StoreRead(ok)))
    {
      var address := calls[call].address;
      if !ok {
        Suspend(call, Done(Failed, Alone));
      } else if address in managers {
        Suspend(call, Done(Found(managers[address], None), Alone));
      } else {
        Suspend(call, Looking(AskingIndexer));
      }
    }

    method LookupAsksIndexer(call: Call, hit: Option<string>)
      requires call in calls && calls[call].phase == Looking(AskingIndexer)
      modifies this
      ensures Current() == Step(old(Current()), CallLookup(call, IndexerReplied(hit)))
    {
      if hit.None? || hit.value == "" {
        Suspend(call, Authorizing);
      } else {
        Suspend(call, Looking(SavingHit(hit.value)));
      }
    }

    method LookupSavesHit(call: Call, ok: bool)
      requires call in calls && calls[call].phase.Looking? && calls[call].phase.lookup.SavingHit?
      modifies this
      ensures Current() == Step(old(Current()), CallLookup(call, HitSaved(ok)))
    {
      var id := calls[call].phase.lookup.id;
      if ok {
        StoreId(calls[call].address, id);
        Suspend(call, Done(Found(id, None), Alone));
      } else {
        Suspend(call, Authorizing);
      }
    }

    /** From authorization to the next await. */
    method AfterAuthorization(call: Call, ok: bool, token: Option<string>)
      requires call in calls && calls[call].phase.Authorizing?
      modifies this
      ensures Current() == Step(old(Current()), Authorized(call, ok, token))
    {
      var address := calls[call].address;
      if !ok {
        Suspend(call, Done(Failed, Alone));
        return;
      }
      if address in creationLocks {
        Suspend(call, Joining(creationLocks[address]));
        return;
      }
      works := works[call := WorkState(address, token, Rechecking(ReadingStore))];
      creationLocks := creationLocks[address := call];
      Suspend(call, Leading);
    }

    /** The leader's `finally` block and reply. */
    method LeaderResumes(call: Call)
      requires call in calls && calls[call].phase.Leading? && call in works && works[call].phase.Settled?
      modifies this
      ensures Current() == Step(old(Current()), Resumed(call))
    {
      creationLocks := creationLocks - {calls[call].address};
      Suspend(call, Done(works[call].phase.reply, Led));
    }

    /** A call that awaited another call's work gets that work's response. */
    method JoinerResumes(call: Call)
      requires call in calls && calls[call].phase.Joining?
      requires calls[call].phase.leader in works && works[calls[call].phase.leader].phase.Settled?
      modifies this
      ensures Current() == Step(old(Current()), Resumed(call))
    {
      var leader := calls[call].phase.leader;
      Suspend(call, Done(works[leader].phase.reply, Joined(leader)));
    }

    // The work itself: the recheck, again one method for each await, then the creation.

    method RecheckReadsStore(work: Call, ok: bool, keeperReady: bool)
      requires work in works && works[work].phase == Rechecking(ReadingStore)
      modifies this
      ensures Current() == Step(old(Current()), WorkLookup(work, StoreRead(ok), keeperReady))
    {
      var address := works[work].address;
      if !ok {
        Continue(work, Settled(Failed));
      } else if address in managers {
        Continue(work, Settled(Found(managers[address], works[work].auth)));
      } else {
        Continue(work, Rechecking(AskingIndexer));
      }
    }

    method RecheckAsksIndexer(work: Call, hit: Option<string>, keeperReady: bool)
      requires work in works && works[work].phase == Rechecking(AskingIndexer)
      modifies this
      ensures Current() == Step(old(Current()), WorkLookup(work, IndexerReplied(hit), keeperReady))
    {
      if hit.Some? && hit.value != "" {
        Continue(work, Rechecking(SavingHit(hit.value)));
      } else {
        BeginCreation(work, keeperReady);
      }
    }

    method RecheckSavesHit(work: Call, ok: bool, keeperReady: bool)
      requires work in works && works[work].phase.Rechecking? && works[work].phase.lookup.SavingHit?
      modifies this
      ensures Current() == Step(old(Current()), WorkLookup(work, HitSaved(ok), keeperReady))
    {
      var id := works[work].phase.lookup.id;
      if ok {
        StoreId(works[work].address, id);
        Continue(work, Settled(Found(id, works[work].auth)));
      } else {
        BeginCreation(work, keeperReady);
      }
    }

    method AfterExecution(work: Call, ok: bool)
      requires work in works && works[work].phase.Executing?
      modifies this
      ensures Current() == Step(old(Current()), Executed(work, ok))
    {
      if !ok {
        Continue(work, Settled(Failed));
        return;
      }
      onChain := onChain + {work};
      Continue(work, Inspecting);
    }

    /** The created object is looked up by the transaction's digest. */
    method AfterInspection(work: Call, id: Option<string>)
      requires work in works && works[work].phase.Inspecting?
      modifies this
      ensures Current() == Step(old(Current()), Inspected(work, id))
    {
      if id.None? || id.value == "" {
        Continue(work, Settled(Failed));
      } else {
        Continue(work, Saving(id.value));
      }
    }

    /** The repository answers the set after a creation. */
    method AfterCreationSaved(work: Call, ok: bool)
      requires work in works && works[work].phase.Saving?
      modifies this
      ensures Current() == Step(old(Current()), CreationSaved(work, ok))
    {
      var address, id := works[work].address, works[work].phase.id;
      if !ok {
        Continue(work, Settled(Failed));
        return;
      }
      StoreId(address, id);
      if IsHexId(Normalize(id)) {
        creations := creations + [Creation(address, Normalize(id), work)];
      }
      Continue(work, Settled(Created(id, works[work].auth)));
    }

    method Suspend(call: Call, phase: CallPhase)
      requires call in calls
      modifies this`calls
      ensures calls == old(calls)[call := CallState(old(calls)[call].address, phase)]
    {
      calls := calls[call := CallState(calls[call].address, phase)];
    }

    method Continue(work: Call, phase: WorkPhase)
      requires work in works
      modifies this`works
      ensures works == old(works)[work := WorkState(old(works)[work].address, old(works)[work].auth, phase)]
    {
      works := works[work := WorkState(works[work].address, works[work].auth, phase)];
    }

    /** assertKeeperReady, up to the execution of the transaction. */
    method BeginCreation(work: Call, keeperReady: bool)
      requires work in works
      modifies this`works
      ensures var phase := if keeperReady then Executing else Settled(Failed);
              works == old(works)[work := old(works)[work].(phase := phase)]
    {
      if keeperReady {
        Continue(work, Executing);
      } else {
        Continue(work, Settled(Failed));
      }
    }

    /** UserManagerRepository.set */
    method StoreId(address: string, id: string)
      modifies this`managers
      ensures managers == Save(old(managers), address, id)
    {
      if IsHexId(Normalize(id)) {
        managers := managers[address := Normalize(id)];
      }
    }
  }

  function Run(s: State, events: seq<Event>): State {
    if events == [] then s else Step(Run(s, events[..|events| - 1]), events[|events| - 1])
  }

  lemma Then(s: State, events: seq<Event>, e: Event) returns (longer: seq<Event>)
    ensures longer == events + [e] && Run(s, longer) == Step(Run(s, events), e)
  {
    longer := events + [e];
    assert longer[..|events|] == events;
  }

  lemma {:induction false} RunInParts(s: State, first: seq<Event>, rest: seq<Event>)
    ensures Run(s, first + rest) == Run(Run(s, first), rest)
  {
    hide Step;
    if rest == [] {
      assert first + rest == first;
    } else {
      RunInParts(s, first, rest[..|rest| - 1]);
      assert (first + rest)[..|first + rest| - 1] == first + rest[..|rest| - 1];
    }
  }

  lemma RunOne(s: State, e: Event)
    ensures Run(s, [e]) == Step(s, e)
  {
    assert [e][..0] == [];
    hide Step;
  }

  lemma RunFirst(s: State, e: Event, rest: seq<Event>)
    ensures Run(s, [e] + rest) == Run(Step(s, e), rest)
  {
    RunOne(s, e);
    RunInParts(s, [e], rest);
  }

  /** Call numbers do not run out. */
  lemma {:induction false} NumbersBelow(used: set<Call>) returns (bound: nat)
    ensures forall c :: c in used ==> c < bound
  {
    if used == {} {
      bound := 0;
    } else {
      var c :| c in used;
      var below := NumbersBelow(used - {c});
      assert forall d :: d in used ==> d == c || d in used - {c};
      bound := Max(below, c + 1);
    }
  }

  lemma StepKeepsDone(s: State, e: Event, c: Call)
    requires c in s.calls && s.calls[c].phase.Done?
    ensures c in Step(s, e).calls && Step(s, e).calls[c] == s.calls[c]
  {
    hide LookupStep, IsHexId, Normalize;
  }

  /** A reply, once handed out, is final. */
  lemma {:induction false} RunKeepsDone(s: State, events: seq<Event>, c: Call)
    requires c in s.calls && s.calls[c].phase.Done?
    ensures c in Run(s, events).calls && Run(s, events).calls[c] == s.calls[c]
  {
    if events != [] {
      RunKeepsDone(s, events[..|events| - 1], c);
      StepKeepsDone(Run(s, events[..|events| - 1]), events[|events| - 1], c);
    }
  }

  /** The service at start-up, over rows that earlier runs stored. */
  ghost predicate Initial(s: State) {
    && s.locks == map[] && s.calls == map[] && s.works == map[] && s.creations == [] && s.onChain == {}
    && forall a :: a in s.store ==> IsHexId(s.store[a])
  }

  // ---- what every step keeps -----------------------------------------------

  /** A lock is held exactly by the call that leads, and its work is the one in flight. */
  ghost predicate LocksInv(s: State) {
    && (forall a :: a in s.locks ==> s.locks[a] in s.calls && s.calls[s.locks[a]] == CallState(a, Leading))
    && (forall c :: c in s.calls && s.calls[c].phase.Leading? ==>
          c in s.works && s.calls[c].address in s.locks && s.locks[s.calls[c].address] == c)
    && (forall w :: w in s.works ==>
          && w in s.calls && s.calls[w].address == s.works[w].address
          && (s.calls[w].phase.Leading?
              || (s.works[w].phase.Settled? && s.calls[w].phase == Done(s.works[w].phase.reply, Led))))
  }

  /** The work ended with this reply. */
  ghost predicate SettledWith(s: State, w: Call, address: string, reply: Reply) {
    w in s.works && s.works[w].address == address && s.works[w].phase == Settled(reply)
  }

  /** Replies handed out belong to the settled work that produced them, and carry the token of its leader. */
  ghost predicate RepliesInv(s: State) {
    && (forall c :: c in s.calls ==>
          match s.calls[c].phase
          case Joining(w) => w in s.works && s.works[w].address == s.calls[c].address
          case Done(reply, Joined(w)) => SettledWith(s, w, s.calls[c].address, reply)
          case Done(reply, Led) => SettledWith(s, c, s.calls[c].address, reply)
          case _ => true)
    && (forall w :: w in s.works ==> OwnToken(s.works[w]))
  }

  predicate OwnToken(w: WorkState) {
    w.phase.Settled? && Names(w.phase.reply) ==> w.phase.reply.auth == w.auth
  }

  /** The work has seen the store without a row for its address. */
  predicate PastStore(p: WorkPhase) {
    !p.Settled? && !(p.Rechecking? && p.lookup.ReadingStore?)
  }

  ghost predicate CreatedFor(creations: seq<Creation>, address: string) {
    exists i :: 0 <= i < |creations| && creations[i].address == address
  }

  /** Nobody creates for an address that already has a stored creation. */
  ghost predicate CreationsInv(s: State) {
    && (forall i :: 0 <= i < |s.creations| ==> s.creations[i].address in s.store)
    && (forall i, j :: 0 <= i < j < |s.creations| ==> s.creations[i].address != s.creations[j].address)
    && (forall w :: w in s.works && PastStore(s.works[w].phase) ==> !CreatedFor(s.creations, s.works[w].address))
    && (forall w :: w in s.works && s.works[w].phase.Settled? && s.works[w].phase.reply.Created?
                    && IsHexId(Normalize(s.works[w].phase.reply.id)) ==>
          LoggedBy(s.creations, w, s.works[w].address, Normalize(s.works[w].phase.reply.id)))
  }

  ghost predicate LoggedBy(creations: seq<Creation>, w: Call, address: string, id: string) {
    Creation(address, id, w) in creations
  }

  ghost predicate Inv(s: State) { LocksInv(s) && RepliesInv(s) && CreationsInv(s) }

  /** Only works past the store and settled works bear on the creations. */
  lemma CreationsIgnoreCalls(s: State, t: State)
    requires CreationsInv(s)
    requires t.creations == s.creations && s.store.Keys <= t.store.Keys
    requires forall w :: w in t.works ==>
               (w in s.works && t.works[w] == s.works[w]) || t.works[w].phase == Rechecking(ReadingStore)
    ensures CreationsInv(t)
  {
    hide IsHexId, Normalize;
  }

  predicate Unattached(p: CallPhase) { p.Looking? || p.Authorizing? || (p.Done? && p.via.Alone?) }

  lemma MoveCallKeepsLocks(s: State, store: Store, c: Call, phase: CallPhase)
    requires LocksInv(s) && c in s.calls && !s.calls[c].phase.Leading?
    requires !(s.calls[c].phase.Done? && s.calls[c].phase.via.Led?)
    requires !phase.Leading? && !(phase.Done? && phase.via.Led?)
    ensures LocksInv(SetCall(s.(store := store), c, phase))
  {}

  lemma MoveCallKeepsReplies(s: State, store: Store, c: Call, phase: CallPhase)
    requires RepliesInv(s) && c in s.calls
    requires Unattached(phase)
      || (phase.Joining? && phase.leader in s.works && s.works[phase.leader].address == s.calls[c].address)
    ensures RepliesInv(SetCall(s.(store := store), c, phase))
  {}

  /** A call that has no part in any work moves on; rows may be added to the store. */
  lemma MoveCallKeepsInv(s: State, store: Store, c: Call, phase: CallPhase)
    requires Inv(s) && c in s.calls && (s.calls[c].phase.Looking? || s.calls[c].phase.Authorizing?)
    requires Unattached(phase)
      || (phase.Joining? && phase.leader in s.works && s.works[phase.leader].address == s.calls[c].address)
    requires s.store.Keys <= store.Keys
    ensures Inv(SetCall(s.(store := store), c, phase))
  {
    hide LocksInv, RepliesInv, CreationsInv;
    MoveCallKeepsLocks(s, store, c, phase);
    MoveCallKeepsReplies(s, store, c, phase);
    CreationsIgnoreCalls(s, SetCall(s.(store := store), c, phase));
  }

  lemma MoveWorkKeepsLocks(s: State, store: Store, w: Call, phase: WorkPhase)
    requires LocksInv(s) && w in s.works && !s.works[w].phase.Settled?
    ensures LocksInv(SetWork(s.(store := store), w, phase))
  {}

  lemma MoveWorkKeepsReplies(s: State, store: Store, w: Call, phase: WorkPhase)
    requires RepliesInv(s) && w in s.works && !s.works[w].phase.Settled?
    requires OwnToken(s.works[w].(phase := phase))
    ensures RepliesInv(SetWork(s.(store := store), w, phase))
  {}

  lemma MoveWorkKeepsCreations(s: State, store: Store, w: Call, phase: WorkPhase)
    requires CreationsInv(s) && w in s.works && s.store.Keys <= store.Keys
    requires PastStore(phase) ==> !CreatedFor(s.creations, s.works[w].address)
    requires !(phase.Settled? && phase.reply.Created? && IsHexId(Normalize(phase.reply.id)))
    ensures CreationsInv(SetWork(s.(store := store), w, phase))
  {
    hide IsHexId, Normalize;
  }

  /** A work that is not settled moves on; rows may be added to the store. */
  lemma MoveWorkKeepsInv(s: State, store: Store, w: Call, phase: WorkPhase)
    requires Inv(s) && w in s.works && !s.works[w].phase.Settled?
    requires s.store.Keys <= store.Keys
    requires PastStore(phase) ==> !CreatedFor(s.creations, s.works[w].address)
    requires !(phase.Settled? && phase.reply.Created? && IsHexId(Normalize(phase.reply.id)))
    requires OwnToken(s.works[w].(phase := phase))
    ensures Inv(SetWork(s.(store := store), w, phase))
  {
    hide LocksInv, RepliesInv, CreationsInv, SetWork, OwnToken, IsHexId, Normalize;
    MoveWorkKeepsLocks(s, store, w, phase);
    MoveWorkKeepsReplies(s, store, w, phase);
    MoveWorkKeepsCreations(s, store, w, phase);
  }

  lemma CallLookupKeepsInv(s: State, c: Call, lookup: Lookup, e: LookupEvent)
    requires Inv(s) && c in s.calls && s.calls[c].phase == Looking(lookup)
    ensures Inv(CallLookupStep(s, c, lookup, e))
  {
    hide Inv, SetCall;
    var (store, progress) := LookupStep(s.store, s.calls[c].address, lookup, e);
    match progress
    case Going(next) => MoveCallKeepsInv(s, store, c, Looking(next));
    case Hit(id) => MoveCallKeepsInv(s, store, c, Done(Found(id, None), Alone));
    case Miss => MoveCallKeepsInv(s, store, c, Authorizing);
    case Threw => MoveCallKeepsInv(s, store, c, Done(Failed, Alone));
  }

  lemma WorkLookupKeepsInv(s: State, w: Call, lookup: Lookup, e: LookupEvent, ready: bool)
    requires Inv(s) && w in s.works && s.works[w].phase == Rechecking(lookup)
    ensures Inv(WorkLookupStep(s, w, lookup, e, ready))
  {
    var (store, progress) := LookupStep(s.store, s.works[w].address, lookup, e);
    assert progress.Miss? ==> PastStore(s.works[w].phase);
    assert progress.Going? && !lookup.ReadingStore? ==> PastStore(s.works[w].phase);
    assert progress.Going? && lookup.ReadingStore? && progress.lookup != lookup ==> s.works[w].address !in s.store;
    hide LocksInv, RepliesInv, SetWork;
    match progress
    case Going(next) => MoveWorkKeepsInv(s, store, w, Rechecking(next));
    case Hit(id) => MoveWorkKeepsInv(s, store, w, Settled(Found(id, s.works[w].auth)));
    case Miss => MoveWorkKeepsInv(s, store, w, if ready then Executing else Settled(Failed));
    case Threw => MoveWorkKeepsInv(s, store, w, Settled(Failed));
  }

  lemma StartKeepsLocks(s: State, c: Call, token: Option<string>)
    requires LocksInv(s) && c in s.calls && s.calls[c].phase.Authorizing? && s.calls[c].address !in s.locks
    ensures c !in s.works && LocksInv(AuthorizedStep(s, c, true, token))
  {}

  lemma StartKeepsReplies(s: State, c: Call, token: Option<string>)
    requires RepliesInv(s) && c in s.calls && c !in s.works && s.calls[c].address !in s.locks
    ensures RepliesInv(AuthorizedStep(s, c, true, token))
  {}

  /** A new work starts only when its address is not locked, so no other work for it is in flight. */
  lemma StartKeepsInv(s: State, c: Call, token: Option<string>)
    requires Inv(s) && c in s.calls && s.calls[c].phase.Authorizing? && s.calls[c].address !in s.locks
    ensures Inv(AuthorizedStep(s, c, true, token))
  {
    hide LocksInv, RepliesInv, CreationsInv;
    StartKeepsLocks(s, c, token);
    StartKeepsReplies(s, c, token);
    CreationsIgnoreCalls(s, AuthorizedStep(s, c, true, token));
  }

  lemma AuthorizedKeepsInv(s: State, c: Call, ok: bool, token: Option<string>)
    requires Inv(s) && c in s.calls && s.calls[c].phase.Authorizing?
    ensures Inv(AuthorizedStep(s, c, ok, token))
  {
    hide RepliesInv, CreationsInv, SetCall;
    var address := s.calls[c].address;
    assert s.(store := s.store) == s;
    if !ok {
      MoveCallKeepsInv(s, s.store, c, Done(Failed, Alone));
    } else if address in s.locks {
      MoveCallKeepsInv(s, s.store, c, Joining(s.locks[address]));
    } else {
      StartKeepsInv(s, c, token);
    }
  }

  lemma LeaderResumedKeepsLocks(s: State, c: Call)
    requires LocksInv(s) && c in s.calls && s.calls[c].phase.Leading? && s.works[c].phase.Settled?
    ensures LocksInv(ResumedStep(s, c))
  {}

  lemma ResumedKeepsReplies(s: State, c: Call)
    requires LocksInv(s) && RepliesInv(s) && c in s.calls
    ensures RepliesInv(ResumedStep(s, c))
  {}

  /** The leader hands out the reply and releases the lock, which is its own. */
  lemma LeaderResumedKeepsInv(s: State, c: Call)
    requires Inv(s) && c in s.calls && s.calls[c].phase.Leading? && s.works[c].phase.Settled?
    ensures Inv(ResumedStep(s, c))
  {
    LeaderResumedKeepsLocks(s, c);
    ResumedKeepsReplies(s, c);
    hide LocksInv, RepliesInv, CreationsInv;
    CreationsIgnoreCalls(s, ResumedStep(s, c));
  }

  lemma JoinerResumedKeepsInv(s: State, c: Call)
    requires Inv(s) && c in s.calls && s.calls[c].phase.Joining?
    ensures Inv(ResumedStep(s, c))
  {
    ResumedKeepsReplies(s, c);
    hide LocksInv, RepliesInv, CreationsInv;
    CreationsIgnoreCalls(s, ResumedStep(s, c));
    var w := s.calls[c].phase.leader;
    if w in s.works && s.works[w].phase.Settled? {
      assert s.(store := s.store) == s;
      MoveCallKeepsLocks(s, s.store, c, Done(s.works[w].phase.reply, Joined(w)));
    }
  }

  lemma ResumedKeepsInv(s: State, c: Call)
    requires Inv(s) && c in s.calls
    ensures Inv(ResumedStep(s, c))
  {
    hide RepliesInv, CreationsInv, SetCall;
    match s.calls[c].phase
    case Leading => if s.works[c].phase.Settled? { LeaderResumedKeepsInv(s, c); }
    case Joining(_) => JoinerResumedKeepsInv(s, c);
    case _ =>
  }

  ghost predicate InFlight(s: State, w: Call) { w in s.works && !s.works[w].phase.Settled? }

  lemma SoleWork(s: State, v: Call, w: Call)
    requires LocksInv(s) && InFlight(s, v) && InFlight(s, w) && s.works[v].address == s.works[w].address
    ensures v == w
  {}

  lemma StoredKeepsCreations(s: State, w: Call, id: string)
    requires LocksInv(s) && CreationsInv(s) && w in s.works && s.works[w].phase == Saving(id) && IsHexId(Normalize(id))
    ensures CreationsInv(CreationSavedStep(s, w, id, true))
  {
    hide IsHexId, Normalize;
    var t := CreationSavedStep(s, w, id, true);
    var address := s.works[w].address;
    assert !CreatedFor(s.creations, address);
    forall v | v in t.works && PastStore(t.works[v].phase) ensures !CreatedFor(t.creations, t.works[v].address) {
      if t.works[v].address == address { SoleWork(s, v, w); }
      assert !CreatedFor(s.creations, s.works[v].address);
    }
    hide LocksInv;
    assert t.creations[|s.creations|] == Creation(address, Normalize(id), w);
  }

  /** The work stores its creation: no other work was past the store, and no creation was logged before. */
  lemma StoredKeepsInv(s: State, w: Call, id: string)
    requires Inv(s) && w in s.works && s.works[w].phase == Saving(id) && IsHexId(Normalize(id))
    ensures Inv(CreationSavedStep(s, w, id, true))
  {
    StoredKeepsCreations(s, w, id);
    hide LocksInv, RepliesInv, CreationsInv, IsHexId, Normalize;
    var reply := Created(id, s.works[w].auth);
    MoveWorkKeepsLocks(s, Save(s.store, s.works[w].address, id), w, Settled(reply));
    MoveWorkKeepsReplies(s, Save(s.store, s.works[w].address, id), w, Settled(reply));
    var t := CreationSavedStep(s, w, id, true);
    SameLocks(SetWork(s.(store := t.store), w, Settled(reply)), t);
  }

  /** The log and the store do not bear on the locks and the replies. */
  lemma SameLocks(s: State, t: State)
    requires LocksInv(s) && RepliesInv(s)
    requires t.locks == s.locks && t.calls == s.calls && t.works == s.works
    ensures LocksInv(t) && RepliesInv(t)
  {}

  lemma CreationSavedKeepsInv(s: State, w: Call, id: string, ok: bool)
    requires Inv(s) && w in s.works && s.works[w].phase == Saving(id)
    ensures Inv(CreationSavedStep(s, w, id, ok))
  {
    hide Inv, IsHexId, Normalize;
    assert s.(store := s.store) == s;
    if ok && IsHexId(Normalize(id)) {
      StoredKeepsInv(s, w, id);
    } else {
      MoveWorkKeepsInv(s, s.store, w, if ok then Settled(Created(id, s.works[w].auth)) else Settled(Failed));
    }
  }

  lemma ExecutedKeepsInv(s: State, w: Call, ok: bool)
    requires Inv(s) && w in s.works && s.works[w].phase.Executing?
    ensures Inv(ExecutedStep(s, w, ok))
  {
    assert s.(store := s.store) == s;
    assert PastStore(s.works[w].phase);
    MoveWorkKeepsInv(s, s.store, w, if ok then Inspecting else Settled(Failed));
  }

  lemma ArriveKeepsLocks(s: State, c: Call, address: string)
    requires LocksInv(s) && c !in s.calls
    ensures LocksInv(Step(s, Arrive(c, address)))
  {}

  lemma ArriveKeepsInv(s: State, c: Call, address: string)
    requires Inv(s) && c !in s.calls
    ensures Inv(Step(s, Arrive(c, address)))
  {
    ArriveKeepsLocks(s, c, address);
    hide LocksInv;
    CreationsIgnoreCalls(s, Step(s, Arrive(c, address)));
    hide CreationsInv;
  }

  lemma StepKeepsInv(s: State, e: Event)
    requires Inv(s)
    ensures Inv(Step(s, e))
  {
    hide LocksInv, RepliesInv, CallLookupStep, AuthorizedStep, WorkLookupStep, ExecutedStep, ResumedStep,
         CreationSavedStep, SetWork;
    assert s.(store := s.store) == s;
    match e
    case Arrive(c, address) => if c !in s.calls { ArriveKeepsInv(s, c, address); }
    case CallLookup(c, le) =>
      if c in s.calls && s.calls[c].phase.Looking? { CallLookupKeepsInv(s, c, s.calls[c].phase.lookup, le); }
    case Authorized(c, ok, token) =>
      if c in s.calls && s.calls[c].phase.Authorizing? { AuthorizedKeepsInv(s, c, ok, token); }
    case Resumed(c) => if c in s.calls { ResumedKeepsInv(s, c); }
    case WorkLookup(w, le, ready) =>
      if w in s.works && s.works[w].phase.Rechecking? { WorkLookupKeepsInv(s, w, s.works[w].phase.lookup, le, ready); }
    case Executed(w, ok) =>
      if w in s.works && s.works[w].phase.Executing? { ExecutedKeepsInv(s, w, ok); }
    case Inspected(w, id) =>
      if w in s.works && s.works[w].phase.Inspecting? {
        MoveWorkKeepsInv(s, s.store, w, if id.Some? && id.value != "" then Saving(id.value) else Settled(Failed));
      }
    case CreationSaved(w, ok) =>
      if w in s.works && s.works[w].phase.Saving? { CreationSavedKeepsInv(s, w, s.works[w].phase.id, ok); }
  }

  lemma {:induction false} RunKeepsInv(s: State, events: seq<Event>)
    requires Initial(s)
    ensures Inv(Run(s, events))
  {
    if events != [] {
      RunKeepsInv(s, events[..|events| - 1]);
      StepKeepsInv(Run(s, events[..|events| - 1]), events[|events| - 1]);
    }
  }

  // ---- results over every interleaving -------------------------------------

  /** At most one creation is in flight for an address. */
  lemma OneWorkInFlight(s: State, events: seq<Event>, v: Call, w: Call)
    requires Initial(s)
    requires var t := Run(s, events);
             InFlight(t, v) && InFlight(t, w) && t.works[v].address == t.works[w].address
    ensures v == w
  {
    RunKeepsInv(s, events);
    SoleWork(Run(s, events), v, w);
  }

  /** The work ended with a created manager whose id the repository stores. */
  predicate StoredCreation(p: WorkPhase) {
    p.Settled? && p.reply.Created? && IsHexId(Normalize(p.reply.id))
  }

  lemma SoleCreator(s: State, v: Call, w: Call)
    requires CreationsInv(s) && v in s.works && w in s.works && s.works[v].address == s.works[w].address
    requires StoredCreation(s.works[v].phase) && StoredCreation(s.works[w].phase)
    ensures v == w && s.works[v].address in s.store
  {
    hide IsHexId, Normalize;
    var address := s.works[v].address;
    var x := Creation(address, Normalize(s.works[v].phase.reply.id), v);
    var y := Creation(address, Normalize(s.works[w].phase.reply.id), w);
    assert LoggedBy(s.creations, v, address, x.id) && LoggedBy(s.creations, w, address, y.id);
    var i :| 0 <= i < |s.creations| && s.creations[i] == x;
    var j :| 0 <= j < |s.creations| && s.creations[j] == y;
  }

  /** Over a whole run, at most one work for an address creates a manager that is stored; the address keeps a row. */
  lemma OneStoredCreation(s: State, events: seq<Event>, v: Call, w: Call)
    requires Initial(s)
    requires var t := Run(s, events);
             v in t.works && w in t.works && t.works[v].address == t.works[w].address
             && StoredCreation(t.works[v].phase) && StoredCreation(t.works[w].phase)
    ensures v == w && Run(s, events).works[v].address in Run(s, events).store
  {
    RunKeepsInv(s, events);
    hide Run, LocksInv, RepliesInv, CreationsInv;
    SoleCreator(Run(s, events), v, w);
  }

  /**
   Whoever joined a creation gets what that creation's own caller gets, down to the session token, which was issued
   to the leader.
   */
  lemma JoinersGetLeadersReply(s: State, events: seq<Event>, c: Call)
    requires Initial(s)
    requires var t := Run(s, events);
             c in t.calls && t.calls[c].phase.Done? && t.calls[c].phase.via.Joined?
    ensures var t := Run(s, events);
            var leader := t.calls[c].phase.via.leader;
            && leader in t.works && t.works[leader].phase == Settled(t.calls[c].phase.reply)
            && (Names(t.calls[c].phase.reply) ==> t.calls[c].phase.reply.auth == t.works[leader].auth)
            && leader in t.calls && t.calls[leader].address == t.calls[c].address
            && (t.calls[leader].phase.Done? ==> t.calls[leader].phase == Done(t.calls[c].phase.reply, Led))
  {
    RunKeepsInv(s, events);
  }

  /** An address is locked exactly while a call leads for it, so every outcome, failure too, frees the lock. */
  lemma LockedWhileLed(s: State, events: seq<Event>, address: string)
    requires Initial(s)
    ensures var t := Run(s, events);
            address in t.locks <==> exists c :: c in t.calls && t.calls[c] == CallState(address, Leading)
  {
    RunKeepsInv(s, events);
    var t := Run(s, events);
    if address in t.locks { assert t.calls[t.locks[address]] == CallState(address, Leading); }
  }

  /** No waiting call is stuck: its leader's work is settled, or still in flight under the lock. */
  lemma JoinersAreServed(s: State, events: seq<Event>, c: Call)
    requires Initial(s)
    requires var t := Run(s, events); c in t.calls && t.calls[c].phase.Joining?
    ensures var t := Run(s, events);
            var leader := t.calls[c].phase.leader;
            && leader in t.works
            && (Step(t, Resumed(c)).calls[c].phase.Done?
                || (InFlight(t, leader) && t.calls[c].address in t.locks && t.locks[t.calls[c].address] == leader))
  {
    RunKeepsInv(s, events);
  }
}
