/** When is a stored manager settled for good? Follow-up of the interleaved model of manager.service.ts. */
module ManagerRow {
  import opened JsBasics
  import opened JsText
  import opened ManagerCreation

  /** Saving `id` would leave the row as it is. */
  predicate Harmless(store: Store, address: string, id: string) {
    IsHexId(Normalize(id)) ==> address in store && store[address] == Normalize(id)
  }

  predicate LookupMayWrite(store: Store, address: string, l: Lookup) {
    l.AskingIndexer? || (l.SavingHit? && !Harmless(store, address, l.id))
  }

  predicate WorkMayWrite(store: Store, address: string, p: WorkPhase) {
    match p
    case Rechecking(l) => !l.ReadingStore?
    case Executing => true
    case Inspecting => true
    case Saving(id) => !Harmless(store, address, id)
    case Settled(_) => false
  }

  predicate CallMayWrite(s: State, c: Call, address: string) {
    && c in s.calls && s.calls[c].address == address && s.calls[c].phase.Looking?
    && LookupMayWrite(s.store, address, s.calls[c].phase.lookup)
  }

  /** There is a row, and nobody who missed it can still write another. */
  ghost predicate RowSettled(s: State, address: string) {
    && address in s.store
    && (forall c :: !CallMayWrite(s, c, address))
    && (forall w :: w in s.works && s.works[w].address == address ==> !WorkMayWrite(s.store, address, s.works[w].phase))
  }

  ghost predicate SameRow(s: State, t: State, address: string) {
    (address in s.store <==> address in t.store) && (address in s.store ==> t.store[address] == s.store[address])
  }

  lemma LookupKeepsRow(store: Store, of: string, l: Lookup, e: LookupEvent, address: string)
    requires address in store && (of == address ==> !LookupMayWrite(store, address, l))
    ensures var (after, progress) := LookupStep(store, of, l, e);
            && address in after && after[address] == store[address]
            && (of == address && progress.Going? ==> progress.lookup == l)
            && (of == address && progress.Miss? ==> !l.ReadingStore?)
            && forall id :: Harmless(store, address, id) <==> Harmless(after, address, id)
  {
    hide IsHexId, Normalize;
  }

  /** What may write depends on the row alone. */
  lemma SameRowSameWrites(before: Store, after: Store, address: string)
    requires address in before && address in after && after[address] == before[address]
    ensures forall l :: LookupMayWrite(after, address, l) <==> LookupMayWrite(before, address, l)
    ensures forall p :: WorkMayWrite(after, address, p) <==> WorkMayWrite(before, address, p)
  {
    hide IsHexId, Normalize;
  }

  lemma MoveCallKeepsRow(s: State, store: Store, c: Call, phase: CallPhase, address: string)
    requires RowSettled(s, address) && c in s.calls && address in store && store[address] == s.store[address]
    requires s.calls[c].address == address && phase.Looking? ==> !LookupMayWrite(s.store, address, phase.lookup)
    ensures var t := SetCall(s.(store := store), c, phase);
            RowSettled(t, address) && SameRow(s, t, address)
  {
    SameRowSameWrites(s.store, store, address);
    hide LookupMayWrite, WorkMayWrite;
    var t := SetCall(s.(store := store), c, phase);
    forall b ensures !CallMayWrite(t, b, address) { assert !CallMayWrite(s, b, address); }
  }

  lemma MoveWorkKeepsRow(s: State, store: Store, w: Call, phase: WorkPhase, address: string)
    requires RowSettled(s, address) && w in s.works && address in store && store[address] == s.store[address]
    requires s.works[w].address == address ==> !WorkMayWrite(s.store, address, phase)
    ensures var t := SetWork(s.(store := store), w, phase);
            RowSettled(t, address) && SameRow(s, t, address)
  {
    SameRowSameWrites(s.store, store, address);
    hide LookupMayWrite, WorkMayWrite;
    var t := SetWork(s.(store := store), w, phase);
    forall b ensures !CallMayWrite(t, b, address) { assert !CallMayWrite(s, b, address); }
  }

  lemma CallLookupKeepsRow(s: State, c: Call, e: LookupEvent, address: string)
    requires RowSettled(s, address) && c in s.calls && s.calls[c].phase.Looking?
    ensures var t := CallLookupStep(s, c, s.calls[c].phase.lookup, e);
            RowSettled(t, address) && SameRow(s, t, address)
  {
    var lookup := s.calls[c].phase.lookup;
    assert !CallMayWrite(s, c, address);
    LookupKeepsRow(s.store, s.calls[c].address, lookup, e, address);
    var (store, progress) := LookupStep(s.store, s.calls[c].address, lookup, e);
    hide LookupStep, RowSettled, SetCall, SameRow, LookupMayWrite;
    match progress
    case Going(next) => MoveCallKeepsRow(s, store, c, Looking(next), address);
    case Hit(id) => MoveCallKeepsRow(s, store, c, Done(Found(id, None), Alone), address);
    case Miss => MoveCallKeepsRow(s, store, c, Authorizing, address);
    case Threw => MoveCallKeepsRow(s, store, c, Done(Failed, Alone), address);
  }

  lemma WorkLookupKeepsRow(s: State, w: Call, e: LookupEvent, ready: bool, address: string)
    requires RowSettled(s, address) && w in s.works && s.works[w].phase.Rechecking?
    ensures var t := WorkLookupStep(s, w, s.works[w].phase.lookup, e, ready);
            RowSettled(t, address) && SameRow(s, t, address)
  {
    var lookup := s.works[w].phase.lookup;
    LookupKeepsRow(s.store, s.works[w].address, lookup, e, address);
    var (store, progress) := LookupStep(s.store, s.works[w].address, lookup, e);
    hide LookupStep, RowSettled, SetWork, SameRow, Harmless;
    match progress
    case Going(next) => MoveWorkKeepsRow(s, store, w, Rechecking(next), address);
    case Hit(id) => MoveWorkKeepsRow(s, store, w, Settled(Found(id, s.works[w].auth)), address);
    case Miss => MoveWorkKeepsRow(s, store, w, if ready then Executing else Settled(Failed), address);
    case Threw => MoveWorkKeepsRow(s, store, w, Settled(Failed), address);
  }

  lemma CreationKeepsRow(s: State, w: Call, ok: bool, address: string)
    requires RowSettled(s, address) && w in s.works && s.works[w].phase.Saving?
    ensures var t := CreationSavedStep(s, w, s.works[w].phase.id, ok);
            RowSettled(t, address) && SameRow(s, t, address)
  {
    hide IsHexId, Normalize;
    var t := CreationSavedStep(s, w, s.works[w].phase.id, ok);
    assert SameRow(s, t, address);
    assert forall id :: Harmless(s.store, address, id) <==> Harmless(t.store, address, id);
    hide Harmless;
    assert forall b :: CallMayWrite(t, b, address) ==> CallMayWrite(s, b, address);
  }

  /** Steps that leave the store alone; whoever enters now starts by reading the store. */
  lemma OtherStepsKeepRow(s: State, e: Event, address: string)
    requires RowSettled(s, address)
    requires e.Arrive? || e.Authorized? || e.Resumed? || e.Executed? || e.Inspected?
    ensures RowSettled(Step(s, e), address) && Step(s, e).store == s.store
  {
    hide Harmless;
    assert forall b :: CallMayWrite(Step(s, e), b, address) ==> CallMayWrite(s, b, address);
  }

  lemma StepKeepsRow(s: State, e: Event, address: string)
    requires RowSettled(s, address)
    ensures RowSettled(Step(s, e), address) && SameRow(s, Step(s, e), address)
  {
    hide RowSettled, CallLookupStep, WorkLookupStep, CreationSavedStep, Harmless;
    match e
    case CallLookup(c, le) => if c in s.calls && s.calls[c].phase.Looking? { CallLookupKeepsRow(s, c, le, address); }
    case WorkLookup(w, le, ready) =>
      if w in s.works && s.works[w].phase.Rechecking? { WorkLookupKeepsRow(s, w, le, ready, address); }
    case CreationSaved(w, ok) => if w in s.works && s.works[w].phase.Saving? { CreationKeepsRow(s, w, ok, address); }
    case _ => OtherStepsKeepRow(s, e, address);
  }

  lemma {:induction false} RunKeepsRow(s: State, events: seq<Event>, address: string)
    requires RowSettled(s, address)
    ensures SameRow(s, Run(s, events), address) && RowSettled(Run(s, events), address)
  {
    if events != [] {
      RunKeepsRow(s, events[..|events| - 1], address);
      StepKeepsRow(Run(s, events[..|events| - 1]), events[|events| - 1], address);
    }
  }

  /** A call that missed the row goes on to replace it. */
  lemma CallReplacesRow(s: State, c: Call, other: string) returns (events: seq<Event>)
    requires c in s.calls && s.calls[c].phase.Looking? && s.calls[c].address in s.store
    requires LookupMayWrite(s.store, s.calls[c].address, s.calls[c].phase.lookup)
    requires IsHexId(other) && s.store[s.calls[c].address] != other
    ensures !SameRow(s, Run(s, events), s.calls[c].address)
    decreases s.calls[c].phase.lookup.AskingIndexer?
  {
    HexIdIsPlain(other);
    assert other != "";
    hide IsHexId, Normalize;
    if s.calls[c].phase.lookup.SavingHit? {
      var e := CallLookup(c, HitSaved(true));
      events := [e];
      RunFirst(s, e, []);
    } else {
      var e := CallLookup(c, IndexerReplied(Some(other)));
      var rest := CallReplacesRow(Step(s, e), c, other);
      RunFirst(s, e, rest);
      events := [e] + rest;
    }
  }

  function StepsToWrite(p: WorkPhase): nat {
    match p
    case Rechecking(AskingIndexer) => 5
    case Rechecking(_) => 4
    case Executing => 3
    case Inspecting => 2
    case _ => 1
  }

  /** The next event that brings a work past the store closer to replacing the row. */
  function TowardsWrite(store: Store, address: string, w: Call, p: WorkPhase, other: string): Event {
    match p
    case Rechecking(SavingHit(id)) => WorkLookup(w, HitSaved(!Harmless(store, address, id)), true)
    case Rechecking(_) => WorkLookup(w, IndexerReplied(Some(other)), true)
    case Executing => Executed(w, true)
    case Inspecting => Inspected(w, Some(other))
    case _ => CreationSaved(w, true)
  }

  lemma TowardsWriteAdvances(s: State, w: Call, other: string)
    requires w in s.works && s.works[w].address in s.store
    requires WorkMayWrite(s.store, s.works[w].address, s.works[w].phase)
    requires IsHexId(other) && s.store[s.works[w].address] != other
    ensures var address := s.works[w].address;
            var t := Step(s, TowardsWrite(s.store, address, w, s.works[w].phase, other));
            !SameRow(s, t, address)
            || (t.store == s.store && w in t.works && t.works[w].address == address
                && WorkMayWrite(t.store, address, t.works[w].phase)
                && StepsToWrite(t.works[w].phase) < StepsToWrite(s.works[w].phase))
  {
    HexIdIsPlain(other);
    assert other != "";
    hide IsHexId, Normalize;
  }

  lemma {:induction false} WorkReplacesRow(s: State, w: Call, other: string) returns (events: seq<Event>)
    requires w in s.works && s.works[w].address in s.store
    requires WorkMayWrite(s.store, s.works[w].address, s.works[w].phase)
    requires IsHexId(other) && s.store[s.works[w].address] != other
    ensures !SameRow(s, Run(s, events), s.works[w].address)
    decreases StepsToWrite(s.works[w].phase)
  {
    TowardsWriteAdvances(s, w, other);
    hide IsHexId, Normalize, Step, WorkMayWrite;
    var e := TowardsWrite(s.store, s.works[w].address, w, s.works[w].phase, other);
    if SameRow(s, Step(s, e), s.works[w].address) {
      var rest := WorkReplacesRow(Step(s, e), w, other);
      RunFirst(s, e, rest);
      events := [e] + rest;
    } else {
      RunFirst(s, e, []);
      events := [e] + [];
    }
  }

  /** A stored manager stays the address's manager, whatever happens next, exactly when its row is settled. */
  lemma RowStaysExactlyWhenSettled(s: State, address: string, other: string)
    requires address in s.store && IsHexId(other) && s.store[address] != other
    ensures (forall events :: SameRow(s, Run(s, events), address)) <==> RowSettled(s, address)
  {
    hide IsHexId, Run, LookupMayWrite, WorkMayWrite;
    if RowSettled(s, address) {
      forall events ensures SameRow(s, Run(s, events), address) { RunKeepsRow(s, events, address); }
    } else if exists c :: CallMayWrite(s, c, address) {
      var c :| CallMayWrite(s, c, address);
      var events := CallReplacesRow(s, c, other);
    } else {
      var w :| w in s.works && s.works[w].address == address && WorkMayWrite(s.store, address, s.works[w].phase);
      var events := WorkReplacesRow(s, w, other);
    }
  }
}
