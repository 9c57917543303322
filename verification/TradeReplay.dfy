/**
 Replay protection for signed trade intents: the pruned cache of trade-replay.store.ts, and the check, authenticate,
 mark sequence of trade.service.ts over every interleaving of requests.
 */
module TradeReplay {
  import opened JsBasics
  import opened JsText
  import TradeMessage

  type Used = map<string, int>

  /** The cache without the entries that expired before `nowMs`. */
  function Pruned(used: Used, nowMs: int): Used {
    map k | k in used && used[k] >= nowMs :: used[k]
  }

  predicate Live(used: Used, key: string, nowMs: int) {
    key in used && used[key] >= nowMs
  }

  class TradeReplayStore {
    var used: Used

    constructor ()
      ensures used == map[]
    { used := map[]; }

    method IsReplayed(signature: string, nowMs: int) returns (replayed: bool)
      modifies this
      ensures used == Pruned(old(used), nowMs)
      ensures replayed == Live(old(used), Trim(signature), nowMs)
    {
      Prune(nowMs);
      var key := Trim(signature);
      replayed := key in used && used[key] >= nowMs;
    }

    method MarkUsed(signature: string, expiresAtMs: int)
      modifies this
      ensures used == old(used)[Trim(signature) := expiresAtMs]
    {
      used := used[Trim(signature) := expiresAtMs];
    }

    method Prune(nowMs: int)
      modifies this
      ensures used == Pruned(old(used), nowMs)
    {
      var pending := used.Keys;
      while pending != {}
        invariant pending <= old(used).Keys
        invariant used == map k | k in old(used) && (k in pending || old(used)[k] >= nowMs) :: old(used)[k]
        decreases pending
      {
        var sig :| sig in pending;
        if used[sig] < nowMs {
          used := used - {sig};
        }
        pending := pending - {sig};
      }
    }
  }

  /**
   verifyTradeRequest by itself. Up to the first await it checks for a replay, parses the message and checks its
   expiry; `parsed` is the expiry found there, if the message is well formed. Then the signature is checked, with the
   outcome `verified`, and the intent marked. The two clock readings are those of the check and of the mark.
   */
  method VerifyTradeRequest(store: TradeReplayStore, key: string, parsed: Option<int>, verified: bool,
                            checkedMs: int, doneMs: int)
    returns (accepted: bool)
    requires Trim(key) == key && checkedMs <= doneMs
    modifies store
    ensures var before := State(old(store.used), checkedMs, map[], []);
            var after := Step(Step(before, Begin(0, key, parsed, checkedMs)), Finish(0, verified, doneMs));
            store.used == after.used && (accepted <==> after.accepted == [Acceptance(key, doneMs, parsed.GetOr(0))])
  {
    var replayed := store.IsReplayed(key, checkedMs);
    if replayed { return false; }
    if parsed.None? || TradeMessage.AssertTradeIntentExpiry(parsed.value, checkedMs).Some? { return false; }
    if !verified { return false; }
    store.MarkUsed(key, parsed.value);
    return true;
  }

  // ---- the cache against an unpruned log -----------------------------------

  datatype Op = Check(key: string, nowMs: int) | Mark(key: string, expiresAtMs: int)

  /** The cache after `ops`; every check prunes it. */
  function CacheAfter(ops: seq<Op>): Used {
    if ops == [] then map[]
    else
      var before := CacheAfter(ops[..|ops| - 1]);
      match ops[|ops| - 1]
      case Check(_, now) => Pruned(before, now)
      case Mark(key, exp) => before[key := exp]
  }

  /** All marks ever made, the last one of a key counting. */
  function LogAfter(ops: seq<Op>): Used {
    if ops == [] then map[]
    else
      var before := LogAfter(ops[..|ops| - 1]);
      match ops[|ops| - 1]
      case Check(_, _) => before
      case Mark(key, exp) => before[key := exp]
  }

  ghost predicate ChecksInOrder(ops: seq<Op>) {
    forall i, j :: 0 <= i < j < |ops| && ops[i].Check? && ops[j].Check? ==> ops[i].nowMs <= ops[j].nowMs
  }

  ghost predicate NotBefore(ops: seq<Op>, nowMs: int) {
    forall i :: 0 <= i < |ops| && ops[i].Check? ==> ops[i].nowMs <= nowMs
  }

  lemma {:induction false} CacheIsLiveLog(ops: seq<Op>, key: string, nowMs: int)
    requires ChecksInOrder(ops) && NotBefore(ops, nowMs)
    ensures Live(CacheAfter(ops), key, nowMs) <==> Live(LogAfter(ops), key, nowMs)
    ensures key in CacheAfter(ops) ==> key in LogAfter(ops) && CacheAfter(ops)[key] == LogAfter(ops)[key]
  {
    if ops != [] {
      CacheIsLiveLog(ops[..|ops| - 1], key, nowMs);
    }
  }

  /** Under a clock that never runs back, pruning is invisible: the cache answers as the full log would. */
  lemma PruningIsInvisible(ops: seq<Op>, key: string, nowMs: int)
    requires ChecksInOrder(ops + [Check(key, nowMs)])
    ensures Live(CacheAfter(ops), key, nowMs) <==> Live(LogAfter(ops), key, nowMs)
  {
    var all := ops + [Check(key, nowMs)];
    assert forall i :: 0 <= i < |ops| ==> all[i] == ops[i];
    assert all[|ops|] == Check(key, nowMs);
    CacheIsLiveLog(ops, key, nowMs);
  }

  // ---- requests ------------------------------------------------------------

  datatype Acceptance = Acceptance(key: string, at: int, expiresAtMs: int)

  /** A request between its checks and its mark. */
  datatype Pending = Pending(key: string, expiresAtMs: int)

  datatype State = State(used: Used, clock: int, pending: map<nat, Pending>, accepted: seq<Acceptance>)

  /**
   Begin: the replay check and, in the same stretch, the expiry check of a well-formed message. Finish: the signature
   check answers; an accepted intent is marked and passed on.
   */
  datatype Event =
    | Begin(request: nat, key: string, expiresAtMs: Option<int>, nowMs: int)
    | Finish(request: nat, verified: bool, nowMs: int)

  /** The expiry check passes at that time. */
  predicate InTime(expiresAtMs: int, nowMs: int) {
    TradeMessage.AssertTradeIntentExpiry(expiresAtMs, nowMs).None?
  }

  /** An intent is in time from five and a half minutes before its expiry to half a minute after. */
  lemma InTimeExactly(expiresAtMs: int, nowMs: int)
    ensures InTime(expiresAtMs, nowMs) <==> expiresAtMs - 330_000 <= nowMs <= expiresAtMs + 30_000
    ensures TradeMessage.AssertTradeIntentExpiry(expiresAtMs, nowMs) == Some("message_expired") <==>
              nowMs > expiresAtMs + 30_000
    ensures TradeMessage.AssertTradeIntentExpiry(expiresAtMs, nowMs) == Some("message_expiry_too_far") <==>
              nowMs < expiresAtMs - 330_000
  {
    assert "message_expired"[8] != "message_expiry_too_far"[8] || |"message_expired"| != |"message_expiry_too_far"|;
  }

  function Step(s: State, e: Event): State {
    if e.nowMs < s.clock then s
    else
      var t := s.(clock := e.nowMs);
      match e
      case Begin(r, key, exp, now) =>
        var checked := t.(used := Pruned(t.used, now));
        if r in t.pending || Live(t.used, key, now) || exp.None? || !InTime(exp.value, now) then checked
        else checked.(pending := t.pending[r := Pending(key, exp.value)])
      case Finish(r, verified, now) =>
        if r !in t.pending then s
        else
          var intent := t.pending[r];
          var done := t.(pending := t.pending - {r});
          if !verified then done
          else done.(used := t.used[intent.key := intent.expiresAtMs],
                     accepted := t.accepted + [Acceptance(intent.key, now, intent.expiresAtMs)])
  }

  function Run(s: State, events: seq<Event>): State {
    if events == [] then s else Step(Run(s, events[..|events| - 1]), events[|events| - 1])
  }

  ghost predicate NoPending(s: State, key: string) {
    forall r :: r in s.pending ==> s.pending[r].key != key
  }

  /** Protected: marked until `until` at least, with nobody of that key past the check, unless time is over. */
  ghost predicate Protected(s: State, key: string, until: int) {
    s.clock > until || (key in s.used && s.used[key] >= until && NoPending(s, key))
  }

  lemma StepKeepsProtected(s: State, e: Event, key: string, until: int)
    requires Protected(s, key, until)
    ensures Protected(Step(s, e), key, until)
    ensures s.accepted <= Step(s, e).accepted
    ensures forall i :: |s.accepted| <= i < |Step(s, e).accepted| && Step(s, e).accepted[i].key == key ==>
              Step(s, e).accepted[i].at > until
  {}

  lemma {:induction false} RunKeepsProtected(s: State, events: seq<Event>, key: string, until: int)
    requires Protected(s, key, until)
    ensures Protected(Run(s, events), key, until)
    ensures s.accepted <= Run(s, events).accepted
    ensures forall i :: |s.accepted| <= i < |Run(s, events).accepted| && Run(s, events).accepted[i].key == key ==>
              Run(s, events).accepted[i].at > until
  {
    if events != [] {
      RunKeepsProtected(s, events[..|events| - 1], key, until);
      StepKeepsProtected(Run(s, events[..|events| - 1]), events[|events| - 1], key, until);
    }
  }

  /** Some continuation accepts `key` again no later than `until`. */
  ghost predicate AcceptableAgain(s: State, key: string, until: int) {
    exists events :: AcceptsAgain(s, events, key, until)
  }

  ghost predicate AcceptsAgain(s: State, events: seq<Event>, key: string, until: int) {
    exists i :: |s.accepted| <= i < |Run(s, events).accepted|
             && Run(s, events).accepted[i].key == key && Run(s, events).accepted[i].at <= until
  }

  /**
   Once a request is accepted, its key is accepted by no continuation until the expiry exactly when no other request
   with that key is between its checks and its mark, or the intent expired during its own signature check. Requests
   handled one at a time always meet this. An intent may have other keys; see IntentReplay.
   */
  lemma SafeExactlyWithoutOverlap(s: State, r: nat, nowMs: int)
    requires r in s.pending && nowMs >= s.clock
    ensures var t := Step(s, Finish(r, true, nowMs)); var intent := s.pending[r];
            && t.accepted == s.accepted + [Acceptance(intent.key, nowMs, intent.expiresAtMs)]
            && (!AcceptableAgain(t, intent.key, intent.expiresAtMs)
                <==> nowMs > intent.expiresAtMs
                     || forall q :: q in s.pending && q != r ==> s.pending[q].key != intent.key)
  {
    var key, until := s.pending[r].key, s.pending[r].expiresAtMs;
    var t := Step(s, Finish(r, true, nowMs));
    if q :| nowMs <= until && q in s.pending && q != r && s.pending[q].key == key {
      var again := Finish(q, true, nowMs);
      assert Run(t, [again]) == Step(t, again) by { assert [again][..0] == []; }
      assert Run(t, [again]).accepted[|t.accepted|] == Acceptance(key, nowMs, s.pending[q].expiresAtMs);
      assert AcceptsAgain(t, [again], key, until);
    } else {
      assert Protected(t, key, until);
      forall events ensures !AcceptsAgain(t, events, key, until) {
        RunKeepsProtected(t, events, key, until);
      }
    }
  }

  /** Two requests with one key, from start-up, that overlap and are both accepted. */
  lemma OverlapIsAcceptedTwice(key: string, expiresAtMs: int, nowMs: int) returns (events: seq<Event>)
    requires InTime(expiresAtMs, nowMs)
    ensures events == [Begin(1, key, Some(expiresAtMs), nowMs), Begin(2, key, Some(expiresAtMs), nowMs),
                       Finish(1, true, nowMs), Finish(2, true, nowMs)]
    ensures Run(State(map[], nowMs, map[], []), events).accepted
         == [Acceptance(key, nowMs, expiresAtMs), Acceptance(key, nowMs, expiresAtMs)]
  {
    var s := State(map[], nowMs, map[], []);
    var first := [Begin(1, key, Some(expiresAtMs), nowMs), Begin(2, key, Some(expiresAtMs), nowMs)];
    events := first + [Finish(1, true, nowMs), Finish(2, true, nowMs)];
    RunTwo(s, first[0], first[1]);
    var intent := Pending(key, expiresAtMs);
    assert Run(s, first) == s.(pending := map[1 := intent, 2 := intent]);
    assert events[..3][..2] == first && events[..3] == first + [Finish(1, true, nowMs)];
    assert Run(s, events[..3]) == State(map[key := expiresAtMs], nowMs, map[2 := intent],
                                        [Acceptance(key, nowMs, expiresAtMs)]);
  }

  // ---- after the expiry ----------------------------------------------------

  /**
   The mark of a key ends with the expiry, but the expiry check still tolerates the clock skew. A request with a marked
   key gets past both checks exactly in the skew after the expiry, and its signature check then accepts it again.
   */
  lemma ReplayableExactlyInSkew(s: State, r: nat, key: string, expiresAtMs: int, laterMs: int)
    requires key in s.used && s.used[key] == expiresAtMs && r !in s.pending && s.clock <= laterMs
    ensures var t := Run(s, [Begin(r, key, Some(expiresAtMs), laterMs), Finish(r, true, laterMs)]);
            t.accepted == s.accepted + [Acceptance(key, laterMs, expiresAtMs)]
            <==> expiresAtMs < laterMs <= expiresAtMs + 30_000
  {
    var begin, finish := Begin(r, key, Some(expiresAtMs), laterMs), Finish(r, true, laterMs);
    RunTwo(s, begin, finish);
    var more := s.accepted + [Acceptance(key, laterMs, expiresAtMs)];
    assert |more| == |s.accepted| + 1;
  }

  lemma RunTwo(s: State, first: Event, second: Event)
    ensures Run(s, [first, second]) == Step(Step(s, first), second)
  {
    assert [first, second][..1] == [first] && [first][..0] == [];
    assert Run(s, [first]) == Step(s, first);
  }

  /** The same request is accepted at its signing and again after its expiry, in a run without any overlap. */
  lemma AcceptedTwice(key: string, signedMs: int, expiresAtMs: int) returns (events: seq<Event>)
    requires signedMs < expiresAtMs <= signedMs + 300_000
    ensures var late := expiresAtMs + 1;
            && events == [Begin(1, key, Some(expiresAtMs), signedMs), Finish(1, true, signedMs),
                          Begin(2, key, Some(expiresAtMs), late), Finish(2, true, late)]
            && Run(State(map[], signedMs, map[], []), events).accepted
               == [Acceptance(key, signedMs, expiresAtMs), Acceptance(key, late, expiresAtMs)]
  {
    var s := State(map[], signedMs, map[], []);
    var late := expiresAtMs + 1;
    var first := [Begin(1, key, Some(expiresAtMs), signedMs), Finish(1, true, signedMs)];
    var again := [Begin(2, key, Some(expiresAtMs), late), Finish(2, true, late)];
    events := first + again;
    RunTwo(s, first[0], first[1]);
    var t := Run(s, first);
    assert t == State(map[key := expiresAtMs], signedMs, map[], [Acceptance(key, signedMs, expiresAtMs)]);
    ReplayableExactlyInSkew(t, 2, key, expiresAtMs, late);
    RunTwo(t, again[0], again[1]);
    assert events[..3][..2] == first && events[..3] == first + [again[0]];
    assert Run(s, events) == Run(t, again);
  }
}
