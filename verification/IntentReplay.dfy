/**
 Replay protection as a client meets it: the cache key of a request (app-intent-auth.ts) is its signature text, which is
 verified only when no session token comes with it. So one signed intent may have many keys.
 */
module IntentReplay {
  import opened JsBasics
  import opened JsText
  import TradeReplay

  /** A parsed message; `order` stands for all its other fields. */
  datatype Intent = Intent(address: string, expiresAtMs: int, order: string)

  /** A request body; an absent signature or token is the empty text. */
  datatype Payload = Payload(address: string, expiresAtMs: int, messageBytes: string, signature: string, token: string)

  /**
   What is decided elsewhere: the intent that a message decodes to, whether a session token is good for an address at a
   time, whether a signature over an intent verifies, and SHA-256.
   */
  datatype World = World(open: string -> Option<Intent>, holds: (string, string, int) -> bool,
                         verifies: (Intent, string) -> bool, digest: string -> string)

  function ReplayKey(w: World, p: Payload): string {
    if Trim(p.signature) != "" then Trim(p.signature)
    else "token:" + w.digest(Normalize(p.address) + "\n" + Trim(p.messageBytes))
  }

  predicate HasToken(p: Payload) { Trim(p.token) != "" }

  /** The intent of a request that passes all checks before the first await, except the expiry check. */
  function Opened(w: World, p: Payload, nowMs: int): Option<Intent> {
    if HasToken(p) && !w.holds(Trim(p.token), Normalize(p.address), nowMs) then None
    else if !HasToken(p) && Trim(p.signature) == "" then None
    else if !IsHexId(Normalize(p.address)) || Trim(p.messageBytes) == "" then None
    else
      match w.open(p.messageBytes)
      case None => None
      case Some(i) => if i.address == Normalize(p.address) && i.expiresAtMs == p.expiresAtMs then Some(i) else None
  }

  /** A token is enough; otherwise the signature must verify. */
  predicate Authentic(w: World, p: Payload, i: Intent) { HasToken(p) || w.verifies(i, p.signature) }

  // ---- runs of requests ----------------------------------------------------

  datatype Waiting = Waiting(payload: Payload, intent: Intent)

  datatype Accepted = Accepted(intent: Intent, at: int)

  /** `core` is the state at the level of keys; `log` lists the accepted intents. */
  datatype State = State(core: TradeReplay.State, waiting: map<nat, Waiting>, log: seq<Accepted>)

  /** A signature check may also fail for other reasons, as `ok` says. */
  datatype Event = Begin(request: nat, payload: Payload, nowMs: int) | Finish(request: nat, ok: bool, nowMs: int)

  function OnKeys(w: World, s: State, e: Event): TradeReplay.Event {
    match e
    case Begin(r, p, now) =>
      var found := Opened(w, p, now);
      TradeReplay.Begin(r, ReplayKey(w, p), if found.Some? then Some(found.value.expiresAtMs) else None, now)
    case Finish(r, ok, now) =>
      TradeReplay.Finish(r, r in s.waiting && Authentic(w, s.waiting[r].payload, s.waiting[r].intent)
                            && (ok || HasToken(s.waiting[r].payload)), now)
  }

  function Step(w: World, s: State, e: Event): State {
    var core := TradeReplay.Step(s.core, OnKeys(w, s, e));
    match e
    case Begin(r, p, now) =>
      var found := Opened(w, p, now);
      if r in core.pending && r !in s.core.pending && found.Some?
      then State(core, s.waiting[r := Waiting(p, found.value)], s.log)
      else s.(core := core)
    case Finish(r, _, now) =>
      if r in s.waiting && r !in core.pending then
        State(core, s.waiting - {r},
              if |core.accepted| > |s.core.accepted| then s.log + [Accepted(s.waiting[r].intent, now)] else s.log)
      else s.(core := core)
  }

  function Run(w: World, s: State, events: seq<Event>): State {
    if events == [] then s else Step(w, Run(w, s, events[..|events| - 1]), events[|events| - 1])
  }

  /** The waiting requests are those pending at the level of keys, under their own key and expiry. */
  ghost predicate Inv(w: World, s: State) {
    && s.waiting.Keys == s.core.pending.Keys
    && forall r :: r in s.waiting ==>
         s.core.pending[r] == TradeReplay.Pending(ReplayKey(w, s.waiting[r].payload), s.waiting[r].intent.expiresAtMs)
  }

  lemma StepKeepsInv(w: World, s: State, e: Event)
    requires Inv(w, s)
    ensures Inv(w, Step(w, s, e))
  {
    hide Opened, ReplayKey, Authentic, TradeReplay.Pruned, TradeReplay.InTime;
  }

  // ---- one request ---------------------------------------------------------

  predicate Accepts(w: World, s: State, p: Payload, i: Intent, nowMs: int) {
    && Opened(w, p, nowMs) == Some(i) && TradeReplay.InTime(i.expiresAtMs, nowMs)
    && !TradeReplay.Live(s.core.used, ReplayKey(w, p), nowMs) && Authentic(w, p, i)
  }

  lemma LoneBegin(w: World, s: State, r: nat, p: Payload, nowMs: int)
    requires Inv(w, s) && r !in s.waiting && s.core.clock <= nowMs
    ensures var t := Step(w, s, Begin(r, p, nowMs)); var found := Opened(w, p, nowMs);
            var starts := found.Some? && TradeReplay.InTime(found.value.expiresAtMs, nowMs)
                          && !TradeReplay.Live(s.core.used, ReplayKey(w, p), nowMs);
            && t.log == s.log && t.core.clock == nowMs && t.core.used == TradeReplay.Pruned(s.core.used, nowMs)
            && t.waiting == if starts then s.waiting[r := Waiting(p, found.value)] else s.waiting
  {
    hide Opened, ReplayKey, TradeReplay.Pruned, TradeReplay.InTime, TradeReplay.Live;
  }

  lemma LoneFinish(w: World, s: State, r: nat, nowMs: int)
    requires Inv(w, s) && s.core.clock <= nowMs
    ensures var t := Step(w, s, Finish(r, true, nowMs));
            if r !in s.waiting then t == s
            else
              var p, i := s.waiting[r].payload, s.waiting[r].intent;
              && t.waiting == s.waiting - {r} && t.core.clock == nowMs
              && t.log == (if Authentic(w, p, i) then s.log + [Accepted(i, nowMs)] else s.log)
              && t.core.used == if Authentic(w, p, i) then s.core.used[ReplayKey(w, p) := i.expiresAtMs]
                                else s.core.used
  {
    hide Opened, ReplayKey;
  }

  /** A request made alone is accepted exactly when it opens in time, is authentic and its key is not live. */
  lemma LoneRequest(w: World, s: State, r: nat, p: Payload, i: Intent, nowMs: int)
    requires Inv(w, s) && r !in s.waiting && s.core.clock <= nowMs
    ensures var t := Run(w, s, [Begin(r, p, nowMs), Finish(r, true, nowMs)]);
            && (t.log == s.log + [Accepted(i, nowMs)] <==> Accepts(w, s, p, i, nowMs))
            && Inv(w, t) && t.core.clock == nowMs && t.waiting == s.waiting
            && (Accepts(w, s, p, i, nowMs) ==>
                  t.core.used == TradeReplay.Pruned(s.core.used, nowMs)[ReplayKey(w, p) := i.expiresAtMs])
  {
    var begin, finish := Begin(r, p, nowMs), Finish(r, true, nowMs);
    RunTwo(w, s, begin, finish);
    var begun := Step(w, s, begin);
    StepKeepsInv(w, s, begin);
    StepKeepsInv(w, begun, finish);
    LoneBegin(w, s, r, p, nowMs);
    LoneFinish(w, begun, r, nowMs);
    hide Opened, ReplayKey, Authentic, TradeReplay.Pruned, TradeReplay.InTime, TradeReplay.Live, Run, Step, Inv;
    assert |s.log + [Accepted(i, nowMs)]| == |s.log| + 1;
    if r in begun.waiting {
      assert begun.waiting - {r} == s.waiting;
      var last := begun.waiting[r].intent;
      assert (s.log + [Accepted(i, nowMs)])[|s.log|] == Accepted(i, nowMs);
      assert (s.log + [Accepted(last, nowMs)])[|s.log|] == Accepted(last, nowMs);
    }
  }

  lemma RunTwo(w: World, s: State, first: Event, second: Event)
    ensures Run(w, s, [first, second]) == Step(w, Step(w, s, first), second)
  {
    assert [first, second][..1] == [first] && [first][..0] == [];
    assert Run(w, s, [first]) == Step(w, s, first);
  }

  // ---- exactly when an intent is accepted again before its expiry ----------

  /** Some client can send the intent. */
  ghost predicate Sendable(w: World, i: Intent) {
    IsHexId(i.address) && exists bytes :: Trim(bytes) != "" && w.open(bytes) == Some(i)
  }

  /** Some token is good for the intent's address between now and the expiry, when the intent is in time. */
  ghost predicate TokenWorks(w: World, nowMs: int, i: Intent) {
    exists token, at: int :: GoodToken(w, nowMs, i, token, at)
  }

  predicate GoodToken(w: World, nowMs: int, i: Intent, token: string, at: int) {
    && nowMs <= at <= i.expiresAtMs && TradeReplay.InTime(i.expiresAtMs, at)
    && Trim(token) != "" && w.holds(Trim(token), i.address, at)
  }

  /** A signature that verifies and whose text is not marked up to the expiry. */
  predicate UnmarkedSignature(w: World, used: TradeReplay.Used, i: Intent, signature: string) {
    && Trim(signature) != "" && w.verifies(i, signature)
    && !TradeReplay.Live(used, Trim(signature), i.expiresAtMs)
  }

  ghost predicate AcceptsAgain(w: World, s: State, events: seq<Event>, i: Intent) {
    exists k :: |s.log| <= k < |Run(w, s, events).log| && Run(w, s, events).log[k].intent == i
             && Run(w, s, events).log[k].at <= i.expiresAtMs
  }

  /** Every signature text over the intent is marked, with nobody of that key under way. */
  ghost predicate SignaturesMarked(w: World, s: State, i: Intent) {
    forall signature :: Trim(signature) != "" && w.verifies(i, signature) ==>
      TradeReplay.Protected(s.core, Trim(signature), i.expiresAtMs)
  }

  ghost predicate NoneAuthentic(w: World, s: State, i: Intent) {
    forall r :: r in s.waiting && s.waiting[r].intent == i ==> !Authentic(w, s.waiting[r].payload, i)
  }

  /** While it lasts, no request for the intent can be accepted. */
  ghost predicate Guarded(w: World, s: State, i: Intent) {
    s.core.clock > i.expiresAtMs
    || (!TokenWorks(w, s.core.clock, i) && NoneAuthentic(w, s, i) && SignaturesMarked(w, s, i))
  }

  /** A request for a marked intent is refused, or fails its signature check, unless a token works. */
  lemma BeginIsRefused(w: World, s: State, r: nat, p: Payload, nowMs: int, i: Intent)
    requires Inv(w, s) && SignaturesMarked(w, s, i) && s.core.clock <= nowMs <= i.expiresAtMs
    ensures var t := Step(w, s, Begin(r, p, nowMs));
            t.waiting == s.waiting || t.waiting == s.waiting[r := Waiting(p, Opened(w, p, nowMs).GetOr(i))]
    ensures var t := Step(w, s, Begin(r, p, nowMs));
            TokenWorks(w, s.core.clock, i) || t.waiting == s.waiting || Opened(w, p, nowMs) != Some(i)
            || !Authentic(w, p, i)
  {
    if HasToken(p) {
      if GoodToken(w, s.core.clock, i, p.token, nowMs) { assert TokenWorks(w, s.core.clock, i); }
    } else {
      assert w.verifies(i, p.signature) && Trim(p.signature) != "" ==>
          TradeReplay.Protected(s.core, Trim(p.signature), i.expiresAtMs);
    }
  }

  lemma TokenWorksEarlier(w: World, earlier: int, later: int, i: Intent)
    requires earlier <= later && TokenWorks(w, later, i)
    ensures TokenWorks(w, earlier, i)
  {
    var token, at: int :| GoodToken(w, later, i, token, at);
    assert GoodToken(w, earlier, i, token, at);
  }

  lemma StepKeepsMarked(w: World, s: State, e: Event, i: Intent)
    requires SignaturesMarked(w, s, i)
    ensures SignaturesMarked(w, Step(w, s, e), i)
  {
    forall signature | Trim(signature) != "" && w.verifies(i, signature)
      ensures TradeReplay.Protected(Step(w, s, e).core, Trim(signature), i.expiresAtMs)
    {
      TradeReplay.StepKeepsProtected(s.core, OnKeys(w, s, e), Trim(signature), i.expiresAtMs);
    }
  }

  /** The step goes back in time, ends a request, or begins one. */
  lemma StepKeepsNoneAuthentic(w: World, s: State, e: Event, i: Intent)
    requires Inv(w, s) && NoneAuthentic(w, s, i) && SignaturesMarked(w, s, i)
    ensures var t := Step(w, s, e);
            && s.core.clock <= t.core.clock && s.log <= t.log
            && (forall k :: |s.log| <= k < |t.log| ==> t.log[k].intent != i)
            && (NoneAuthentic(w, t, i) || TokenWorks(w, s.core.clock, i) || t.core.clock > i.expiresAtMs)
  {
    if e.Begin? && s.core.clock <= e.nowMs <= i.expiresAtMs { BeginIsRefused(w, s, e.request, e.payload, e.nowMs, i); }
    hide Opened, ReplayKey, Authentic, TradeReplay.Pruned, TradeReplay.InTime, TradeReplay.Live,
         TradeReplay.Protected, TokenWorks, SignaturesMarked;
  }

  lemma {:induction false} LogIsOrdered(w: World, s: State, e: Event)
    requires Inv(w, s)
    ensures var t := Step(w, s, e);
            && s.log <= t.log && s.core.clock <= t.core.clock
            && forall k :: |s.log| <= k < |t.log| ==> t.log[k].at >= s.core.clock
  {
    hide Opened, ReplayKey, Authentic, TradeReplay.Pruned, TradeReplay.InTime, TradeReplay.Live;
  }

  lemma StepKeepsGuarded(w: World, s: State, e: Event, i: Intent)
    requires Inv(w, s) && Guarded(w, s, i)
    ensures Guarded(w, Step(w, s, e), i)
    ensures s.log <= Step(w, s, e).log
    ensures forall k :: |s.log| <= k < |Step(w, s, e).log| && Step(w, s, e).log[k].intent == i ==>
              Step(w, s, e).log[k].at > i.expiresAtMs
  {
    var t := Step(w, s, e);
    LogIsOrdered(w, s, e);
    if s.core.clock <= i.expiresAtMs {
      StepKeepsNoneAuthentic(w, s, e, i);
      StepKeepsMarked(w, s, e, i);
      if TokenWorks(w, t.core.clock, i) { TokenWorksEarlier(w, s.core.clock, t.core.clock, i); }
    }
    hide Step, Inv, TokenWorks, NoneAuthentic, SignaturesMarked;
  }

  lemma {:induction false} RunKeepsGuarded(w: World, s: State, events: seq<Event>, i: Intent)
    requires Inv(w, s) && Guarded(w, s, i)
    ensures Inv(w, Run(w, s, events)) && Guarded(w, Run(w, s, events), i)
    ensures s.log <= Run(w, s, events).log && !AcceptsAgain(w, s, events, i)
  {
    if events != [] {
      var n := |events| - 1;
      RunKeepsGuarded(w, s, events[..n], i);
      hide Inv, Guarded, Step;
      StepKeepsInv(w, Run(w, s, events[..n]), events[n]);
      StepKeepsGuarded(w, Run(w, s, events[..n]), events[n], i);
    }
  }

  lemma {:induction false} LongerThan(texts: set<string>) returns (bound: nat)
    ensures forall t :: t in texts ==> |t| < bound
  {
    if texts == {} {
      bound := 0;
    } else {
      var t :| t in texts;
      var below := LongerThan(texts - {t});
      assert forall u :: u in texts ==> u == t || u in texts - {t};
      bound := Max(below, |t| + 1);
    }
  }

  /** Some text is no key of the cache. */
  lemma FreshText(used: TradeReplay.Used) returns (text: string)
    ensures text !in used && text != "" && Trim(text) == text
  {
    var bound := LongerThan(used.Keys);
    text := seq(bound + 1, _ => 'x');
    assert text[0] == 'x' && text[|text| - 1] == 'x';
  }

  /** With a token, any text in the signature field makes a new key. */
  lemma TokenIsAccepted(w: World, s: State, i: Intent) returns (events: seq<Event>)
    requires Inv(w, s) && s.waiting == map[] && Sendable(w, i) && TokenWorks(w, s.core.clock, i)
    ensures AcceptsAgain(w, s, events, i)
  {
    var bytes :| Trim(bytes) != "" && w.open(bytes) == Some(i);
    var token, at: int :| GoodToken(w, s.core.clock, i, token, at);
    var signature := FreshText(s.core.used);
    HexIdIsPlain(i.address);
    events := SentAlone(w, s, Payload(i.address, i.expiresAtMs, bytes, signature, token), i, at);
  }

  lemma SignatureIsAccepted(w: World, s: State, i: Intent, signature: string) returns (events: seq<Event>)
    requires Inv(w, s) && s.waiting == map[] && Sendable(w, i) && s.core.clock <= i.expiresAtMs
    requires UnmarkedSignature(w, s.core.used, i, signature)
    ensures AcceptsAgain(w, s, events, i)
  {
    var bytes :| Trim(bytes) != "" && w.open(bytes) == Some(i);
    HexIdIsPlain(i.address);
    events := SentAlone(w, s, Payload(i.address, i.expiresAtMs, bytes, signature, ""), i, i.expiresAtMs);
  }

  lemma SentAlone(w: World, s: State, p: Payload, i: Intent, at: int) returns (events: seq<Event>)
    requires Inv(w, s) && s.waiting == map[] && s.core.clock <= at <= i.expiresAtMs && Accepts(w, s, p, i, at)
    ensures AcceptsAgain(w, s, events, i)
  {
    LoneRequest(w, s, 0, p, i, at);
    events := [Begin(0, p, at), Finish(0, true, at)];
    hide Run, Accepts;
    assert Run(w, s, events).log[|s.log|] == Accepted(i, at);
  }

  /**
   With no request under way, an intent can still be accepted before its expiry, whether it was before or not, exactly
   when a session token is good for its address in that time, or a signature over it verifies whose text is not marked
   up to its expiry.
   */
  lemma AcceptableExactly(w: World, s: State, i: Intent)
    requires Inv(w, s) && s.waiting == map[] && s.core.clock <= i.expiresAtMs && Sendable(w, i)
    ensures (exists events :: AcceptsAgain(w, s, events, i)) <==>
              TokenWorks(w, s.core.clock, i) || exists signature :: UnmarkedSignature(w, s.core.used, i, signature)
  {
    if TokenWorks(w, s.core.clock, i) {
      var events := TokenIsAccepted(w, s, i);
    } else if signature :| UnmarkedSignature(w, s.core.used, i, signature) {
      var events := SignatureIsAccepted(w, s, i, signature);
    } else {
      assert Guarded(w, s, i) by {
        forall signature | Trim(signature) != "" && w.verifies(i, signature)
          ensures TradeReplay.Protected(s.core, Trim(signature), i.expiresAtMs)
        {
          assert !UnmarkedSignature(w, s.core.used, i, signature);
        }
      }
      forall events ensures !AcceptsAgain(w, s, events, i) { RunKeepsGuarded(w, s, events, i); }
    }
  }

  /**
   So an intent that was accepted alone for its signature is accepted once, exactly when no token is good for its
   address in time and all other signatures over it are marked: in particular when there is only that one.
   */
  lemma AcceptedOnceExactly(w: World, s: State, p: Payload, i: Intent, nowMs: int)
    requires Inv(w, s) && s.waiting == map[] && s.core.clock <= nowMs <= i.expiresAtMs
    requires Accepts(w, s, p, i, nowMs) && !HasToken(p)
    ensures var t := Run(w, s, [Begin(0, p, nowMs), Finish(0, true, nowMs)]);
            && t.log == s.log + [Accepted(i, nowMs)]
            && ((forall events :: !AcceptsAgain(w, t, events, i)) <==>
                  && !TokenWorks(w, nowMs, i)
                  && forall signature :: Trim(signature) != Trim(p.signature) ==>
                       !UnmarkedSignature(w, s.core.used, i, signature))
  {
    LoneRequest(w, s, 0, p, i, nowMs);
    var t := Run(w, s, [Begin(0, p, nowMs), Finish(0, true, nowMs)]);
    AcceptedIsSendable(w, p, i, nowMs);
    forall signature ensures UnmarkedSignature(w, t.core.used, i, signature) <==>
        UnmarkedSignature(w, s.core.used, i, signature) && Trim(signature) != Trim(p.signature) {}
    hide Run, UnmarkedSignature, Accepts, TokenWorks;
    AcceptableExactly(w, t, i);
  }

  lemma AcceptedIsSendable(w: World, p: Payload, i: Intent, nowMs: int)
    requires Opened(w, p, nowMs) == Some(i)
    ensures Sendable(w, i)
  {}

  /**
   A client with a session token sends one signed message three times, one after the other, with two different texts
   in the signature field and with none: all three are accepted, before the expiry.
   */
  lemma TokenReplaysAtWill(w: World, i: Intent, bytes: string, token: string, nowMs: int) returns (events: seq<Event>)
    requires IsHexId(i.address) && Trim(bytes) != "" && w.open(bytes) == Some(i) && GoodToken(w, nowMs, i, token, nowMs)
    ensures var p := Payload(i.address, i.expiresAtMs, bytes, "x", token);
            var q, r := p.(signature := "y"), p.(signature := "");
            && events == [Begin(1, p, nowMs), Finish(1, true, nowMs), Begin(2, q, nowMs), Finish(2, true, nowMs),
                          Begin(3, r, nowMs), Finish(3, true, nowMs)]
            && Run(w, State(TradeReplay.State(map[], nowMs, map[], []), map[], []), events).log
               == [Accepted(i, nowMs), Accepted(i, nowMs), Accepted(i, nowMs)]
  {
    var p := Payload(i.address, i.expiresAtMs, bytes, "x", token);
    var q, r := p.(signature := "y"), p.(signature := "");
    hide IsHexId, GoodToken, Trim, Normalize, Opened, Authentic, ReplayKey, Run, Step;
    TokenRequestOpens(w, i, p, nowMs);
    TokenRequestOpens(w, i, q, nowMs);
    TokenRequestOpens(w, i, r, nowMs);
    ThreeKeys(w, p, q, r);
    events := ThreeAccepted(w, p, q, r, i, nowMs);
  }

  lemma ThreeAccepted(w: World, p: Payload, q: Payload, r: Payload, i: Intent, nowMs: int) returns (events: seq<Event>)
    requires Opened(w, p, nowMs) == Opened(w, q, nowMs) == Opened(w, r, nowMs) == Some(i)
    requires Authentic(w, p, i) && Authentic(w, q, i) && Authentic(w, r, i)
    requires TradeReplay.InTime(i.expiresAtMs, nowMs)
    requires ReplayKey(w, q) != ReplayKey(w, p) && ReplayKey(w, r) !in {ReplayKey(w, p), ReplayKey(w, q)}
    ensures events == [Begin(1, p, nowMs), Finish(1, true, nowMs), Begin(2, q, nowMs), Finish(2, true, nowMs),
                       Begin(3, r, nowMs), Finish(3, true, nowMs)]
    ensures Run(w, State(TradeReplay.State(map[], nowMs, map[], []), map[], []), events).log
         == [Accepted(i, nowMs), Accepted(i, nowMs), Accepted(i, nowMs)]
  {
    var s := State(TradeReplay.State(map[], nowMs, map[], []), map[], []);
    EmptyInv(w, nowMs);
    var e1, e2, e3 := [Begin(1, p, nowMs), Finish(1, true, nowMs)], [Begin(2, q, nowMs), Finish(2, true, nowMs)],
                      [Begin(3, r, nowMs), Finish(3, true, nowMs)];
    hide Opened, ReplayKey, Authentic, Run, Step, Inv, TradeReplay.InTime;
    NewKeyIsAccepted(w, s, 1, p, i, nowMs);
    var s1 := Run(w, s, e1);
    assert s1.log == [Accepted(i, nowMs)];
    NewKeyIsAccepted(w, s1, 2, q, i, nowMs);
    var s2 := Run(w, s1, e2);
    assert s2.log == [Accepted(i, nowMs), Accepted(i, nowMs)];
    NewKeyIsAccepted(w, s2, 3, r, i, nowMs);
    assert Run(w, s2, e3).log == [Accepted(i, nowMs), Accepted(i, nowMs), Accepted(i, nowMs)];
    events := RunThree(w, s, e1, e2, e3);
  }

  lemma RunThree(w: World, s: State, a: seq<Event>, b: seq<Event>, c: seq<Event>) returns (events: seq<Event>)
    requires |a| == |b| == |c| == 2
    ensures events == [a[0], a[1], b[0], b[1], c[0], c[1]]
    ensures Run(w, s, events) == Run(w, Run(w, Run(w, s, a), b), c)
  {
    RunInParts(w, s, a, b);
    RunInParts(w, s, a + b, c);
    hide Run;
    events := a + b + c;
  }

  lemma EmptyInv(w: World, nowMs: int)
    ensures Inv(w, State(TradeReplay.State(map[], nowMs, map[], []), map[], []))
  {}

  lemma NewKeyIsAccepted(w: World, s: State, r: nat, p: Payload, i: Intent, nowMs: int)
    requires Inv(w, s) && s.waiting == map[] && s.core.clock == nowMs && ReplayKey(w, p) !in s.core.used
    requires Opened(w, p, nowMs) == Some(i) && Authentic(w, p, i) && TradeReplay.InTime(i.expiresAtMs, nowMs)
    ensures var t := Run(w, s, [Begin(r, p, nowMs), Finish(r, true, nowMs)]);
            && Inv(w, t) && t.waiting == map[] && t.core.clock == nowMs && t.log == s.log + [Accepted(i, nowMs)]
            && forall key :: key in t.core.used ==> key in s.core.used || key == ReplayKey(w, p)
  {
    LoneRequest(w, s, r, p, i, nowMs);
    hide Opened, ReplayKey, Authentic, Run, Inv, TradeReplay.InTime;
  }

  lemma TokenRequestOpens(w: World, i: Intent, p: Payload, nowMs: int)
    requires IsHexId(i.address) && Trim(p.messageBytes) != "" && w.open(p.messageBytes) == Some(i)
    requires p.address == i.address && p.expiresAtMs == i.expiresAtMs && GoodToken(w, nowMs, i, p.token, nowMs)
    ensures Opened(w, p, nowMs) == Some(i) && Authentic(w, p, i) && TradeReplay.InTime(i.expiresAtMs, nowMs)
  {
    HexIdIsPlain(i.address);
    hide IsHexId, Normalize, Trim, TradeReplay.InTime;
  }

  lemma ThreeKeys(w: World, p: Payload, q: Payload, r: Payload)
    requires p.signature == "x" && q.signature == "y" && r.signature == ""
    ensures ReplayKey(w, p) == "x" && ReplayKey(w, q) == "y" && ReplayKey(w, r) !in {"x", "y"}
  {
    hide Normalize;
    assert ReplayKey(w, r)[0] == 't';
  }

  lemma {:induction false} RunInParts(w: World, s: State, first: seq<Event>, rest: seq<Event>)
    ensures Run(w, s, first + rest) == Run(w, Run(w, s, first), rest)
  {
    hide Step;
    if rest == [] {
      assert first + rest == first;
    } else {
      RunInParts(w, s, first, rest[..|rest| - 1]);
      assert (first + rest)[..|first + rest| - 1] == first + rest[..|rest| - 1];
    }
  }

  // ---- keys and what an acceptance shows -----------------------------------

  /**
   Requests without a signature have one key exactly when address and message text are the same, but for the case and
   the white space around; requests with one, exactly when its text is.
   */
  lemma SameKeyExactly(w: World, p: Payload, q: Payload)
    requires forall a, b :: w.digest(a) == w.digest(b) ==> a == b
    ensures Trim(p.signature) != "" && Trim(q.signature) != "" ==>
              (ReplayKey(w, p) == ReplayKey(w, q) <==> Trim(p.signature) == Trim(q.signature))
    ensures Trim(p.signature) == "" && Trim(q.signature) == "" ==>
              (ReplayKey(w, p) == ReplayKey(w, q) <==>
                 Normalize(p.address) + "\n" + Trim(p.messageBytes)
                 == Normalize(q.address) + "\n" + Trim(q.messageBytes))
    ensures Trim(p.signature) == "" ==> |ReplayKey(w, p)| >= 6 && ReplayKey(w, p)[..6] == "token:"
  {
    hide Trim, Normalize;
    var x, y := w.digest(Normalize(p.address) + "\n" + Trim(p.messageBytes)),
                w.digest(Normalize(q.address) + "\n" + Trim(q.messageBytes));
    assert ("token:" + x)[6..] == x && ("token:" + y)[6..] == y;
  }

  /** Sent with that intent's address and expiry, in time, by a token for the address or a signature that verifies. */
  ghost predicate Sent(w: World, e: Event, i: Intent) {
    && e.Begin? && IsHexId(i.address) && Normalize(e.payload.address) == i.address
    && e.payload.expiresAtMs == i.expiresAtMs && w.open(e.payload.messageBytes) == Some(i)
    && i.expiresAtMs - 330_000 <= e.nowMs <= i.expiresAtMs + 30_000
    && if Trim(e.payload.token) != "" then w.holds(Trim(e.payload.token), i.address, e.nowMs)
       else Trim(e.payload.signature) != "" && w.verifies(i, e.payload.signature)
  }

  /** What is still to be decided is the signature of a request without a token. */
  ghost predicate Begun(w: World, e: Event, x: Waiting) {
    && e.Begin? && e.payload == x.payload
    && (Authentic(w, x.payload, x.intent) ==> Sent(w, e, x.intent))
  }

  ghost predicate WasSent(w: World, events: seq<Event>, i: Intent) {
    exists k :: 0 <= k < |events| && Sent(w, events[k], i)
  }

  ghost predicate WasBegun(w: World, events: seq<Event>, x: Waiting) {
    exists k :: 0 <= k < |events| && Begun(w, events[k], x)
  }

  ghost predicate AllSent(w: World, s: State, events: seq<Event>) {
    && (forall r :: r in s.waiting ==> WasBegun(w, events, s.waiting[r]))
    && (forall k :: 0 <= k < |s.log| ==> WasSent(w, events, s.log[k].intent))
  }

  lemma BeginIsSent(w: World, s: State, e: Event, r: nat)
    requires Inv(w, s) && e.Begin? && r in Step(w, s, e).waiting && r !in s.waiting
    ensures Begun(w, e, Step(w, s, e).waiting[r])
  {
    var found := Opened(w, e.payload, e.nowMs);
    assert found.Some? && TradeReplay.InTime(found.value.expiresAtMs, e.nowMs);
    TradeReplay.InTimeExactly(found.value.expiresAtMs, e.nowMs);
    hide IsHexId, Normalize, Trim, ReplayKey, TradeReplay.InTime, TradeReplay.Pruned, TradeReplay.Live;
  }

  lemma WaitingIsKept(w: World, s: State, e: Event, r: nat)
    requires Inv(w, s) && r in s.waiting && r in Step(w, s, e).waiting
    ensures Step(w, s, e).waiting[r] == s.waiting[r]
  {
    hide Opened, ReplayKey, Authentic, TradeReplay.Pruned, TradeReplay.InTime, TradeReplay.Live;
  }

  lemma LogIsOfWaiting(w: World, s: State, e: Event)
    requires Inv(w, s)
    ensures var t := Step(w, s, e);
            && s.log <= t.log
            && (|t.log| > |s.log| ==>
                  && |t.log| == |s.log| + 1 && e.request in s.waiting
                  && t.log[|s.log|].intent == s.waiting[e.request].intent
                  && Authentic(w, s.waiting[e.request].payload, s.waiting[e.request].intent))
  {
    hide Opened, ReplayKey, Authentic, HasToken, TradeReplay.Pruned, TradeReplay.InTime, TradeReplay.Live;
  }

  lemma SentOneMore(w: World, events: seq<Event>, e: Event, i: Intent, x: Waiting)
    ensures WasSent(w, events, i) ==> WasSent(w, events + [e], i)
    ensures WasBegun(w, events, x) || Begun(w, e, x) ==> WasBegun(w, events + [e], x)
    ensures WasBegun(w, events, x) && Authentic(w, x.payload, x.intent) ==> WasSent(w, events, x.intent)
  {
    hide Sent, Authentic;
    var more := events + [e];
    if k :| 0 <= k < |events| && Sent(w, events[k], i) { assert more[k] == events[k]; }
    if k :| 0 <= k < |events| && Begun(w, events[k], x) { assert more[k] == events[k]; }
    assert more[|events|] == e;
  }

  lemma StepKeepsWaitingSent(w: World, s: State, events: seq<Event>, e: Event, r: nat)
    requires Inv(w, s) && AllSent(w, s, events) && r in Step(w, s, e).waiting
    ensures WasBegun(w, events + [e], Step(w, s, e).waiting[r])
  {
    var x := Step(w, s, e).waiting[r];
    SentOneMore(w, events, e, x.intent, x);
    if r in s.waiting { WaitingIsKept(w, s, e, r); } else { NewIsBegun(w, s, e, r); }
  }

  lemma StepKeepsLogSent(w: World, s: State, events: seq<Event>, e: Event, k: nat)
    requires Inv(w, s) && AllSent(w, s, events) && k < |Step(w, s, e).log|
    ensures WasSent(w, events + [e], Step(w, s, e).log[k].intent)
  {
    hide Step, Inv, Begun, Sent, Authentic, WasSent, WasBegun;
    LogIsOfWaiting(w, s, e);
    var i := Step(w, s, e).log[k].intent;
    if k < |s.log| {
      assert i == s.log[k].intent;
      SentOneMore(w, events, e, i, Waiting(Payload("", 0, "", "", ""), i));
    } else {
      SentOneMore(w, events, e, i, s.waiting[e.request]);
    }
  }

  /** Over every run: an accepted intent was sent with its own address and expiry, in time, and authentically. */
  lemma {:induction false} AcceptedWasSent(w: World, clock: int, events: seq<Event>)
    ensures var s := Run(w, State(TradeReplay.State(map[], clock, map[], []), map[], []), events);
            Inv(w, s) && AllSent(w, s, events)
  {
    var start := State(TradeReplay.State(map[], clock, map[], []), map[], []);
    if events == [] {
      EmptyInv(w, clock);
    } else {
      var n := |events| - 1;
      var s := Run(w, start, events[..n]);
      AcceptedWasSent(w, clock, events[..n]);
      assert events == events[..n] + [events[n]] && Run(w, start, events) == Step(w, s, events[n]);
      hide Run, Inv, Step, WasSent, WasBegun;
      StepKeepsInv(w, s, events[n]);
      forall r | r in Step(w, s, events[n]).waiting ensures WasBegun(w, events, Step(w, s, events[n]).waiting[r]) {
        StepKeepsWaitingSent(w, s, events[..n], events[n], r);
      }
      forall k | 0 <= k < |Step(w, s, events[n]).log| ensures WasSent(w, events, Step(w, s, events[n]).log[k].intent) {
        StepKeepsLogSent(w, s, events[..n], events[n], k);
      }
    }
  }

  lemma NewIsBegun(w: World, s: State, e: Event, r: nat)
    requires Inv(w, s) && r in Step(w, s, e).waiting && r !in s.waiting
    ensures Begun(w, e, Step(w, s, e).waiting[r])
  {
    assert e.Begin?;
    BeginIsSent(w, s, e, r);
  }
}
