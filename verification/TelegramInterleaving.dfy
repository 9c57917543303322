/**
 Sessions of telegram-auth.service.ts when operations overlap: every event is one answer of Redis, so a revocation may
 come between the read and the write of another operation.
 */
module TelegramInterleaving {
  import opened JsBasics
  import opened JsText
  import opened TelegramAuth

  /** What an operation still has to do when Redis answers next. */
  datatype Pending =
    | Opening(chat: string, session: Session)      // createSession: SET is due
    | Indexing(chat: string, account: string)      // createSession: SADD is due
    | Touching(chat: string, session: Session)     // setActiveOracle: SET is due
    | Ending(chat: string, account: string)        // revokeSession: DEL is due
    | Unindexing(chat: string, account: string)    // revokeSession: SREM is due
    | Revoking(account: string, chats: set<string>) // revokeSessionsForAccount: the pipeline is due

  datatype Snapshot = Snapshot(db: Db, clock: int, pending: map<nat, Pending>)

  /** Begin events start an operation, by its read if it has one; Answered lets its next command take effect. */
  datatype Event =
    | BeginLink(op: nat, chat: string, account: string, owner: string, username: Option<string>, nowMs: int)
    | BeginPick(op: nat, chat: string, oracle: string, nowMs: int)
    | BeginEnd(op: nat, chat: string, nowMs: int)
    | BeginRevoke(op: nat, account: string, nowMs: int)
    | Answered(op: nat, nowMs: int)

  // ---- steps ---------------------------------------------------------------

  function Await(s: Snapshot, op: nat, p: Pending): Snapshot { s.(pending := s.pending[op := p]) }

  /** The due command takes effect. */
  function Effect(cfg: Config, s: Snapshot, op: nat, nowMs: int): Snapshot
    requires op in s.pending
  {
    var done := s.(pending := s.pending - {op});
    match s.pending[op]
    case Opening(chat, session) =>
      Await(s.(db := s.db.(sessions := s.db.sessions[chat := session.(goneAtMs := GoneAt(nowMs, cfg.sessionTtlMs))])),
            op, Indexing(chat, session.account))
    case Indexing(chat, account) => done.(db := AddMember(s.db, account, chat))
    case Touching(chat, session) =>
      done.(db := s.db.(sessions := s.db.sessions[chat := session.(goneAtMs := GoneAt(nowMs, cfg.sessionTtlMs))]))
    case Ending(chat, account) =>
      Await(s.(db := s.db.(sessions := s.db.sessions - {chat})), op, Unindexing(chat, account))
    case Unindexing(chat, account) => done.(db := RemoveMember(s.db, account, chat))
    case Revoking(account, chats) =>
      done.(db := s.db.(sessions := s.db.sessions - chats, chats := s.db.chats - {account}))
  }

  function Step(cfg: Config, s: Snapshot, e: Event): Snapshot {
    if e.nowMs < s.clock then s
    else
      var t := s.(clock := e.nowMs);
      if e.Answered? then (if e.op in s.pending then Effect(cfg, t, e.op, e.nowMs) else t)
      else if e.op in s.pending then t
      else
        match e
        case BeginLink(op, chat, account, owner, username, now) =>
          var session := Session(chat, Normalize(account), Normalize(owner), now + cfg.sessionTtlMs, now, None,
                                 username, 0);
          if IsHexId(Normalize(account)) then Await(t, op, Opening(chat, session)) else t
        case BeginPick(op, chat, oracle, now) =>
          if SessionSeen(s.db, chat, now) && now < s.db.sessions[chat].expiresAtMs && IsHexId(Normalize(oracle)) then
            var session := s.db.sessions[chat].(activeOracle := Some(Normalize(oracle)),
                                                expiresAtMs := now + cfg.sessionTtlMs);
            Await(t, op, Touching(chat, session))
          else t
        case BeginEnd(op, chat, now) =>
          if SessionSeen(s.db, chat, now) then Await(t, op, Ending(chat, s.db.sessions[chat].account)) else t
        case BeginRevoke(op, account, now) =>
          var chats := Members(s.db, Normalize(account));
          if IsHexId(Normalize(account)) && chats != {} then Await(t, op, Revoking(Normalize(account), chats)) else t
        case _ => t
  }

  function Run(cfg: Config, s: Snapshot, events: seq<Event>): Snapshot {
    if events == [] then s else Step(cfg, Run(cfg, s, events[..|events| - 1]), events[|events| - 1])
  }

  // ---- when an account stays revoked ---------------------------------------

  /** No session of the account is live now. */
  ghost predicate NoneLive(s: Snapshot, account: string) {
    forall chat :: SessionSeen(s.db, chat, s.clock) ==> s.db.sessions[chat].account != account
  }

  /** The operation is about to write a session of the account. */
  predicate Writes(p: Pending, account: string) { (p.Opening? || p.Touching?) && p.session.account == account }

  /** Nothing links the account anew. */
  ghost predicate NoNewLink(events: seq<Event>, account: string) {
    forall k :: 0 <= k < |events| && events[k].BeginLink? ==> Normalize(events[k].account) != account
  }

  ghost predicate StaysRevoked(cfg: Config, s: Snapshot, account: string) {
    forall events :: NoNewLink(events, account) ==> NoneLive(Run(cfg, s, events), account)
  }

  /** No session of the account is live, and none is about to be written. */
  ghost predicate Settled(s: Snapshot, account: string) {
    NoneLive(s, account) && forall op :: op in s.pending ==> !Writes(s.pending[op], account)
  }

  lemma EffectKeepsSettled(cfg: Config, s: Snapshot, op: nat, nowMs: int, account: string)
    requires Settled(s, account) && op in s.pending && s.clock == nowMs
    ensures Settled(Effect(cfg, s, op, nowMs), account)
  {
    hide GoneAt;
  }

  lemma StepKeepsSettled(cfg: Config, s: Snapshot, e: Event, account: string)
    requires Settled(s, account) && (e.BeginLink? ==> Normalize(e.account) != account)
    ensures Settled(Step(cfg, s, e), account)
  {
    if s.clock <= e.nowMs {
      var t := s.(clock := e.nowMs);
      assert Settled(t, account) by {
        forall chat | SessionSeen(t.db, chat, t.clock) ensures t.db.sessions[chat].account != account {
          assert SessionSeen(s.db, chat, s.clock);
        }
      }
      if e.Answered? && e.op in s.pending { EffectKeepsSettled(cfg, t, e.op, e.nowMs, account); }
    }
    hide Effect, IsHexId, Normalize;
  }

  lemma {:induction false} RunKeepsSettled(cfg: Config, s: Snapshot, events: seq<Event>, account: string)
    requires Settled(s, account) && NoNewLink(events, account)
    ensures Settled(Run(cfg, s, events), account)
  {
    if events != [] {
      RunKeepsSettled(cfg, s, events[..|events| - 1], account);
      hide Settled, Step;
      StepKeepsSettled(cfg, Run(cfg, s, events[..|events| - 1]), events[|events| - 1], account);
    }
  }

  /** The due write makes a session of the account live. */
  lemma WriteGoesThrough(cfg: Config, s: Snapshot, op: nat, account: string)
    requires op in s.pending && Writes(s.pending[op], account)
    ensures !NoneLive(Step(cfg, s, Answered(op, s.clock)), account)
  {
    var t := Step(cfg, s, Answered(op, s.clock));
    assert SessionSeen(t.db, s.pending[op].chat, t.clock);
  }

  lemma RunOne(cfg: Config, s: Snapshot, e: Event)
    ensures Run(cfg, s, [e]) == Step(cfg, s, e)
  {
    assert [e][..0] == [];
    hide Step;
  }

  /**
   From any state: without a new link, no session of the account is ever live again exactly when none is live now and
   no operation that has read or built one is about to write it.
   */
  lemma StaysRevokedExactlyWhenSettled(cfg: Config, s: Snapshot, account: string)
    ensures StaysRevoked(cfg, s, account) <==> Settled(s, account)
  {
    if Settled(s, account) {
      forall events | NoNewLink(events, account) ensures NoneLive(Run(cfg, s, events), account) {
        RunKeepsSettled(cfg, s, events, account);
      }
    } else if op :| op in s.pending && Writes(s.pending[op], account) {
      var write := Answered(op, s.clock);
      WriteGoesThrough(cfg, s, op, account);
      RunOne(cfg, s, write);
      assert NoNewLink([write], account);
    } else {
      assert NoNewLink([], account) && Run(cfg, s, []) == s;
    }
  }

  /**
   A revocation that read `chats` from the index holds exactly when these are all chats with a live session of the
   account, and no other operation is about to write one.
   */
  lemma RevocationHoldsExactly(cfg: Config, s: Snapshot, op: nat)
    requires op in s.pending && s.pending[op].Revoking?
    ensures var account, chats := s.pending[op].account, s.pending[op].chats;
            StaysRevoked(cfg, Step(cfg, s, Answered(op, s.clock)), account) <==>
              && (forall chat :: SessionSeen(s.db, chat, s.clock) && s.db.sessions[chat].account == account ==>
                    chat in chats)
              && forall p :: p in s.pending ==> !Writes(s.pending[p], account)
  {
    var account, chats := s.pending[op].account, s.pending[op].chats;
    var t := Step(cfg, s, Answered(op, s.clock));
    StaysRevokedExactlyWhenSettled(cfg, t, account);
    forall chat ensures SessionSeen(t.db, chat, t.clock) <==> SessionSeen(s.db, chat, s.clock) && chat !in chats {}
    forall p ensures p in t.pending <==> p in s.pending && p != op {}
  }

  /** Operations one at a time meet this: where the index is right and nothing is under way, a revocation holds. */
  lemma LoneRevocationHolds(cfg: Config, s: Snapshot, op: nat, account: string)
    requires Indexed(s.db) && s.pending == map[] && IsHexId(account) && Normalize(account) == account
    ensures StaysRevoked(cfg, Run(cfg, s, [BeginRevoke(op, account, s.clock), Answered(op, s.clock)]), account)
  {
    var begin, answer := BeginRevoke(op, account, s.clock), Answered(op, s.clock);
    var t := Step(cfg, s, begin);
    assert Run(cfg, s, [begin, answer]) == Step(cfg, t, answer) by {
      RunOne(cfg, s, begin);
      assert [begin, answer][..1] == [begin];
    }
    hide Run, IsHexId, Normalize;
    if op in t.pending {
      RevocationHoldsExactly(cfg, t, op);
    } else {
      assert Settled(s, account) by {
        assert Members(s.db, account) == {};
      }
      StaysRevokedExactlyWhenSettled(cfg, s, account);
      assert Step(cfg, t, answer) == s;
    }
  }

  // ---- revocations that do not hold ----------------------------------------

  /** The state after a chat was linked to an account, with no operation under way. */
  function Linked(cfg: Config, chat: string, session: Session): Snapshot {
    Snapshot(Db(map[], map[chat := session], map[session.account := {chat}]), 0, map[])
  }

  /**
   The owner picks an oracle while the account is revoked: the session that was read before is written back after, live
   but in no index, so that a second revocation does not find it either.
   */
  lemma TouchUndoesRevocation(cfg: Config, chat: string, session: Session, oracle: string) returns (events: seq<Event>)
    requires IsHexId(session.account) && IsHexId(oracle) && session.goneAtMs > 0 && session.expiresAtMs > 0
    ensures events == [BeginPick(1, chat, oracle, 0), BeginRevoke(2, session.account, 0), Answered(2, 0),
                       Answered(1, 0), BeginRevoke(3, session.account, 0), Answered(3, 0)]
    ensures var t := Run(cfg, Linked(cfg, chat, session), events);
            && t.pending == map[] && SessionSeen(t.db, chat, t.clock) && t.db.sessions[chat].account == session.account
            && chat !in Members(t.db, session.account)
  {
    HexIdIsPlain(session.account);
    HexIdIsPlain(oracle);
    hide IsHexId, Normalize;
    var account := session.account;
    var s0 := Linked(cfg, chat, session);
    var touched := session.(activeOracle := Some(oracle), expiresAtMs := cfg.sessionTtlMs);
    var touching := Touching(chat, touched);
    var s1 := s0.(pending := map[1 := touching]);
    var s2 := s0.(pending := map[1 := touching, 2 := Revoking(account, {chat})]);
    var gone := Db(map[], map[], map[]);
    var s3 := Snapshot(gone, 0, map[1 := touching]);
    var s4 := Snapshot(gone.(sessions := map[chat := touched.(goneAtMs := GoneAt(0, cfg.sessionTtlMs))]), 0, map[]);
    assert Step(cfg, s0, BeginPick(1, chat, oracle, 0)) == s1;
    assert Step(cfg, s1, BeginRevoke(2, account, 0)) == s2;
    assert Step(cfg, s2, Answered(2, 0)) == s3;
    assert Step(cfg, s3, Answered(1, 0)) == s4;
    assert Step(cfg, s4, BeginRevoke(3, account, 0)) == s4;
    assert Step(cfg, s4, Answered(3, 0)) == s4;
    hide Step;
    assert Run(cfg, s0, []) == s0;
    hide Run;
    events := [];
    events := Then(cfg, s0, events, BeginPick(1, chat, oracle, 0));
    events := Then(cfg, s0, events, BeginRevoke(2, account, 0));
    events := Then(cfg, s0, events, Answered(2, 0));
    events := Then(cfg, s0, events, Answered(1, 0));
    events := Then(cfg, s0, events, BeginRevoke(3, account, 0));
    events := Then(cfg, s0, events, Answered(3, 0));
  }

  /** A second chat is linked while the account is revoked: its session is written but not indexed yet, and survives. */
  lemma LinkOutrunsRevocation(cfg: Config, first: string, session: Session, chat: string) returns (events: seq<Event>)
    requires IsHexId(session.account) && chat != first
    ensures events == [BeginLink(1, chat, session.account, "", None, 0), Answered(1, 0),
                       BeginRevoke(2, session.account, 0), Answered(2, 0), Answered(1, 0)]
    ensures var t := Run(cfg, Linked(cfg, first, session), events);
            && t.pending == map[] && SessionSeen(t.db, chat, t.clock) && t.db.sessions[chat].account == session.account
  {
    HexIdIsPlain(session.account);
    hide IsHexId;
    var account := session.account;
    var s0 := Linked(cfg, first, session);
    var built := Session(chat, account, Normalize(""), cfg.sessionTtlMs, 0, None, None, 0);
    var written := built.(goneAtMs := GoneAt(0, cfg.sessionTtlMs));
    hide Normalize;
    var s1 := s0.(pending := map[1 := Opening(chat, built)]);
    var both := s0.db.(sessions := map[first := session, chat := written]);
    var s2 := Snapshot(both, 0, map[1 := Indexing(chat, account)]);
    var s3 := Snapshot(both, 0, map[1 := Indexing(chat, account), 2 := Revoking(account, {first})]);
    var s4 := Snapshot(Db(map[], map[chat := written], map[]), 0, map[1 := Indexing(chat, account)]);
    var s5 := Snapshot(Db(map[], map[chat := written], map[account := {chat}]), 0, map[]);
    assert Step(cfg, s0, BeginLink(1, chat, account, "", None, 0)) == s1;
    assert Step(cfg, s1, Answered(1, 0)) == s2;
    assert Step(cfg, s2, BeginRevoke(2, account, 0)) == s3;
    assert Step(cfg, s3, Answered(2, 0)) == s4;
    assert Step(cfg, s4, Answered(1, 0)) == s5 by { assert {} + {chat} == {chat}; }
    hide Step;
    assert Run(cfg, s0, []) == s0;
    hide Run;
    events := [];
    events := Then(cfg, s0, events, BeginLink(1, chat, account, "", None, 0));
    events := Then(cfg, s0, events, Answered(1, 0));
    events := Then(cfg, s0, events, BeginRevoke(2, account, 0));
    events := Then(cfg, s0, events, Answered(2, 0));
    events := Then(cfg, s0, events, Answered(1, 0));
  }

  lemma Then(cfg: Config, s: Snapshot, events: seq<Event>, e: Event) returns (longer: seq<Event>)
    ensures longer == events + [e] && Run(cfg, s, longer) == Step(cfg, Run(cfg, s, events), e)
  {
    longer := events + [e];
    assert longer[..|events|] == events;
  }

  // ---- operations alone are those of TelegramAuth --------------------------

  lemma AloneInTwo(cfg: Config, s: Snapshot, a: Event, b: Event)
    ensures Run(cfg, s, [a, b]) == Step(cfg, Step(cfg, s, a), b)
  {
    hide Step;
    RunOne(cfg, s, a);
    assert [a, b][..1] == [a];
  }

  lemma AloneInThree(cfg: Config, s: Snapshot, a: Event, b: Event, c: Event)
    ensures Run(cfg, s, [a, b, c]) == Step(cfg, Step(cfg, Step(cfg, s, a), b), c)
  {
    hide Step;
    AloneInTwo(cfg, s, a, b);
    assert [a, b, c][..2] == [a, b];
  }

  /** Linking a chat, when nothing comes in between, is createSession as a whole. */
  lemma LinkAlone(cfg: Config, s: Snapshot, op: nat, chat: string, account: string, owner: string,
                  username: Option<string>, nowMs: int)
    requires s.pending == map[] && s.clock <= nowMs
    ensures var t := Run(cfg, s, [BeginLink(op, chat, account, owner, username, nowMs), Answered(op, nowMs),
                                  Answered(op, nowMs)]);
            t.pending == map[] && t.db == AfterCreateSession(cfg, s.db, chat, account, owner, username, nowMs).0
  {
    AloneInThree(cfg, s, BeginLink(op, chat, account, owner, username, nowMs), Answered(op, nowMs),
                 Answered(op, nowMs));
    hide IsHexId, Normalize, GoneAt, Run;
  }

  /** Picking an oracle alone is setActiveOracle as a whole, unless the session has just expired. */
  lemma PickAlone(cfg: Config, s: Snapshot, op: nat, chat: string, oracle: string, nowMs: int)
    requires s.pending == map[] && s.clock <= nowMs
    requires SessionSeen(s.db, chat, nowMs) ==> nowMs < s.db.sessions[chat].expiresAtMs
    ensures var t := Run(cfg, s, [BeginPick(op, chat, oracle, nowMs), Answered(op, nowMs)]);
            t.pending == map[] && t.db == AfterSetActiveOracle(cfg, s.db, chat, oracle, nowMs)
  {
    AloneInTwo(cfg, s, BeginPick(op, chat, oracle, nowMs), Answered(op, nowMs));
    hide IsHexId, Normalize, GoneAt, Run;
  }

  /** A pick that finds no session, an expired one or an oracle that is no object id comes to nothing. */
  lemma PickComesToNothing(cfg: Config, s: Snapshot, op: nat, chat: string, oracle: string, nowMs: int)
    requires op !in s.pending && s.clock <= nowMs
    ensures Step(cfg, s, BeginPick(op, chat, oracle, nowMs)) == s.(clock := nowMs) <==>
              !SessionSeen(s.db, chat, nowMs) || s.db.sessions[chat].expiresAtMs <= nowMs || !IsHexId(Normalize(oracle))
  {
    hide IsHexId, Normalize;
  }

  /** Ending a session alone is revokeSession as a whole. */
  lemma EndAlone(cfg: Config, s: Snapshot, op: nat, chat: string, nowMs: int)
    requires s.pending == map[] && s.clock <= nowMs
    ensures var t := Run(cfg, s, [BeginEnd(op, chat, nowMs), Answered(op, nowMs), Answered(op, nowMs)]);
            t.pending == map[] && t.db == AfterRevokeSession(s.db, chat, nowMs)
  {
    AloneInThree(cfg, s, BeginEnd(op, chat, nowMs), Answered(op, nowMs), Answered(op, nowMs));
    hide Run;
  }

  /** Revoking an account alone is revokeSessionsForAccount as a whole. */
  lemma RevokeAlone(cfg: Config, s: Snapshot, op: nat, account: string, nowMs: int)
    requires s.pending == map[] && s.clock <= nowMs
    ensures var t := Run(cfg, s, [BeginRevoke(op, account, nowMs), Answered(op, nowMs)]);
            t.pending == map[] && t.db == AfterRevokeAccount(s.db, account)
  {
    AloneInTwo(cfg, s, BeginRevoke(op, account, nowMs), Answered(op, nowMs));
    hide IsHexId, Normalize, Run;
  }
}
