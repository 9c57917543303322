/**
 One-time codes and trading sessions of telegram-auth.service.ts over Redis, for operations run one at a time.
 A Redis entry with a time to live is a map entry that is seen before `goneAtMs` only.
 */
module TelegramAuth {
  import opened JsBasics
  import opened JsText

  /** `issue` numbers the createOtp call that stored the code. */
  datatype Otp = Otp(account: string, owner: string, expiresAtMs: int, goneAtMs: int, issue: nat)

  datatype Session = Session(chat: string, account: string, owner: string, expiresAtMs: int, createdAtMs: int,
                             activeOracle: Option<string>, username: Option<string>, goneAtMs: int)

  /** The three Redis key families: codes, sessions by chat, chats by account. */
  datatype Db = Db(otps: map<string, Otp>, sessions: map<string, Session>, chats: map<string, set<string>>)

  datatype Config = Config(otpTtlMs: int, sessionTtlMs: int)

  /** `Math.max(1, Math.ceil(ttlMs / 1000))` seconds from now. */
  function GoneAt(nowMs: int, ttlMs: int): int { nowMs + 1000 * Max(1, (ttlMs + 999) / 1000) }

  predicate IsCode(code: string) { |code| == 6 && IsDecimal(code) }

  // ---- Redis commands ------------------------------------------------------

  predicate CodeSeen(db: Db, code: string, nowMs: int) { code in db.otps && nowMs < db.otps[code].goneAtMs }

  predicate SessionSeen(db: Db, chat: string, nowMs: int) { chat in db.sessions && nowMs < db.sessions[chat].goneAtMs }

  function Members(db: Db, account: string): set<string> {
    if account in db.chats then db.chats[account] else {}
  }

  function AddMember(db: Db, account: string, chat: string): Db {
    db.(chats := db.chats[account := Members(db, account) + {chat}])
  }

  function RemoveMember(db: Db, account: string, chat: string): Db {
    if account in db.chats then db.(chats := db.chats[account := db.chats[account] - {chat}]) else db
  }

  // ---- operations ----------------------------------------------------------

  /** The first of the drawn codes that is free. */
  function FirstFree(db: Db, codes: seq<string>, nowMs: int): Option<string> {
    if codes == [] then None
    else if !CodeSeen(db, codes[0], nowMs) then Some(codes[0])
    else FirstFree(db, codes[1..], nowMs)
  }

  function AfterCreateOtp(cfg: Config, db: Db, account: string, owner: string, codes: seq<string>, issue: nat,
                          nowMs: int)
    : (Db, Option<string>)
  {
    if !IsHexId(Normalize(account)) then (db, None)
    else
      match FirstFree(db, codes, nowMs)
      case None => (db, None)
      case Some(code) =>
        var otp := Otp(Normalize(account), Normalize(owner), nowMs + cfg.otpTtlMs, GoneAt(nowMs, cfg.otpTtlMs), issue);
        (db.(otps := db.otps[code := otp]), Some(code))
  }

  function AfterCreateSession(cfg: Config, db: Db, chat: string, account: string, owner: string,
                         username: Option<string>, nowMs: int): (Db, Option<Session>)
  {
    if !IsHexId(Normalize(account)) then (db, None)
    else
      var session := Session(chat, Normalize(account), Normalize(owner), nowMs + cfg.sessionTtlMs, nowMs,
                             None, username, GoneAt(nowMs, cfg.sessionTtlMs));
      (AddMember(db.(sessions := db.sessions[chat := session]), session.account, chat), Some(session))
  }

  function AfterVerifyOtp(cfg: Config, db: Db, chat: string, code: string, username: Option<string>, nowMs: int)
    : (Db, Option<Session>)
  {
    var key := Trim(code);
    if !IsCode(key) || !CodeSeen(db, key, nowMs) then (db, None)
    else
      var otp := db.otps[key];
      var consumed := db.(otps := db.otps - {key});
      if otp.expiresAtMs <= nowMs then (consumed, None)
      else AfterCreateSession(cfg, consumed, chat, otp.account, otp.owner, username, nowMs)
  }

  function AfterRevokeSession(db: Db, chat: string, nowMs: int): Db {
    if !SessionSeen(db, chat, nowMs) then db
    else RemoveMember(db.(sessions := db.sessions - {chat}), db.sessions[chat].account, chat)
  }

  function AfterGetSession(db: Db, chat: string, nowMs: int): (Db, Option<Session>) {
    if !SessionSeen(db, chat, nowMs) then (db, None)
    else if db.sessions[chat].expiresAtMs <= nowMs then (AfterRevokeSession(db, chat, nowMs), None)
    else (db, Some(db.sessions[chat]))
  }

  function AfterTouchSession(cfg: Config, db: Db, chat: string, session: Session, nowMs: int): Db {
    db.(sessions := db.sessions[chat := session.(expiresAtMs := nowMs + cfg.sessionTtlMs,
                                                 goneAtMs := GoneAt(nowMs, cfg.sessionTtlMs))])
  }

  function AfterSetActiveOracle(cfg: Config, db: Db, chat: string, oracle: string, nowMs: int): Db {
    var (seen, session) := AfterGetSession(db, chat, nowMs);
    if session.None? || !IsHexId(Normalize(oracle)) then seen
    else AfterTouchSession(cfg, seen, chat, session.value.(activeOracle := Some(Normalize(oracle))), nowMs)
  }

  function AfterRevokeAccount(db: Db, account: string): Db {
    var chats := Members(db, Normalize(account));
    if !IsHexId(Normalize(account)) || chats == {} then db
    else db.(sessions := db.sessions - chats, chats := db.chats - {Normalize(account)})
  }

  /** The service over one Redis. */
  class TelegramAuthService {
    const cfg: Config
    var otps: map<string, Otp>
    var sessions: map<string, Session>
    var accountChats: map<string, set<string>>

    function Redis(): Db
      reads this
    { Db(otps, sessions, accountChats) }

    constructor (cfg: Config)
      ensures this.cfg == cfg && Redis() == Db(map[], map[], map[])
    {
      this.cfg := cfg;
      otps, sessions, accountChats := map[], map[], map[];
    }

    method CreateOtp(accountId: string, owner: string, drawn: seq<string>, issue: nat, nowMs: int)
      returns (code: Option<string>)
      requires |drawn| == 8
      modifies this
      ensures (Redis(), code) == AfterCreateOtp(cfg, old(Redis()), accountId, owner, drawn, issue, nowMs)
    {
      var account := Normalize(accountId);
      if !IsHexId(account) { return None; }
      var otp := Otp(account, Normalize(owner), nowMs + cfg.otpTtlMs, GoneAt(nowMs, cfg.otpTtlMs), issue);
      for attempt := 0 to 8
        invariant Redis() == old(Redis())
        invariant FirstFree(Redis(), drawn, nowMs) == FirstFree(Redis(), drawn[attempt..], nowMs)
      {
        var candidate := drawn[attempt];
        if candidate !in otps || nowMs >= otps[candidate].goneAtMs {
          otps := otps[candidate := otp];
          return Some(candidate);
        }
      }
      return None;
    }

    method VerifyOtpAndCreateSession(chat: string, code: string, username: Option<string>, nowMs: int)
      returns (session: Option<Session>)
      modifies this
      ensures (Redis(), session) == AfterVerifyOtp(cfg, old(Redis()), chat, code, username, nowMs)
    {
      var key := Trim(code);
      if !IsCode(key) { return None; }
      if key !in otps || nowMs >= otps[key].goneAtMs { return None; }
      var otp := otps[key];
      otps := otps - {key};
      if otp.expiresAtMs <= nowMs { return None; }
      session := CreateSession(chat, otp.account, otp.owner, username, nowMs);
    }

    method CreateSession(chat: string, accountId: string, owner: string, username: Option<string>, nowMs: int)
      returns (session: Option<Session>)
      modifies this
      ensures (Redis(), session) == AfterCreateSession(cfg, old(Redis()), chat, accountId, owner, username, nowMs)
    {
      var account := Normalize(accountId);
      if !IsHexId(account) { return None; }
      var created := Session(chat, account, Normalize(owner), nowMs + cfg.sessionTtlMs, nowMs, None, username,
                             GoneAt(nowMs, cfg.sessionTtlMs));
      sessions := sessions[chat := created];
      var chats := if account in accountChats then accountChats[account] else {};
      accountChats := accountChats[account := chats + {chat}];
      return Some(created);
    }

    method GetSession(chat: string, nowMs: int) returns (session: Option<Session>)
      modifies this
      ensures (Redis(), session) == AfterGetSession(old(Redis()), chat, nowMs)
    {
      if chat !in sessions || nowMs >= sessions[chat].goneAtMs { return None; }
      if sessions[chat].expiresAtMs <= nowMs {
        RevokeSession(chat, nowMs);
        return None;
      }
      return Some(sessions[chat]);
    }

    method RevokeSession(chat: string, nowMs: int)
      modifies this
      ensures Redis() == AfterRevokeSession(old(Redis()), chat, nowMs)
    {
      if chat !in sessions || nowMs >= sessions[chat].goneAtMs { return; }
      var account := sessions[chat].account;
      sessions := sessions - {chat};
      if account in accountChats {
        accountChats := accountChats[account := accountChats[account] - {chat}];
      }
    }

    method SetActiveOracle(chat: string, oracle: string, nowMs: int)
      modifies this
      ensures Redis() == AfterSetActiveOracle(cfg, old(Redis()), chat, oracle, nowMs)
    {
      var session := GetSession(chat, nowMs);
      if session.None? || !IsHexId(Normalize(oracle)) { return; }
      sessions := sessions[chat := session.value.(activeOracle := Some(Normalize(oracle)),
                                                  expiresAtMs := nowMs + cfg.sessionTtlMs,
                                                  goneAtMs := GoneAt(nowMs, cfg.sessionTtlMs))];
    }

    method RevokeSessionsForAccount(accountId: string) returns (count: nat)
      modifies this
      ensures Redis() == AfterRevokeAccount(old(Redis()), accountId)
      ensures count == if IsHexId(Normalize(accountId)) then |Members(old(Redis()), Normalize(accountId))| else 0
    {
      var account := Normalize(accountId);
      if !IsHexId(account) { return 0; }
      var chatIds := Members(Redis(), account);
      if chatIds == {} { return 0; }
      var pending := chatIds;
      while pending != {}
        invariant pending <= chatIds
        invariant otps == old(otps) && accountChats == old(accountChats)
        invariant sessions == old(sessions) - (chatIds - pending)
        decreases pending
      {
        var chat :| chat in pending;
        sessions := sessions - {chat};
        pending := pending - {chat};
      }
      accountChats := accountChats - {account};
      return |chatIds|;
    }
  }

  // ---- runs of operations --------------------------------------------------

  datatype Op =
    | IssueCode(account: string, owner: string, codes: seq<string>, nowMs: int)
    | Redeem(chat: string, code: string, username: Option<string>, nowMs: int)
    | Look(chat: string, nowMs: int)
    | PickOracle(chat: string, oracle: string, nowMs: int)
    | RevokeAccount(account: string)
    | RevokeChat(chat: string, nowMs: int)

  datatype Issue = Issue(code: string, account: string, owner: string)

  datatype Redemption = Redemption(issue: nat, code: string, session: Session)

  /** `issued` and `redeemed` log every stored code and every session opened with one. */
  datatype State = State(db: Db, issued: seq<Issue>, redeemed: seq<Redemption>)

  function Step(cfg: Config, s: State, op: Op): State {
    match op
    case IssueCode(account, owner, codes, now) =>
      var (db, code) := AfterCreateOtp(cfg, s.db, account, owner, codes, |s.issued|, now);
      if code.None? then s.(db := db)
      else s.(db := db, issued := s.issued + [Issue(code.value, Normalize(account), Normalize(owner))])
    case Redeem(chat, code, username, now) =>
      var (db, session) := AfterVerifyOtp(cfg, s.db, chat, code, username, now);
      if session.None? then s.(db := db)
      else s.(db := db, redeemed := s.redeemed + [Redemption(s.db.otps[Trim(code)].issue, Trim(code), session.value)])
    case Look(chat, now) => s.(db := AfterGetSession(s.db, chat, now).0)
    case PickOracle(chat, oracle, now) => s.(db := AfterSetActiveOracle(cfg, s.db, chat, oracle, now))
    case RevokeAccount(account) => s.(db := AfterRevokeAccount(s.db, account))
    case RevokeChat(chat, now) => s.(db := AfterRevokeSession(s.db, chat, now))
  }

  function Run(cfg: Config, s: State, ops: seq<Op>): State {
    if ops == [] then s else Step(cfg, Run(cfg, s, ops[..|ops| - 1]), ops[|ops| - 1])
  }

  const EMPTY := State(Db(map[], map[], map[]), [], [])

  /** Every session is indexed under its own account. */
  ghost predicate Indexed(db: Db) {
    forall chat :: chat in db.sessions ==>
      && db.sessions[chat].chat == chat
      && IsHexId(db.sessions[chat].account)
      && chat in Members(db, db.sessions[chat].account)
  }

  /** Stored codes are as issued, each under its own issue, and not redeemed yet. */
  ghost predicate CodesInv(s: State) {
    && (forall c :: c in s.db.otps ==>
          var otp := s.db.otps[c];
          otp.issue < |s.issued| && s.issued[otp.issue] == Issue(c, otp.account, otp.owner) && IsHexId(otp.account)
          && Normalize(otp.owner) == otp.owner)
    && (forall c, r :: c in s.db.otps && 0 <= r < |s.redeemed| ==> s.redeemed[r].issue != s.db.otps[c].issue)
  }

  ghost predicate RedeemedInv(s: State) {
    && (forall r :: 0 <= r < |s.redeemed| ==>
          && s.redeemed[r].issue < |s.issued|
          && s.issued[s.redeemed[r].issue]
             == Issue(s.redeemed[r].code, s.redeemed[r].session.account, s.redeemed[r].session.owner))
    && (forall q, r :: 0 <= q < r < |s.redeemed| ==> s.redeemed[q].issue != s.redeemed[r].issue)
  }

  ghost predicate Inv(s: State) { Indexed(s.db) && CodesInv(s) && RedeemedInv(s) }

  lemma FreeIsFree(db: Db, codes: seq<string>, nowMs: int)
    ensures FirstFree(db, codes, nowMs).Some? ==> !CodeSeen(db, FirstFree(db, codes, nowMs).value, nowMs)
  {}

  lemma IssueKeepsInv(cfg: Config, s: State, account: string, owner: string, codes: seq<string>, nowMs: int)
    requires Inv(s)
    ensures Inv(Step(cfg, s, IssueCode(account, owner, codes, nowMs)))
  {
    hide IsHexId, FirstFree, Normalize;
    NormalizeTwice(owner);
  }

  lemma SessionKeepsIndexed(cfg: Config, db: Db, chat: string, account: string, owner: string,
                            username: Option<string>, nowMs: int)
    requires Indexed(db)
    ensures Indexed(AfterCreateSession(cfg, db, chat, account, owner, username, nowMs).0)
  {
    hide Normalize;
    if IsHexId(Normalize(account)) { HexIdIsPlain(Normalize(account)); }
    hide IsHexId;
  }

  /** A session opened with a code carries the code's account and owner, and the code is gone. */
  lemma VerifiedSession(cfg: Config, db: Db, chat: string, code: string, username: Option<string>, nowMs: int)
    requires Indexed(db)
    requires forall c :: c in db.otps ==> IsHexId(db.otps[c].account) && Normalize(db.otps[c].owner) == db.otps[c].owner
    ensures var (after, session) := AfterVerifyOtp(cfg, db, chat, code, username, nowMs);
            && Indexed(after)
            && (after.otps == db.otps || after.otps == db.otps - {Trim(code)})
            && (session.Some? ==>
                  && Trim(code) in db.otps && after.otps == db.otps - {Trim(code)}
                  && session.value.account == db.otps[Trim(code)].account
                  && session.value.owner == db.otps[Trim(code)].owner)
  {
    var key := Trim(code);
    if key in db.otps {
      var otp := db.otps[key];
      HexIdIsPlain(otp.account);
      SessionKeepsIndexed(cfg, db.(otps := db.otps - {key}), chat, otp.account, otp.owner, username, nowMs);
    }
    hide IsHexId, Normalize, IsCode, Trim, Indexed;
  }

  lemma FewerCodesKeepInv(s: State, db: Db)
    requires Inv(s) && Indexed(db)
    requires forall c :: c in db.otps ==> c in s.db.otps && db.otps[c] == s.db.otps[c]
    ensures Inv(s.(db := db))
  {
    hide Indexed, IsHexId, Normalize;
  }

  lemma LogKeepsInv(s: State, r: Redemption)
    requires Inv(s) && r.issue < |s.issued|
    requires s.issued[r.issue] == Issue(r.code, r.session.account, r.session.owner)
    requires forall c :: c in s.db.otps ==> s.db.otps[c].issue != r.issue
    requires forall q :: 0 <= q < |s.redeemed| ==> s.redeemed[q].issue != r.issue
    ensures Inv(s.(redeemed := s.redeemed + [r]))
  {
    hide Indexed, IsHexId, Normalize;
  }

  lemma RedeemKeepsInv(cfg: Config, s: State, chat: string, code: string, username: Option<string>, nowMs: int)
    requires Inv(s)
    ensures Inv(Step(cfg, s, Redeem(chat, code, username, nowMs)))
  {
    VerifiedSession(cfg, s.db, chat, code, username, nowMs);
    hide AfterVerifyOtp, Indexed, RedeemedInv, IsHexId, Normalize, IsCode, Trim;
    var (db, session) := AfterVerifyOtp(cfg, s.db, chat, code, username, nowMs);
    FewerCodesKeepInv(s, db);
    if session.Some? {
      LogKeepsInv(s.(db := db), Redemption(s.db.otps[Trim(code)].issue, Trim(code), session.value));
    }
  }

  lemma RevokeChatKeepsIndexed(db: Db, chat: string, nowMs: int)
    requires Indexed(db)
    ensures Indexed(AfterRevokeSession(db, chat, nowMs))
  {
    hide IsHexId;
  }

  lemma StepKeepsInv(cfg: Config, s: State, op: Op)
    requires Inv(s)
    ensures Inv(Step(cfg, s, op))
  {
    hide IsHexId, Normalize, AfterCreateOtp, AfterVerifyOtp;
    match op
    case IssueCode(account, owner, codes, now) => IssueKeepsInv(cfg, s, account, owner, codes, now);
    case Redeem(chat, code, username, now) => RedeemKeepsInv(cfg, s, chat, code, username, now);
    case Look(chat, now) => RevokeChatKeepsIndexed(s.db, chat, now);
    case PickOracle(chat, oracle, now) => RevokeChatKeepsIndexed(s.db, chat, now);
    case RevokeAccount(account) =>
    case RevokeChat(chat, now) => RevokeChatKeepsIndexed(s.db, chat, now);
  }

  lemma {:induction false} RunKeepsInv(cfg: Config, ops: seq<Op>)
    ensures Inv(Run(cfg, EMPTY, ops))
  {
    if ops != [] {
      RunKeepsInv(cfg, ops[..|ops| - 1]);
      StepKeepsInv(cfg, Run(cfg, EMPTY, ops[..|ops| - 1]), ops[|ops| - 1]);
    }
  }

  // ---- results over every run ----------------------------------------------

  /** Revoking an account leaves no session for it, and opens none. */
  lemma RevokeLeavesNoSession(cfg: Config, ops: seq<Op>, account: string, chat: string)
    requires IsHexId(Normalize(account))
    ensures var db := Run(cfg, EMPTY, ops).db;
            var after := AfterRevokeAccount(db, account);
            chat in after.sessions ==>
              && after.sessions[chat].account != Normalize(account)
              && chat in db.sessions && after.sessions[chat] == db.sessions[chat]
  {
    RunKeepsInv(cfg, ops);
  }

  /**
   The index may still list a chat that has moved on to another account. Revoking `account` spares the sessions of
   all other accounts exactly when its index lists no such chat.
   */
  lemma RevokeSparesOthersExactly(db: Db, account: string)
    requires IsHexId(Normalize(account))
    ensures var after := AfterRevokeAccount(db, account);
            (forall chat :: chat in db.sessions && db.sessions[chat].account != Normalize(account) ==>
               chat in after.sessions)
            <==> forall chat :: chat in Members(db, Normalize(account)) && chat in db.sessions ==>
                   db.sessions[chat].account == Normalize(account)
  {}

  /** Such a chat exists after two redemptions in one chat: revoking the first account ends the second's session. */
  lemma RevokeMayHitAnotherAccount(cfg: Config, first: string, second: string, chat: string, nowMs: int)
    returns (ops: seq<Op>)
    requires IsHexId(first) && IsHexId(second) && first != second && cfg.otpTtlMs > 0
    ensures var db := Run(cfg, EMPTY, ops).db;
            && chat in db.sessions && db.sessions[chat].account == second
            && chat !in AfterRevokeAccount(db, first).sessions
  {
    HexIdIsPlain(first);
    HexIdIsPlain(second);
    var code := "100000";
    assert IsCode(code) && Trim(code) == code;
    hide IsHexId, Normalize, IsCode, Trim, Step, Run;
    var issue1, issue2 := IssueCode(first, "", [code], nowMs), IssueCode(second, "", [code], nowMs);
    var redeem := Redeem(chat, code, None, nowMs);
    ops := [issue1, redeem, issue2, redeem];
    RunFour(cfg, issue1, redeem, issue2, redeem);
    var s1 := Linked(cfg, EMPTY, first, chat, code, nowMs);
    var s2 := Linked(cfg, s1, second, chat, code, nowMs);
  }

  lemma RunFour(cfg: Config, a: Op, b: Op, c: Op, d: Op)
    ensures Run(cfg, EMPTY, [a, b, c, d]) == Step(cfg, Step(cfg, Step(cfg, Step(cfg, EMPTY, a), b), c), d)
  {
    hide Step;
    var ops := [a, b, c, d];
    assert ops[..3][..2] == ops[..2] && ops[..2][..1] == ops[..1] && ops[..1][..0] == [];
    assert Run(cfg, EMPTY, ops[..1]) == Step(cfg, EMPTY, a);
    assert Run(cfg, EMPTY, ops[..2]) == Step(cfg, Step(cfg, EMPTY, a), b);
    assert Run(cfg, EMPTY, ops[..3]) == Step(cfg, Step(cfg, Step(cfg, EMPTY, a), b), c);
  }

  /** A code issued to `account` and redeemed at once in `chat`. */
  lemma Linked(cfg: Config, s: State, account: string, chat: string, code: string, nowMs: int) returns (t: State)
    requires IsHexId(account) && Normalize(account) == account && cfg.otpTtlMs > 0
    requires IsCode(code) && Trim(code) == code && code !in s.db.otps
    ensures t == Step(cfg, Step(cfg, s, IssueCode(account, "", [code], nowMs)), Redeem(chat, code, None, nowMs))
    ensures chat in t.db.sessions && t.db.sessions[chat].account == account && code !in t.db.otps
    ensures t.db.chats == s.db.chats[account := Members(s.db, account) + {chat}]
  {
    hide IsHexId, Normalize, IsCode, Trim;
    t := Step(cfg, Step(cfg, s, IssueCode(account, "", [code], nowMs)), Redeem(chat, code, None, nowMs));
    assert FirstFree(s.db, [code], nowMs) == Some(code);
  }

  /** A code opens at most one session, in the name of the account and owner it was issued to. */
  lemma CodeRedeemedOnceByItsAccount(cfg: Config, ops: seq<Op>)
    ensures var s := Run(cfg, EMPTY, ops);
            && (forall q, r :: 0 <= q < r < |s.redeemed| ==> s.redeemed[q].issue != s.redeemed[r].issue)
            && forall r :: 0 <= r < |s.redeemed| ==>
                 && s.redeemed[r].issue < |s.issued|
                 && s.issued[s.redeemed[r].issue]
                    == Issue(s.redeemed[r].code, s.redeemed[r].session.account, s.redeemed[r].session.owner)
  {
    RunKeepsInv(cfg, ops);
  }

  function OpTime(op: Op, otherwise: int): int { if op.RevokeAccount? then otherwise else op.nowMs }

  /** While a code lives, no operation changes it, except its own redemption, which removes it. */
  lemma LiveCodeIsKept(cfg: Config, s: State, op: Op, code: string)
    requires code in s.db.otps && OpTime(op, s.db.otps[code].goneAtMs - 1) < s.db.otps[code].goneAtMs
    ensures var after := Step(cfg, s, op).db.otps;
            (code in after && after[code] == s.db.otps[code])
            || (op.Redeem? && Trim(op.code) == code && code !in after)
  {
    if op.IssueCode? { FreeIsFree(s.db, op.codes, op.nowMs); }
    hide IsHexId, Normalize, Trim, IsCode, FirstFree;
  }
}
