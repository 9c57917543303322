/** How long the codes and sessions of telegram-auth.service.ts can be used, and what their use gives. */
module TelegramLaws {
  import opened JsBasics
  import opened JsText
  import opened TelegramAuth

  // ---- times to live -------------------------------------------------------

  /** A Redis entry lives for whole seconds, as few as cover its time to live, and one at least. */
  lemma GoneAtExactly(nowMs: int, ttlMs: int)
    ensures (GoneAt(nowMs, ttlMs) - nowMs) % 1000 == 0 && GoneAt(nowMs, ttlMs) >= nowMs + 1000
    ensures ttlMs > 0 ==> nowMs + ttlMs <= GoneAt(nowMs, ttlMs) < nowMs + ttlMs + 1000
    ensures ttlMs <= 0 ==> GoneAt(nowMs, ttlMs) == nowMs + 1000
  {}

  // ---- sessions ------------------------------------------------------------

  /** A session is given back unchanged, by a look that changes nothing, at every time before its expiry. */
  lemma SessionReadsBack(cfg: Config, db: Db, chat: string, account: string, owner: string, username: Option<string>,
                         nowMs: int, laterMs: int)
    requires IsHexId(Normalize(account)) && nowMs <= laterMs < nowMs + cfg.sessionTtlMs
    ensures var (after, session) := AfterCreateSession(cfg, db, chat, account, owner, username, nowMs);
            && session.Some? && AfterGetSession(after, chat, laterMs) == (after, session)
            && session.value.chat == chat && session.value.account == Normalize(account)
            && session.value.owner == Normalize(owner) && session.value.username == username
            && session.value.activeOracle == None && session.value.createdAtMs == nowMs
            && session.value.expiresAtMs == nowMs + cfg.sessionTtlMs
  {
    GoneAtExactly(nowMs, cfg.sessionTtlMs);
    hide IsHexId, Normalize, GoneAt;
  }

  /** From its expiry on, a look gives nothing, and the session is never seen again without a new one. */
  lemma SessionExpires(cfg: Config, db: Db, chat: string, account: string, owner: string, username: Option<string>,
                       nowMs: int, laterMs: int, evenLaterMs: int)
    requires IsHexId(Normalize(account)) && nowMs + cfg.sessionTtlMs <= laterMs <= evenLaterMs
    ensures var after := AfterCreateSession(cfg, db, chat, account, owner, username, nowMs).0;
            var (looked, session) := AfterGetSession(after, chat, laterMs);
            session == None && !SessionSeen(looked, chat, evenLaterMs)
  {
    hide IsHexId, Normalize;
  }

  /** Picking an oracle stores it in the session and renews it from that moment; nothing else changes. */
  lemma PickStoresOracle(cfg: Config, db: Db, chat: string, oracle: string, nowMs: int)
    requires SessionSeen(db, chat, nowMs) && nowMs < db.sessions[chat].expiresAtMs
    ensures var after := AfterSetActiveOracle(cfg, db, chat, oracle, nowMs); var was := db.sessions[chat];
            if !IsHexId(Normalize(oracle)) then after == db
            else
              && chat in after.sessions && after.otps == db.otps && after.chats == db.chats
              && after.sessions == db.sessions[chat := after.sessions[chat]]
              && after.sessions[chat] == was.(activeOracle := Some(Normalize(oracle)),
                                              expiresAtMs := nowMs + cfg.sessionTtlMs,
                                              goneAtMs := after.sessions[chat].goneAtMs)
              && (cfg.sessionTtlMs > 0 ==> SessionSeen(after, chat, nowMs + cfg.sessionTtlMs - 1))
  {
    GoneAtExactly(nowMs, cfg.sessionTtlMs);
    hide IsHexId, Normalize, GoneAt;
  }

  /** Without a live session, picking an oracle sets nothing. */
  lemma PickWithoutSession(cfg: Config, db: Db, chat: string, oracle: string, nowMs: int)
    requires !SessionSeen(db, chat, nowMs) || db.sessions[chat].expiresAtMs <= nowMs
    ensures var after := AfterSetActiveOracle(cfg, db, chat, oracle, nowMs);
            !SessionSeen(after, chat, nowMs) && after.otps == db.otps
            && forall other :: other != chat ==>
                 (other in after.sessions <==> other in db.sessions)
                 && (other in db.sessions ==> after.sessions[other] == db.sessions[other])
  {
    hide IsHexId, Normalize;
  }

  /** Ending a chat's session takes it out of the store and out of its own account's index, and nothing else. */
  lemma EndedSession(db: Db, chat: string, nowMs: int)
    requires SessionSeen(db, chat, nowMs)
    ensures var after := AfterRevokeSession(db, chat, nowMs); var account := db.sessions[chat].account;
            && after.sessions == db.sessions - {chat} && after.otps == db.otps
            && Members(after, account) == Members(db, account) - {chat}
            && forall other :: other != account ==> Members(after, other) == Members(db, other)
  {}

  // ---- codes ---------------------------------------------------------------

  /** Only six digits, but for white space around them, can redeem anything; any other text changes nothing. */
  lemma OnlySixDigitsRedeem(cfg: Config, db: Db, chat: string, code: string, username: Option<string>, nowMs: int)
    ensures IsCode(Trim(code)) <==> |Trim(code)| == 6 && forall c :: c in Trim(code) ==> c in "0123456789"
    ensures !IsCode(Trim(code)) ==> AfterVerifyOtp(cfg, db, chat, code, username, nowMs) == (db, None)
  {
    hide Trim;
    var key := Trim(code);
    forall c: char ensures IsDigit(c) <==> c in "0123456789" { Digits(c); }
    assert (forall c :: c in key ==> IsDigit(c)) <==> forall i :: 0 <= i < |key| ==> IsDigit(key[i]);
  }

  lemma Digits(c: char)
    ensures IsDigit(c) <==> c in "0123456789"
  {
    var digits := "0123456789";
    assert forall i :: 0 <= i < 10 ==> digits[i] as int == '0' as int + i;
    if IsDigit(c) { assert digits[c as int - '0' as int] == c; }
  }

  lemma {:induction false} FirstFreeExactly(db: Db, codes: seq<string>, nowMs: int, i: nat)
    requires i < |codes|
    ensures !CodeSeen(db, codes[i], nowMs) && (forall j :: 0 <= j < i ==> CodeSeen(db, codes[j], nowMs)) ==>
              FirstFree(db, codes, nowMs) == Some(codes[i])
    ensures FirstFree(db, codes, nowMs).None? ==> CodeSeen(db, codes[i], nowMs)
    decreases i
  {
    if CodeSeen(db, codes[0], nowMs) && i > 0 {
      FirstFreeExactly(db, codes[1..], nowMs, i - 1);
      assert forall j :: 0 <= j < i - 1 ==> codes[1..][j] == codes[j + 1];
    }
  }

  /** The operation happens while the code lives, and is no attempt to redeem it. */
  predicate LeavesCode(op: Op, code: string, beforeMs: int) {
    OpTime(op, beforeMs - 1) < beforeMs && !(op.Redeem? && Trim(op.code) == code)
  }

  lemma {:induction false} RunKeepsCode(cfg: Config, s: State, ops: seq<Op>, code: string)
    requires code in s.db.otps
    requires forall k :: 0 <= k < |ops| ==> LeavesCode(ops[k], code, s.db.otps[code].goneAtMs)
    ensures var t := Run(cfg, s, ops); code in t.db.otps && t.db.otps[code] == s.db.otps[code]
  {
    if ops != [] {
      var n := |ops| - 1;
      RunKeepsCode(cfg, s, ops[..n], code);
      hide Step, Run;
      LiveCodeIsKept(cfg, Run(cfg, s, ops[..n]), ops[n], code);
      assert Run(cfg, s, ops) == Step(cfg, Run(cfg, s, ops[..n]), ops[n]) by { RunOneMore(cfg, s, ops); }
    }
  }

  lemma RunOneMore(cfg: Config, s: State, ops: seq<Op>)
    requires ops != []
    ensures Run(cfg, s, ops) == Step(cfg, Run(cfg, s, ops[..|ops| - 1]), ops[|ops| - 1])
  {
    hide Step;
  }

  /**
   A code that was issued can be redeemed at every time before its time to live is over, whatever happens in between, by
   any chat, for the account and owner it was issued to; and at no time from then on. Either way it is used up.
   */
  lemma CodeWorksUntilExpiry(cfg: Config, s: State, account: string, owner: string, drawn: seq<string>, code: string,
                             issuedMs: int, ops: seq<Op>, chat: string, username: Option<string>, redeemedMs: int)
    requires IsHexId(Normalize(account)) && FirstFree(s.db, drawn, issuedMs) == Some(code)
    requires IsCode(code) && Trim(code) == code && redeemedMs >= issuedMs
    requires forall k :: 0 <= k < |ops| ==> LeavesCode(ops[k], code, GoneAt(issuedMs, cfg.otpTtlMs))
    ensures var issued := Step(cfg, s, IssueCode(account, owner, drawn, issuedMs));
            var (after, session) := AfterVerifyOtp(cfg, Run(cfg, issued, ops).db, chat, code, username, redeemedMs);
            if redeemedMs < issuedMs + cfg.otpTtlMs
            then session.Some? && session.value.chat == chat && session.value.account == Normalize(account)
                 && session.value.owner == Normalize(owner) && !CodeSeen(after, code, redeemedMs)
            else session == None && !CodeSeen(after, code, redeemedMs)
  {
    var issued := Step(cfg, s, IssueCode(account, owner, drawn, issuedMs));
    var otp := Otp(Normalize(account), Normalize(owner), issuedMs + cfg.otpTtlMs, GoneAt(issuedMs, cfg.otpTtlMs),
                   |s.issued|);
    assert code in issued.db.otps && issued.db.otps[code] == otp;
    RunKeepsCode(cfg, issued, ops, code);
    GoneAtExactly(issuedMs, cfg.otpTtlMs);
    NormalizeTwice(account);
    NormalizeTwice(owner);
    hide IsHexId, Normalize, GoneAt, IsCode, Trim, Step, Run, FirstFree;
  }
}
