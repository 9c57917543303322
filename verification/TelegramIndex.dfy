/**
 The account index of telegram-auth.service.ts over whole runs: which chats it lists, and so exactly when revoking one
 account ends a session of another.
 */
module TelegramIndex {
  import opened JsBasics
  import opened JsText
  import opened TelegramAuth

  function Before(cfg: Config, ops: seq<Op>, i: nat): State
    requires i <= |ops|
  { Run(cfg, EMPTY, ops[..i]) }

  /** The operation opens a session for `account` in `chat`. */
  predicate Links(cfg: Config, s: State, op: Op, chat: string, account: string) {
    && op.Redeem? && op.chat == chat
    && var session := AfterVerifyOtp(cfg, s.db, chat, op.code, op.username, op.nowMs).1;
       session.Some? && session.value.account == account
  }

  /** The operation opens a session in `chat`, for whatever account. */
  predicate Opens(cfg: Config, s: State, op: Op, chat: string) {
    op.Redeem? && op.chat == chat && AfterVerifyOtp(cfg, s.db, chat, op.code, op.username, op.nowMs).1.Some?
  }

  /** The operation revokes the account, or ends the session that `chat` has for it. */
  predicate Unlinks(cfg: Config, s: State, op: Op, chat: string, account: string) {
    match op
    case RevokeAccount(a) => IsHexId(Normalize(a)) && Normalize(a) == account
    case Redeem(_, _, _, _) => false
    case IssueCode(_, _, _, _) => false
    case _ => op.chat == chat && chat in s.db.sessions && s.db.sessions[chat].account == account
              && chat !in Step(cfg, s, op).db.sessions
  }

  /** Operation `i` linked `chat` to `account`, and nothing has unlinked them since. */
  ghost predicate LinkedAt(cfg: Config, ops: seq<Op>, chat: string, account: string, i: nat) {
    && i < |ops| && Links(cfg, Before(cfg, ops, i), ops[i], chat, account)
    && forall m :: i < m < |ops| ==> !Unlinks(cfg, Before(cfg, ops, m), ops[m], chat, account)
  }

  /** Operation `j` linked `chat` to `account`, and nothing has linked the chat to any account since. */
  ghost predicate LastLink(cfg: Config, ops: seq<Op>, chat: string, account: string, j: nat) {
    && j < |ops| && Links(cfg, Before(cfg, ops, j), ops[j], chat, account)
    && forall m :: j < m < |ops| ==> !Opens(cfg, Before(cfg, ops, m), ops[m], chat)
  }

  /** `chat` was linked to `account` at `i`, is still listed for it, and was linked last at `j`, to another account. */
  ghost predicate MovedOn(cfg: Config, ops: seq<Op>, chat: string, account: string, i: nat, other: string, j: nat) {
    i < j && other != account && LinkedAt(cfg, ops, chat, account, i) && LastLink(cfg, ops, chat, other, j)
  }

  // ---- one operation -------------------------------------------------------

  lemma RedeemMoves(cfg: Config, db: Db, op: Op)
    requires op.Redeem?
    ensures var (after, session) := AfterVerifyOtp(cfg, db, op.chat, op.code, op.username, op.nowMs);
            && (session.None? ==> after.sessions == db.sessions && after.chats == db.chats)
            && (session.Some? ==>
                  && after.sessions == db.sessions[op.chat := session.value]
                  && after.chats == db.chats[session.value.account := Members(db, session.value.account) + {op.chat}])
  {
    hide IsHexId, Normalize, IsCode, Trim;
  }

  lemma MembersAfterRedeem(cfg: Config, s: State, op: Op, chat: string, account: string)
    requires op.Redeem?
    ensures chat in Members(Step(cfg, s, op).db, account) <==>
              Links(cfg, s, op, chat, account) || chat in Members(s.db, account)
  {
    RedeemMoves(cfg, s.db, op);
    hide AfterVerifyOtp;
  }

  lemma MembersAfterSessionOp(cfg: Config, s: State, op: Op, chat: string, account: string)
    requires Indexed(s.db) && (op.Look? || op.PickOracle? || op.RevokeChat?)
    ensures chat in Members(Step(cfg, s, op).db, account) <==>
              chat in Members(s.db, account) && !Unlinks(cfg, s, op, chat, account)
  {
    hide IsHexId, Normalize;
  }

  /** One operation lists a chat under an account exactly when it links them, or keeps what it finds. */
  lemma MembersOneMore(cfg: Config, s: State, op: Op, chat: string, account: string)
    requires Indexed(s.db)
    ensures chat in Members(Step(cfg, s, op).db, account) <==>
              || Links(cfg, s, op, chat, account)
              || (chat in Members(s.db, account) && !Unlinks(cfg, s, op, chat, account))
  {
    match op
    case Redeem(_, _, _, _) => MembersAfterRedeem(cfg, s, op, chat, account);
    case IssueCode(_, _, _, _) => hide FirstFree, IsHexId, Normalize;
    case RevokeAccount(_) => hide IsHexId, Normalize;
    case _ => MembersAfterSessionOp(cfg, s, op, chat, account);
  }

  /** A session that is there now was there before for the same account, unless the operation opened it. */
  lemma SessionOneMore(cfg: Config, s: State, op: Op, chat: string)
    requires chat in Step(cfg, s, op).db.sessions
    ensures var account := Step(cfg, s, op).db.sessions[chat].account;
            || Links(cfg, s, op, chat, account)
            || (chat in s.db.sessions && s.db.sessions[chat].account == account
                && !Opens(cfg, s, op, chat))
  {
    if op.Redeem? { RedeemMoves(cfg, s.db, op); }
    hide AfterVerifyOtp, FirstFree, IsHexId, Normalize;
  }

  // ---- whole runs ----------------------------------------------------------

  lemma LinkedAtOneMore(cfg: Config, ops: seq<Op>, chat: string, account: string, i: nat)
    requires ops != [] && i < |ops| - 1
    ensures var n := |ops| - 1;
            LinkedAt(cfg, ops, chat, account, i) <==>
              LinkedAt(cfg, ops[..n], chat, account, i) && !Unlinks(cfg, Before(cfg, ops, n), ops[n], chat, account)
  {
    var n := |ops| - 1;
    hide Links, Unlinks, Run;
    assert forall m :: 0 <= m <= n ==> ops[..n][..m] == ops[..m];
  }

  lemma LinkedAtEnd(cfg: Config, ops: seq<Op>, chat: string, account: string)
    requires ops != []
    ensures var n := |ops| - 1;
            LinkedAt(cfg, ops, chat, account, n) <==> Links(cfg, Run(cfg, EMPTY, ops[..n]), ops[n], chat, account)
  {
    hide Links, Unlinks, Run;
  }

  lemma LinkedWithin(cfg: Config, ops: seq<Op>, chat: string, account: string, i: nat)
    requires LinkedAt(cfg, ops, chat, account, i)
    ensures i < |ops|
  {
    hide Links, Unlinks, Run;
  }

  ghost predicate EverLinked(cfg: Config, ops: seq<Op>, chat: string, account: string) {
    exists i: nat :: LinkedAt(cfg, ops, chat, account, i)
  }

  lemma EverLinkedStays(cfg: Config, ops: seq<Op>, chat: string, account: string)
    requires ops != [] && EverLinked(cfg, ops[..|ops| - 1], chat, account)
    requires !Unlinks(cfg, Run(cfg, EMPTY, ops[..|ops| - 1]), ops[|ops| - 1], chat, account)
    ensures EverLinked(cfg, ops, chat, account)
  {
    var n := |ops| - 1;
    assert Before(cfg, ops, n) == Run(cfg, EMPTY, ops[..n]);
    hide Links, Unlinks, LinkedAt, Run, Before;
    var i: nat :| LinkedAt(cfg, ops[..n], chat, account, i);
    LinkedWithin(cfg, ops[..n], chat, account, i);
    LinkedAtOneMore(cfg, ops, chat, account, i);
  }

  lemma EverLinkedCameBy(cfg: Config, ops: seq<Op>, chat: string, account: string)
    requires ops != [] && EverLinked(cfg, ops, chat, account)
    requires !Links(cfg, Run(cfg, EMPTY, ops[..|ops| - 1]), ops[|ops| - 1], chat, account)
    ensures EverLinked(cfg, ops[..|ops| - 1], chat, account)
    ensures !Unlinks(cfg, Run(cfg, EMPTY, ops[..|ops| - 1]), ops[|ops| - 1], chat, account)
  {
    var n := |ops| - 1;
    assert Before(cfg, ops, n) == Run(cfg, EMPTY, ops[..n]);
    hide Links, Unlinks, LinkedAt, Run, Before;
    var i: nat :| LinkedAt(cfg, ops, chat, account, i);
    LinkedWithin(cfg, ops, chat, account, i);
    LinkedAtEnd(cfg, ops, chat, account);
    LinkedAtOneMore(cfg, ops, chat, account, i);
  }

  lemma EverLinkedOneMore(cfg: Config, ops: seq<Op>, chat: string, account: string)
    requires ops != []
    ensures var n := |ops| - 1; var s := Run(cfg, EMPTY, ops[..n]);
            EverLinked(cfg, ops, chat, account) <==>
              || Links(cfg, s, ops[n], chat, account)
              || (EverLinked(cfg, ops[..n], chat, account) && !Unlinks(cfg, s, ops[n], chat, account))
  {
    var n := |ops| - 1;
    hide Links, Unlinks, LinkedAt, Run;
    LinkedAtEnd(cfg, ops, chat, account);
    if Links(cfg, Run(cfg, EMPTY, ops[..n]), ops[n], chat, account) {
      assert EverLinked(cfg, ops, chat, account);
    } else {
      hide EverLinked;
      if EverLinked(cfg, ops, chat, account) { EverLinkedCameBy(cfg, ops, chat, account); }
      if EverLinked(cfg, ops[..n], chat, account) && !Unlinks(cfg, Run(cfg, EMPTY, ops[..n]), ops[n], chat, account) {
        EverLinkedStays(cfg, ops, chat, account);
      }
    }
  }

  /** The index lists a chat under an account exactly when they were linked and not unlinked since. */
  lemma {:induction false} MembersExactly(cfg: Config, ops: seq<Op>, chat: string, account: string)
    ensures chat in Members(Run(cfg, EMPTY, ops).db, account) <==> EverLinked(cfg, ops, chat, account)
  {
    if ops == [] {
      forall i: nat ensures !LinkedAt(cfg, ops, chat, account, i) {}
    } else {
      var n := |ops| - 1;
      var before := ops[..n];
      MembersExactly(cfg, before, chat, account);
      RunKeepsInv(cfg, before);
      MembersOneMore(cfg, Run(cfg, EMPTY, before), ops[n], chat, account);
      hide Links, Unlinks, Step, Members, EverLinked;
      EverLinkedOneMore(cfg, ops, chat, account);
    }
  }

  lemma LastLinkOneMore(cfg: Config, ops: seq<Op>, chat: string, account: string, j: nat)
    requires ops != [] && LastLink(cfg, ops[..|ops| - 1], chat, account, j)
    requires !Opens(cfg, Before(cfg, ops, |ops| - 1), ops[|ops| - 1], chat)
    ensures LastLink(cfg, ops, chat, account, j)
  {
    var n := |ops| - 1;
    hide Links, Opens, Run;
    assert forall m :: 0 <= m <= n ==> ops[..n][..m] == ops[..m];
  }

  /** A session is for the account that its chat was last linked to. */
  lemma {:induction false} SessionIsLastLink(cfg: Config, ops: seq<Op>, chat: string) returns (j: nat)
    requires chat in Run(cfg, EMPTY, ops).db.sessions
    ensures LastLink(cfg, ops, chat, Run(cfg, EMPTY, ops).db.sessions[chat].account, j)
  {
    var n := |ops| - 1;
    var before := ops[..n];
    var account := Run(cfg, EMPTY, ops).db.sessions[chat].account;
    assert Before(cfg, ops, n) == Run(cfg, EMPTY, before);
    SessionOneMore(cfg, Run(cfg, EMPTY, before), ops[n], chat);
    hide Links, Opens, Step;
    if Links(cfg, Run(cfg, EMPTY, before), ops[n], chat, account) {
      j := n;
    } else {
      j := SessionIsLastLink(cfg, before, chat);
      LastLinkOneMore(cfg, ops, chat, account, j);
    }
  }

  lemma LastLinkIsUnique(cfg: Config, ops: seq<Op>, chat: string, account: string, j: nat, other: string, k: nat)
    requires LastLink(cfg, ops, chat, account, j) && LastLink(cfg, ops, chat, other, k)
    ensures j == k && account == other
  {
    hide AfterVerifyOtp, Run;
  }

  lemma LinkIsNotLater(cfg: Config, ops: seq<Op>, chat: string, account: string, i: nat, other: string, j: nat)
    requires LinkedAt(cfg, ops, chat, account, i) && LastLink(cfg, ops, chat, other, j) && account != other
    ensures i < j
  {
    hide AfterVerifyOtp, Run;
  }

  /**
   Revoking `account` at `nowMs`, after a run, ends a live session of another account exactly when its chat was linked
   to `account` first and to the other one later, and since that first link neither `account` was revoked nor the
   chat's session for it ended by itself.
   */
  lemma RevokeHitsExactly(cfg: Config, ops: seq<Op>, account: string, chat: string, nowMs: int)
    requires IsHexId(account) && SessionSeen(Run(cfg, EMPTY, ops).db, chat, nowMs)
    ensures var db := Run(cfg, EMPTY, ops).db;
            (db.sessions[chat].account != account && !SessionSeen(AfterRevokeAccount(db, account), chat, nowMs))
            <==> exists i: nat, j: nat, other :: MovedOn(cfg, ops, chat, account, i, other, j)
  {
    var db := Run(cfg, EMPTY, ops).db;
    HexIdIsPlain(account);
    MembersExactly(cfg, ops, chat, account);
    var last := SessionIsLastLink(cfg, ops, chat);
    assert SessionSeen(AfterRevokeAccount(db, account), chat, nowMs) <==> chat !in Members(db, account) by {
      hide IsHexId;
    }
    hide IsHexId, Run, LinkedAt, LastLink, AfterRevokeAccount, Members;
    if i: nat :| LinkedAt(cfg, ops, chat, account, i) {
      if db.sessions[chat].account != account {
        LinkIsNotLater(cfg, ops, chat, account, i, db.sessions[chat].account, last);
        assert MovedOn(cfg, ops, chat, account, i, db.sessions[chat].account, last);
      }
    }
    if i: nat, j: nat, other :| MovedOn(cfg, ops, chat, account, i, other, j) {
      LastLinkIsUnique(cfg, ops, chat, other, j, db.sessions[chat].account, last);
    }
  }
}
