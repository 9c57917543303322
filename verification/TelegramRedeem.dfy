/**
 Redemption of one-time codes by several chats at once: verifyOtpAndCreateSession of telegram-auth.service.ts reads the
 code and deletes it in two awaits. Every event is the stretch after one answer of Redis.
 */
module TelegramRedeem {
  import opened JsBasics
  import opened JsText
  import TelegramAuth

  /** A redemption that has read its code and waits for the deletion. */
  datatype Redeeming = Redeeming(chat: string, key: string, otp: TelegramAuth.Otp)

  datatype Opening = Opening(issue: nat, chat: string, account: string, owner: string)

  /** `issued` lists the codes stored so far with their values, `log` the sessions opened. */
  datatype State = State(otps: map<string, TelegramAuth.Otp>, issued: seq<(string, TelegramAuth.Otp)>, clock: int,
                         pending: map<nat, Redeeming>, log: seq<Opening>)

  datatype Event =
    | Issued(code: string, account: string, owner: string, expiresAtMs: int, goneAtMs: int, nowMs: int)
    | Read(call: nat, chat: string, code: string, nowMs: int)
    | Deleted(call: nat, nowMs: int)

  predicate Seen(otps: map<string, TelegramAuth.Otp>, code: string, nowMs: int) {
    code in otps && nowMs < otps[code].goneAtMs
  }

  function Step(s: State, e: Event): State {
    if e.nowMs < s.clock then s
    else
      var t := s.(clock := e.nowMs);
      match e
      case Issued(code, account, owner, exp, gone, now) =>
        if Seen(s.otps, code, now) then t
        else
          var otp := TelegramAuth.Otp(account, owner, exp, gone, |s.issued|);
          t.(otps := s.otps[code := otp], issued := s.issued + [(code, otp)])
      case Read(c, chat, code, now) =>
        var key := Trim(code);
        if c in s.pending || !TelegramAuth.IsCode(key) || !Seen(s.otps, key, now) then t
        else t.(pending := s.pending[c := Redeeming(chat, key, s.otps[key])])
      case Deleted(c, now) =>
        if c !in s.pending then t
        else
          var r := s.pending[c];
          var done := t.(otps := s.otps - {r.key}, pending := s.pending - {c});
          if r.otp.expiresAtMs <= now then done
          else done.(log := s.log + [Opening(r.otp.issue, r.chat, r.otp.account, r.otp.owner)])
  }

  function Run(s: State, events: seq<Event>): State {
    if events == [] then s else Step(Run(s, events[..|events| - 1]), events[|events| - 1])
  }

  /** The value is the one that was stored under that code. */
  predicate AsIssued(s: State, code: string, otp: TelegramAuth.Otp) {
    otp.issue < |s.issued| && s.issued[otp.issue] == (code, otp)
  }

  ghost predicate Inv(s: State) {
    && (forall c :: c in s.otps ==> AsIssued(s, c, s.otps[c]))
    && (forall p :: p in s.pending ==> AsIssued(s, s.pending[p].key, s.pending[p].otp))
  }

  lemma StepKeepsInv(s: State, e: Event)
    requires Inv(s)
    ensures Inv(Step(s, e))
  {
    hide Trim, TelegramAuth.IsCode;
  }

  lemma {:induction false} RunKeepsInv(s: State, events: seq<Event>)
    requires Inv(s)
    ensures Inv(Run(s, events))
  {
    if events != [] {
      RunKeepsInv(s, events[..|events| - 1]);
      hide Inv, Step;
      StepKeepsInv(Run(s, events[..|events| - 1]), events[|events| - 1]);
    }
  }

  /** The code of this issue is gone, and nobody who read it is left. */
  ghost predicate Spent(s: State, issue: nat) {
    && issue < |s.issued|
    && (forall c :: c in s.otps ==> s.otps[c].issue != issue)
    && (forall p :: p in s.pending ==> s.pending[p].otp.issue != issue)
  }

  ghost predicate NoneOpened(from: nat, log: seq<Opening>, issue: nat) {
    forall i :: from <= i < |log| ==> log[i].issue != issue
  }

  /** No continuation opens a session with this issue. */
  ghost predicate OpensNoMore(s: State, issue: nat) {
    forall events :: NoneOpened(|s.log|, Run(s, events).log, issue)
  }

  lemma StepKeepsSpent(s: State, e: Event, issue: nat)
    requires Spent(s, issue)
    ensures Spent(Step(s, e), issue)
    ensures s.log <= Step(s, e).log && NoneOpened(|s.log|, Step(s, e).log, issue)
  {
    hide Trim, TelegramAuth.IsCode;
  }

  lemma {:induction false} RunKeepsSpent(s: State, events: seq<Event>, issue: nat)
    requires Spent(s, issue)
    ensures Spent(Run(s, events), issue)
    ensures s.log <= Run(s, events).log && NoneOpened(|s.log|, Run(s, events).log, issue)
  {
    if events != [] {
      RunKeepsSpent(s, events[..|events| - 1], issue);
      StepKeepsSpent(Run(s, events[..|events| - 1]), events[|events| - 1], issue);
    }
  }

  /**
   Once a redemption has opened its session, the same issue of the code opens no other in any continuation exactly when
   no other redemption has read it already. Redemptions made one at a time always meet this.
   */
  lemma RedeemedOnceExactly(s: State, c: nat, nowMs: int)
    requires Inv(s) && c in s.pending && nowMs >= s.clock && nowMs < s.pending[c].otp.expiresAtMs
    ensures var t := Step(s, Deleted(c, nowMs)); var r := s.pending[c];
            && t.log == s.log + [Opening(r.otp.issue, r.chat, r.otp.account, r.otp.owner)]
            && (OpensNoMore(t, r.otp.issue)
                <==> forall p :: p in s.pending && p != c ==> s.pending[p].otp.issue != r.otp.issue)
  {
    var t := Step(s, Deleted(c, nowMs));
    var issue := s.pending[c].otp.issue;
    if p :| p in s.pending && p != c && s.pending[p].otp.issue == issue {
      var again := Deleted(p, nowMs);
      assert Run(t, [again]) == Step(t, again) by { assert [again][..0] == []; }
      assert AsIssued(s, s.pending[p].key, s.pending[p].otp) && AsIssued(s, s.pending[c].key, s.pending[c].otp);
      assert Run(t, [again]).log[|t.log|].issue == issue;
      assert !NoneOpened(|t.log|, Run(t, [again]).log, issue);
    } else {
      assert Spent(t, issue);
      forall events ensures NoneOpened(|t.log|, Run(t, events).log, issue) { RunKeepsSpent(t, events, issue); }
    }
  }

  /** Two chats that read a code before either deletes it both get a session, for the one account it was issued to. */
  lemma CodeOpensTwoSessions(account: string, owner: string, first: string, second: string, nowMs: int)
    returns (events: seq<Event>)
    ensures Run(State(map[], [], nowMs, map[], []), events).log
         == [Opening(0, first, account, owner), Opening(0, second, account, owner)]
  {
    var code := "100000";
    assert TelegramAuth.IsCode(code) && Trim(code) == code;
    hide TelegramAuth.IsCode, Trim;
    var otp := TelegramAuth.Otp(account, owner, nowMs + 1, nowMs + 1, 0);
    var s0 := State(map[], [], nowMs, map[], []);
    events := [Issued(code, account, owner, nowMs + 1, nowMs + 1, nowMs)];
    assert events[..0] == [];
    var s1 := State(map[code := otp], [(code, otp)], nowMs, map[], []);
    assert Run(s0, events) == s1;
    var one, two := Redeeming(first, code, otp), Redeeming(second, code, otp);
    hide Run;
    events := Then(s0, events, Read(1, first, code, nowMs));
    events := Then(s0, events, Read(2, second, code, nowMs));
    assert Run(s0, events) == s1.(pending := map[1 := one, 2 := two]);
    events := Then(s0, events, Deleted(1, nowMs));
    events := Then(s0, events, Deleted(2, nowMs));
  }

  lemma Then(s: State, events: seq<Event>, e: Event) returns (longer: seq<Event>)
    ensures longer == events + [e] && Run(s, longer) == Step(Run(s, events), e)
  {
    longer := events + [e];
    assert longer[..|events|] == events;
  }

  /** A redemption alone leaves the codes, and opens a session, as verifyOtpAndCreateSession does as a whole. */
  lemma RedeemAlone(cfg: TelegramAuth.Config, s: State, db: TelegramAuth.Db, c: nat, chat: string, code: string,
                    nowMs: int)
    requires c !in s.pending && s.clock <= nowMs && db.otps == s.otps
    requires forall k :: k in s.otps ==> IsHexId(s.otps[k].account) && Normalize(s.otps[k].account) == s.otps[k].account
                                         && Normalize(s.otps[k].owner) == s.otps[k].owner
    ensures var t := Step(Step(s, Read(c, chat, code, nowMs)), Deleted(c, nowMs));
            var (after, session) := TelegramAuth.AfterVerifyOtp(cfg, db, chat, code, None, nowMs);
            && t.otps == after.otps && t.pending == s.pending
            && t.log == if session.None? then s.log
                        else s.log + [Opening(s.otps[Trim(code)].issue, chat, session.value.account,
                                              session.value.owner)]
  {
    hide IsHexId, Normalize, Trim, TelegramAuth.IsCode, TelegramAuth.GoneAt;
    assert s.pending - {c} == s.pending;
  }
}
