/** The two-phase, budgeted loop of force-close.service.ts. */
module ForceClose {
  import opened JsBasics
  import TradeMath

  datatype Phase = Deleverage | RepayPostExpiry

  datatype Position = Position(target: string, expiryMs: int)

  datatype TaskResult = TaskResult(phase: Phase, position: Position, success: bool)

  /** Whether the chain lets the attempt through; arbitrary. Attempts are numbered, since the chain moves on. */
  type Attempt = (nat, Phase, Position) -> bool

  function Successes(results: seq<TaskResult>): nat {
    if results == [] then 0
    else Successes(results[..|results| - 1]) + if results[|results| - 1].success then 1 else 0
  }

  /** `results` reports, in order, attempts on the first of `candidates`, numbered from `from`. */
  ghost predicate Reports(results: seq<TaskResult>, phase: Phase, candidates: seq<Position>, attempt: Attempt,
                          from: nat)
  {
    && |results| <= |candidates|
    && forall i :: 0 <= i < |results| ==>
         results[i] == TaskResult(phase, candidates[i], attempt(from + i, phase, candidates[i]))
  }

  /** Attempts run until the budget is spent or the candidates are, whichever is first; none is wasted or skipped. */
  ghost predicate Spends(results: seq<TaskResult>, candidates: seq<Position>, budget: int) {
    && Successes(results) <= Max(0, budget)
    && (|results| < |candidates| ==> Successes(results) == Max(0, budget))
    && (forall i :: 0 <= i < |results| ==> Successes(results[..i]) < budget)
  }

  function InForceWindow(candidates: seq<Position>, now: int, windowMs: int): (r: seq<Position>)
    ensures forall p :: p in r <==> p in candidates && Inside(p, now, windowMs)
  {
    if candidates == [] then []
    else
      var before := InForceWindow(candidates[..|candidates| - 1], now, windowMs);
      var last := candidates[|candidates| - 1];
      if TradeMath.IsFinalHourBeforeExpiry(last.expiryMs, now, windowMs) then before + [last] else before
  }

  predicate Inside(p: Position, now: int, windowMs: int) { 0 < p.expiryMs && now < p.expiryMs <= now + windowMs }

  /** `r` lists, in order, exactly the candidates inside the window; `kept` are their indices. */
  ghost predicate Keeps(candidates: seq<Position>, r: seq<Position>, kept: seq<nat>, now: int, windowMs: int) {
    && |kept| == |r|
    && (forall m :: 0 <= m < |kept| ==> kept[m] < |candidates| && r[m] == candidates[kept[m]])
    && (forall m, n :: 0 <= m < n < |kept| ==> kept[m] < kept[n])
    && (forall m :: 0 <= m < |r| ==> Inside(r[m], now, windowMs))
    && (forall i: nat :: i < |candidates| && Inside(candidates[i], now, windowMs) ==> i in kept)
  }

  lemma KeepsInside(candidates: seq<Position>, p: Position, r: seq<Position>, kept: seq<nat>, now: int, windowMs: int)
    requires Keeps(candidates, r, kept, now, windowMs) && Inside(p, now, windowMs)
    ensures Keeps(candidates + [p], r + [p], kept + [|candidates|], now, windowMs)
  {
    hide Inside;
    var longer, indices := candidates + [p], kept + [|candidates|];
    assert indices[|kept|] == |candidates|;
    forall i: nat | i < |longer| && Inside(longer[i], now, windowMs) ensures i in indices {
      if i < |candidates| { assert i in kept; }
    }
  }

  lemma KeepsOutside(candidates: seq<Position>, p: Position, r: seq<Position>, kept: seq<nat>, now: int, windowMs: int)
    requires Keeps(candidates, r, kept, now, windowMs) && !Inside(p, now, windowMs)
    ensures Keeps(candidates + [p], r, kept, now, windowMs)
  {
    hide Inside;
  }

  /** The candidates inside the window keep their order and their number. */
  lemma {:induction false} InForceWindowKeepsOrder(candidates: seq<Position>, now: int, windowMs: int)
    returns (kept: seq<nat>)
    ensures Keeps(candidates, InForceWindow(candidates, now, windowMs), kept, now, windowMs)
  {
    kept := [];
    if candidates != [] {
      var n := |candidates| - 1;
      var before := InForceWindowKeepsOrder(candidates[..n], now, windowMs);
      var r, p := InForceWindow(candidates[..n], now, windowMs), candidates[n];
      assert candidates == candidates[..n] + [p];
      hide Keeps;
      if Inside(p, now, windowMs) {
        KeepsInside(candidates[..n], p, r, before, now, windowMs);
        kept := before + [n];
      } else {
        KeepsOutside(candidates[..n], p, r, before, now, windowMs);
        kept := before;
      }
    }
  }

  /** One phase: attempt each candidate while some budget remains. */
  method AttemptEach(phase: Phase, candidates: seq<Position>, budget: int, attempt: Attempt, from: nat)
    returns (results: seq<TaskResult>, remaining: int)
    ensures Reports(results, phase, candidates, attempt, from) && Spends(results, candidates, budget)
    ensures remaining == budget - Successes(results)
  {
    results, remaining := [], budget;
    var i := 0;
    while i < |candidates|
      invariant |results| == i <= |candidates|
      invariant Reports(results, phase, candidates, attempt, from)
      invariant remaining == budget - Successes(results)
      invariant Successes(results) <= Max(0, budget)
      invariant forall k :: 0 <= k < |results| ==> Successes(results[..k]) < budget
    {
      if remaining <= 0 { break; }
      var result := TaskResult(phase, candidates[i], attempt(from + i, phase, candidates[i]));
      assert (results + [result])[..i] == results;
      assert forall k :: 0 <= k < i ==> (results + [result])[..k] == results[..k];
      results := results + [result];
      if result.success { remaining := remaining - 1; }
      i := i + 1;
    }
  }

  /** `pre` and `post` are what the indexer returned for the two queries. */
  method Run(limit: int, now: int, windowMs: int, pre: seq<Position>, post: seq<Position>, attempt: Attempt)
    returns (results: seq<TaskResult>, ghost first: seq<TaskResult>, ghost second: seq<TaskResult>)
    ensures results == first + second
    ensures Reports(first, Deleverage, InForceWindow(pre, now, windowMs), attempt, 0)
    ensures Spends(first, InForceWindow(pre, now, windowMs), limit)
    ensures Reports(second, RepayPostExpiry, post, attempt, |first|)
    ensures Spends(second, post, limit - Successes(first))
    ensures Successes(results) <= Max(0, limit)
  {
    var inForceWindow := InForceWindow(pre, now, windowMs);
    var remaining: int;
    results, remaining := AttemptEach(Deleverage, inForceWindow, limit, attempt, 0);
    first, second := results, [];
    SuccessesAdd(first, []);
    if remaining <= 0 { return; }
    var later: seq<TaskResult>;
    later, remaining := AttemptEach(RepayPostExpiry, post, remaining, attempt, |results|);
    second := later;
    SuccessesAdd(first, second);
    results := results + later;
  }

  lemma {:induction false} SuccessesAdd(a: seq<TaskResult>, b: seq<TaskResult>)
    ensures Successes(a + b) == Successes(a) + Successes(b)
  {
    if b == [] {
      assert a + b == a;
    } else {
      SuccessesAdd(a, b[..|b| - 1]);
      assert (a + b)[..|a + b| - 1] == a + b[..|b| - 1];
    }
  }

  /** The indexer gives one target one expiry, in both queries. */
  ghost predicate OneExpiryPerTarget(positions: seq<Position>) {
    forall p, q :: p in positions && q in positions && p.target == q.target ==> p.expiryMs == q.expiryMs
  }

  /** No target is attempted in both phases, when the indexer honours `max_expiry_ms` in the second query. */
  lemma PhasesAreDisjoint(now: int, windowMs: int, pre: seq<Position>, post: seq<Position>, attempt: Attempt,
                          first: seq<TaskResult>, second: seq<TaskResult>, i: nat, j: nat)
    requires Reports(first, Deleverage, InForceWindow(pre, now, windowMs), attempt, 0)
    requires Reports(second, RepayPostExpiry, post, attempt, |first|)
    requires OneExpiryPerTarget(pre + post) && forall p :: p in post ==> p.expiryMs <= now
    requires i < |first| && j < |second|
    ensures first[i].position.target != second[j].position.target
  {
    var p, q := first[i].position, second[j].position;
    assert p in InForceWindow(pre, now, windowMs);
    assert p in pre + post && q in pre + post;
  }
}
