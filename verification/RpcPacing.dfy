/** Spacing of RPC calls: RpcRateLimiter of sui-rpc-failover.ts. */
module RpcPacing {
  import opened JsBasics

  /** `Math.ceil(1000 / Math.max(1, maxPerSecond))` for whole numbers. */
  function MinInterval(maxPerSecond: int): nat {
    var m := Max(1, maxPerSecond);
    (1000 + m - 1) / m
  }

  /** The earliest time at which a caller that began at `beganMs` is let through. */
  function DueAt(lastCallMs: int, minIntervalMs: int, beganMs: int): int {
    Max(beganMs, lastCallMs + minIntervalMs)
  }

  class RpcRateLimiter {
    const minIntervalMs: int
    var lastCallMs: int

    constructor (minIntervalMs: int)
      ensures this.minIntervalMs == minIntervalMs && lastCallMs == 0
    {
      this.minIntervalMs := minIntervalMs;
      lastCallMs := 0;
    }

    /** The sleep that a caller must take before it is let through. */
    method Wait(nowMs: int) returns (sleepMs: nat)
      ensures nowMs + sleepMs == DueAt(lastCallMs, minIntervalMs, nowMs)
    {
      var wait := lastCallMs + minIntervalMs - nowMs;
      sleepMs := if wait > 0 then wait else 0;
    }

    /** One caller alone: its timer fires after the sleep, `lateMs` too late. */
    method Acquire(beganMs: int, lateMs: nat) returns (resumedMs: int)
      modifies this
      ensures lastCallMs == resumedMs == DueAt(old(lastCallMs), minIntervalMs, beganMs) + lateMs
    {
      var sleepMs := Wait(beganMs);
      resumedMs := beganMs + sleepMs + lateMs;
      lastCallMs := resumedMs;
    }
  }

  /** Caller `i` is let through no sooner than one interval after the grant before. */
  predicate Due(lastCallMs: int, minIntervalMs: int, began: seq<int>, granted: seq<int>, i: nat)
    requires i < |granted| == |began|
  {
    granted[i] >= DueAt(if i == 0 then lastCallMs else granted[i - 1], minIntervalMs, began[i])
  }

  ghost predicate BeginAfterGrants(began: seq<int>, granted: seq<int>)
    requires |began| == |granted|
  {
    forall i :: 0 < i < |granted| ==> began[i] >= granted[i - 1]
  }

  /** Callers one after the other: each begins after the one before was let through. */
  ghost predicate Sequential(lastCallMs: int, minIntervalMs: int, began: seq<int>, granted: seq<int>) {
    && |began| == |granted|
    && (forall i :: 0 <= i < |granted| ==> Due(lastCallMs, minIntervalMs, began, granted, i))
    && BeginAfterGrants(began, granted)
  }

  /**
   Callers one after the other on the real limiter, caller `i` beginning `gaps[i]` after the one before was let
   through and its timer firing `lates[i]` too late: whatever these delays, the callers are sequential.
   */
  method AcquireInTurn(limiter: RpcRateLimiter, gaps: seq<nat>, lates: seq<nat>)
    returns (began: seq<int>, granted: seq<int>)
    requires |gaps| == |lates|
    modifies limiter
    ensures |granted| == |gaps| && Sequential(old(limiter.lastCallMs), limiter.minIntervalMs, began, granted)
    ensures limiter.lastCallMs == if granted == [] then old(limiter.lastCallMs) else granted[|granted| - 1]
  {
    began, granted := [], [];
    for i := 0 to |gaps|
      invariant |granted| == i && Sequential(old(limiter.lastCallMs), limiter.minIntervalMs, began, granted)
      invariant limiter.lastCallMs == if granted == [] then old(limiter.lastCallMs) else granted[i - 1]
    {
      var beganMs := limiter.lastCallMs + gaps[i];
      var resumedMs := limiter.Acquire(beganMs, lates[i]);
      assert (began + [beganMs])[..i] == began;
      if i > 0 {
        SequentialOneMore(old(limiter.lastCallMs), limiter.minIntervalMs, began + [beganMs], granted, resumedMs);
      } else {
        assert Due(old(limiter.lastCallMs), limiter.minIntervalMs, [beganMs], [resumedMs], 0);
      }
      began, granted := began + [beganMs], granted + [resumedMs];
    }
  }

  lemma {:induction false} Spaced(lastCallMs: int, minIntervalMs: nat, began: seq<int>, granted: seq<int>,
                                  i: nat, k: nat)
    requires Sequential(lastCallMs, minIntervalMs, began, granted) && i + k < |granted|
    ensures granted[i + k] >= granted[i] + k * minIntervalMs
  {
    if k > 0 {
      Spaced(lastCallMs, minIntervalMs, began, granted, i, k - 1);
      assert Due(lastCallMs, minIntervalMs, began, granted, i + k);
      assert k * minIntervalMs == (k - 1) * minIntervalMs + minIntervalMs;
    }
  }

  lemma IntervalFillsSecond(maxPerSecond: int)
    ensures Max(1, maxPerSecond) * MinInterval(maxPerSecond) >= 1000
  {
    var m := Max(1, maxPerSecond);
    var q := MinInterval(maxPerSecond);
    assert 1000 + m - 1 == m * q + (1000 + m - 1) % m;
  }

  /** The interval is the smallest whole number of milliseconds that, taken m times, fills a second. */
  lemma IntervalIsSmallest(maxPerSecond: int, interval: int)
    ensures interval >= MinInterval(maxPerSecond) <==> Max(1, maxPerSecond) * interval >= 1000
  {
    CeilingIsSmallest(1000, Max(1, maxPerSecond), interval);
  }

  lemma CeilingIsSmallest(a: int, m: int, i: int)
    requires m > 0
    ensures i >= (a + m - 1) / m <==> m * i >= a
  {
    var q, r := (a + m - 1) / m, (a + m - 1) % m;
    assert a + m - 1 == m * q + r;
    if i >= q { ProductGrows(m, q, i); } else { ProductGrows(m, i, q - 1); }
    assert m * (q - 1) == m * q - m;
  }

  lemma ProductGrows(m: int, a: int, b: int)
    requires m > 0 && a <= b
    ensures m * a <= m * b
  {
    assert m * b - m * a == m * (b - a);
  }

  /** Four calls a second, the default, are 250 ms apart; three are 334. */
  lemma Intervals()
    ensures MinInterval(4) == 250 && MinInterval(3) == 334 && MinInterval(0) == 1000 && MinInterval(2_000) == 1
  {}

  /** No half-open second holds more than the allowed number of sequential calls. */
  lemma AtMostPerSecond(lastCallMs: int, maxPerSecond: int, began: seq<int>, granted: seq<int>, i: nat)
    requires Sequential(lastCallMs, MinInterval(maxPerSecond), began, granted)
    requires i + Max(1, maxPerSecond) < |granted|
    ensures granted[i + Max(1, maxPerSecond)] >= granted[i] + 1000
  {
    Spaced(lastCallMs, MinInterval(maxPerSecond), began, granted, i, Max(1, maxPerSecond));
    IntervalFillsSecond(maxPerSecond);
  }

  // ---- overlapping callers -------------------------------------------------

  /** `lastCallMs` as a caller reads it at `at`: the latest grant so far. */
  function Seen(lastCallMs: int, granted: seq<int>, at: int): int {
    if granted == [] then lastCallMs
    else
      var before := Seen(lastCallMs, granted[..|granted| - 1], at);
      var last := granted[|granted| - 1];
      if last <= at then Max(before, last) else before
  }

  /** When callers that begin at these times are let through, if timers fire on time. */
  function Grants(lastCallMs: int, minIntervalMs: int, began: seq<int>): (granted: seq<int>)
    ensures |granted| == |began|
  {
    if began == [] then []
    else
      var n := |began| - 1;
      var before := Grants(lastCallMs, minIntervalMs, began[..n]);
      before + [DueAt(Seen(lastCallMs, before, began[n]), minIntervalMs, began[n])]
  }

  ghost predicate KeepDistance(minIntervalMs: int, granted: seq<int>) {
    forall i :: 0 < i < |granted| ==> granted[i] >= granted[i - 1] + minIntervalMs
  }

  /** A caller that begins after the latest grant sees it; one that begins between the last two sees the one before. */
  lemma {:induction false} SeesLatest(lastCallMs: int, minIntervalMs: nat, granted: seq<int>, at: int)
    requires KeepDistance(minIntervalMs, granted) && granted != []
    requires granted[0] >= lastCallMs && at >= (if |granted| == 1 then lastCallMs else granted[|granted| - 2])
    ensures Seen(lastCallMs, granted, at)
         == if at >= granted[|granted| - 1] then granted[|granted| - 1]
            else if |granted| == 1 then lastCallMs else granted[|granted| - 2]
  {
    var n := |granted| - 1;
    if n > 0 {
      SeesLatest(lastCallMs, minIntervalMs, granted[..n], at);
    }
  }

  /**
   Any number of callers, with timers that fire on time: every two neighbours keep their distance exactly when each
   caller begins after the one before was let through, so exactly for the sequential callers of the results above.
   */
  lemma {:induction false} SpacedExactlyWhenSequential(lastCallMs: int, minIntervalMs: int, began: seq<int>)
    requires minIntervalMs > 0 && Nondecreasing(began) && (began != [] ==> lastCallMs <= began[0])
    ensures var granted := Grants(lastCallMs, minIntervalMs, began);
            && (KeepDistance(minIntervalMs, granted) <==> BeginAfterGrants(began, granted))
            && (KeepDistance(minIntervalMs, granted) <==> Sequential(lastCallMs, minIntervalMs, began, granted))
  {
    hide Grants, Seen, KeepDistance, BeginAfterGrants, Sequential;
    if |began| <= 1 {
      SpacedAlone(lastCallMs, minIntervalMs, began);
    } else {
      var n := |began| - 1;
      var before := Grants(lastCallMs, minIntervalMs, began[..n]);
      assert Nondecreasing(began[..n]);
      SpacedExactlyWhenSequential(lastCallMs, minIntervalMs, began[..n]);
      GrantsNotBefore(lastCallMs, minIntervalMs, began[..n]);
      GrantsOneMore(lastCallMs, minIntervalMs, began);
      if KeepDistance(minIntervalMs, before) { LastGrant(lastCallMs, minIntervalMs, began[..n]); }
      OneMoreCaller(lastCallMs, minIntervalMs, began, before, Grants(lastCallMs, minIntervalMs, began)[n]);
    }
  }

  lemma GrantsOneMore(lastCallMs: int, minIntervalMs: int, began: seq<int>)
    requires began != []
    ensures var n := |began| - 1; var before := Grants(lastCallMs, minIntervalMs, began[..n]);
            Grants(lastCallMs, minIntervalMs, began)
            == before + [DueAt(Seen(lastCallMs, before, began[n]), minIntervalMs, began[n])]
  {
    hide Seen;
  }

  lemma SpacedAlone(lastCallMs: int, minIntervalMs: int, began: seq<int>)
    requires |began| <= 1
    ensures var granted := Grants(lastCallMs, minIntervalMs, began);
            && KeepDistance(minIntervalMs, granted) && BeginAfterGrants(began, granted)
            && Sequential(lastCallMs, minIntervalMs, began, granted)
  {
    if began != [] { GrantsOneMore(lastCallMs, minIntervalMs, began); }
  }

  /** Of three callers that begin at once on an idle limiter, the second and the third are let through together. */
  lemma ThreeAtOnce(lastCallMs: int, minIntervalMs: int, at: int)
    requires minIntervalMs > 0 && lastCallMs + minIntervalMs <= at
    ensures Grants(lastCallMs, minIntervalMs, [at, at, at]) == [at, at + minIntervalMs, at + minIntervalMs]
    ensures !KeepDistance(minIntervalMs, Grants(lastCallMs, minIntervalMs, [at, at, at]))
  {
    var due := at + minIntervalMs;
    var granted := Grants(lastCallMs, minIntervalMs, [at, at, at]);
    assert [at, at, at][..2] == [at, at] && [at, at][..1] == [at] && [at][..0] == [] && [at, due][..1] == [at];
    assert Grants(lastCallMs, minIntervalMs, [at]) == [at] by { GrantsOneMore(lastCallMs, minIntervalMs, [at]); }
    assert Seen(lastCallMs, [at], at) == at;
    assert Grants(lastCallMs, minIntervalMs, [at, at]) == [at, due] by {
      GrantsOneMore(lastCallMs, minIntervalMs, [at, at]);
    }
    assert Seen(lastCallMs, [at, due], at) == at;
    GrantsOneMore(lastCallMs, minIntervalMs, [at, at, at]);
    hide Grants, Seen;
    assert granted == [at, due, due];
    assert granted[2] < granted[1] + minIntervalMs;
  }

  lemma {:induction false} GrantsNotBefore(lastCallMs: int, minIntervalMs: int, began: seq<int>)
    requires began != [] ==> lastCallMs <= began[0]
    ensures var granted := Grants(lastCallMs, minIntervalMs, began);
            && (forall i :: 0 <= i < |began| ==> granted[i] >= began[i])
            && (began != [] ==> granted[0] >= lastCallMs)
  {
    if began != [] { GrantsNotBefore(lastCallMs, minIntervalMs, began[..|began| - 1]); }
  }

  lemma OneMoreCaller(lastCallMs: int, minIntervalMs: int, began: seq<int>, before: seq<int>, next: int)
    requires minIntervalMs > 0 && Nondecreasing(began) && |began| == |before| + 1 && before != []
    requires lastCallMs <= before[0]
    requires KeepDistance(minIntervalMs, before) <==> BeginAfterGrants(began[..|before|], before)
    requires KeepDistance(minIntervalMs, before) <==> Sequential(lastCallMs, minIntervalMs, began[..|before|], before)
    requires next == DueAt(Seen(lastCallMs, before, began[|before|]), minIntervalMs, began[|before|])
    requires KeepDistance(minIntervalMs, before) ==>
               var n := |before| - 1;
               && before[n] == DueAt(if n == 0 then lastCallMs else before[n - 1], minIntervalMs, began[n])
               && began[n] >= if n == 0 then lastCallMs else before[n - 1]
    ensures KeepDistance(minIntervalMs, before + [next]) <==> BeginAfterGrants(began, before + [next])
    ensures KeepDistance(minIntervalMs, before + [next]) <==>
              Sequential(lastCallMs, minIntervalMs, began, before + [next])
  {
    DistanceOneMore(minIntervalMs, before, next);
    BeginOneMore(began, before, next);
    SequentialOneMore(lastCallMs, minIntervalMs, began, before, next);
    if KeepDistance(minIntervalMs, before) {
      SeesLatest(lastCallMs, minIntervalMs, before, began[|before|]);
    }
    hide KeepDistance, BeginAfterGrants, Sequential, Seen;
  }

  lemma DistanceOneMore(minIntervalMs: int, before: seq<int>, next: int)
    requires before != []
    ensures KeepDistance(minIntervalMs, before + [next]) <==>
              KeepDistance(minIntervalMs, before) && next >= before[|before| - 1] + minIntervalMs
  {
    var granted := before + [next];
    if KeepDistance(minIntervalMs, granted) {
      forall i | 0 < i < |before| ensures before[i] >= before[i - 1] + minIntervalMs {
        assert granted[i] == before[i] && granted[i - 1] == before[i - 1];
      }
      assert next == granted[|before|] >= granted[|before| - 1] + minIntervalMs;
    }
  }

  lemma BeginOneMore(began: seq<int>, before: seq<int>, next: int)
    requires before != [] && |began| == |before| + 1
    ensures BeginAfterGrants(began, before + [next]) <==>
              BeginAfterGrants(began[..|before|], before) && began[|before|] >= before[|before| - 1]
  {
    var granted := before + [next];
    if BeginAfterGrants(began, granted) {
      forall i | 0 < i < |before| ensures began[..|before|][i] >= before[i - 1] {
        assert began[i] >= granted[i - 1];
      }
      assert began[|before|] >= granted[|before| - 1];
    }
    if BeginAfterGrants(began[..|before|], before) && began[|before|] >= before[|before| - 1] {
      forall i | 0 < i < |granted| ensures began[i] >= granted[i - 1] {
        if i < |before| { assert began[..|before|][i] >= before[i - 1]; }
      }
    }
  }

  lemma SequentialOneMore(lastCallMs: int, minIntervalMs: int, began: seq<int>, before: seq<int>, next: int)
    requires before != [] && |began| == |before| + 1
    ensures Sequential(lastCallMs, minIntervalMs, began, before + [next]) <==>
              && Sequential(lastCallMs, minIntervalMs, began[..|before|], before)
              && began[|before|] >= before[|before| - 1]
              && next >= DueAt(before[|before| - 1], minIntervalMs, began[|before|])
  {
    var n, granted := |before|, before + [next];
    BeginOneMore(began, before, next);
    assert forall i :: 0 <= i < n ==>
      (Due(lastCallMs, minIntervalMs, began, granted, i) <==> Due(lastCallMs, minIntervalMs, began[..n], before, i));
    assert Due(lastCallMs, minIntervalMs, began, granted, n) <==> next >= DueAt(before[n - 1], minIntervalMs, began[n]);
    hide Due;
  }

  /** The latest grant of spaced callers is due from the one before it. */
  lemma LastGrant(lastCallMs: int, minIntervalMs: int, began: seq<int>)
    requires minIntervalMs > 0 && began != [] && Nondecreasing(began) && lastCallMs <= began[0]
    requires var granted := Grants(lastCallMs, minIntervalMs, began);
             && KeepDistance(minIntervalMs, granted) && BeginAfterGrants(began, granted) && lastCallMs <= granted[0]
    ensures var granted := Grants(lastCallMs, minIntervalMs, began); var n := |began| - 1;
            && granted[n] == DueAt(if n == 0 then lastCallMs else granted[n - 1], minIntervalMs, began[n])
            && began[n] >= if n == 0 then lastCallMs else granted[n - 1]
  {
    var n := |began| - 1;
    var granted := Grants(lastCallMs, minIntervalMs, began);
    var before := Grants(lastCallMs, minIntervalMs, began[..n]);
    assert granted == before + [granted[n]];
    if n > 0 {
      assert forall i :: 0 <= i < n ==> granted[i] == before[i];
      assert began[n] >= before[n - 1];
      assert KeepDistance(minIntervalMs, before);
      assert n > 1 ==> before[n - 1] >= before[n - 2] + minIntervalMs;
      SeesLatest(lastCallMs, minIntervalMs, before, began[n]);
    }
  }
}
