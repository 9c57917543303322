/** Fixed-window rate limiter of rate-limit.service.ts, over whole traces of timed requests. */
module RateLimit {
  import opened JsBasics

  datatype Bucket = Bucket(count: int, resetAt: int)

  /** What one request does to the bucket of its key, and whether it is allowed. */
  function Admit(bucket: Option<Bucket>, limit: int, windowMs: int, nowMs: int): (Bucket, bool) {
    if bucket.None? || bucket.value.resetAt <= nowMs then (Bucket(1, nowMs + windowMs), true)
    else if bucket.value.count >= limit then (bucket.value, false)
    else (bucket.value.(count := bucket.value.count + 1), true)
  }

  function Lookup(buckets: map<string, Bucket>, key: string): Option<Bucket> {
    if key in buckets then Some(buckets[key]) else None
  }

  class RateLimitService {
    var buckets: map<string, Bucket>

    constructor ()
      ensures buckets == map[]
    { buckets := map[]; }

    method Allow(key: string, limit: int, windowMs: int, nowMs: int) returns (ok: bool)
      modifies this
      ensures var (bucket, admitted) := Admit(Lookup(old(buckets), key), limit, windowMs, nowMs);
              buckets == old(buckets)[key := bucket] && ok == admitted
    {
      if key !in buckets || buckets[key].resetAt <= nowMs {
        buckets := buckets[key := Bucket(1, nowMs + windowMs)];
        return true;
      }
      var bucket := buckets[key];
      if bucket.count >= limit {
        assert buckets == buckets[key := bucket];
        return false;
      }
      buckets := buckets[key := bucket.(count := bucket.count + 1)];
      return true;
    }
  }

  // ---- one key -------------------------------------------------------------

  /** The bucket after requests at `times`, all with the same limit and window. */
  function BucketAfter(times: seq<int>, limit: int, windowMs: int): Option<Bucket> {
    if times == [] then None
    else
      var n := |times| - 1;
      Some(Admit(BucketAfter(times[..n], limit, windowMs), limit, windowMs, times[n]).0)
  }

  /** Whether request `i` of the trace was allowed. */
  predicate Allowed(times: seq<int>, limit: int, windowMs: int, i: nat)
    requires i < |times|
  {
    Admit(BucketAfter(times[..i], limit, windowMs), limit, windowMs, times[i]).1
  }

  /** Allowed requests with lo <= time < hi. */
  function Passed(times: seq<int>, limit: int, windowMs: int, lo: int, hi: int): nat {
    if times == [] then 0
    else
      var n := |times| - 1;
      Passed(times[..n], limit, windowMs, lo, hi)
      + if lo <= times[n] < hi && Allowed(times, limit, windowMs, n) then 1 else 0
  }

  /** The first request of a window passes even under a limit below one. */
  function Burst(limit: int): int { Max(limit, 1) }

  /** How much of [lo, lo + window) the current bucket accounts for. */
  ghost predicate WindowInvariant(times: seq<int>, limit: int, windowMs: int, lo: int) {
    var passed := Passed(times, limit, windowMs, lo, lo + windowMs);
    match BucketAfter(times, limit, windowMs)
    case None => passed == 0
    case Some(b) =>
      var openedAt := b.resetAt - windowMs;
      && 1 <= b.count <= Burst(limit)
      && openedAt <= times[|times| - 1]
      && (openedAt < lo ==> passed <= b.count - 1)
      && (lo <= openedAt < lo + windowMs ==> passed <= Burst(limit) - 1 + b.count)
      && passed <= 2 * Burst(limit) - 1
  }

  lemma {:induction false} WindowInvariantHolds(times: seq<int>, limit: int, windowMs: int, lo: int)
    requires Nondecreasing(times)
    ensures times != [] ==> BucketAfter(times, limit, windowMs).Some?
    ensures WindowInvariant(times, limit, windowMs, lo)
    ensures (forall i :: 0 <= i < |times| ==> times[i] < lo) ==> Passed(times, limit, windowMs, lo, lo + windowMs) == 0
  {
    if times != [] {
      var n := |times| - 1;
      WindowInvariantHolds(times[..n], limit, windowMs, lo);
    }
  }

  /** Any stretch of one window length, wherever it starts, lets at most twice the limit less one through. */
  lemma SlidingWindowBound(times: seq<int>, limit: int, windowMs: int, lo: int)
    requires Nondecreasing(times)
    ensures Passed(times, limit, windowMs, lo, lo + windowMs) <= 2 * Burst(limit) - 1
  {
    WindowInvariantHolds(times, limit, windowMs, lo);
  }

  // ---- each bucket's own window --------------------------------------------

  /** The window of the bucket that `n` requests leave holds the last of them. */
  lemma BucketIsOpen(times: seq<int>, limit: int, windowMs: int)
    requires Nondecreasing(times) && times != [] && windowMs > 0
    ensures var b := BucketAfter(times, limit, windowMs).value;
            && b.resetAt - windowMs <= times[|times| - 1] < b.resetAt
            && 1 <= b.count <= Burst(limit)
  {
    WindowInvariantHolds(times, limit, windowMs, 0);
  }

  lemma {:induction false} NonePassElsewhere(times: seq<int>, limit: int, windowMs: int, lo: int, hi: int)
    requires forall i :: 0 <= i < |times| ==> !(lo <= times[i] < hi)
    ensures Passed(times, limit, windowMs, lo, hi) == 0
  {
    if times != [] { NonePassElsewhere(times[..|times| - 1], limit, windowMs, lo, hi); }
  }

  /** A bucket counts exactly the requests that passed since its window began, and they are at most the limit. */
  lemma {:induction false} BucketCountsItsWindow(times: seq<int>, limit: int, windowMs: int)
    requires Nondecreasing(times) && times != [] && windowMs > 0
    ensures var b := BucketAfter(times, limit, windowMs).value;
            Passed(times, limit, windowMs, b.resetAt - windowMs, b.resetAt) == b.count <= Burst(limit)
  {
    var n := |times| - 1;
    BucketIsOpen(times, limit, windowMs);
    if n > 0 {
      BucketIsOpen(times[..n], limit, windowMs);
      var before := BucketAfter(times[..n], limit, windowMs).value;
      if before.resetAt <= times[n] {
        assert forall i :: 0 <= i < n ==> times[i] <= times[n - 1] < times[n];
        NonePassElsewhere(times[..n], limit, windowMs, times[n], times[n] + windowMs);
      } else {
        BucketCountsItsWindow(times[..n], limit, windowMs);
      }
    }
  }

  /** Later requests never push a window beyond the limit: it holds for every bucket of a trace, to the end. */
  lemma {:induction false} EveryWindowHoldsLimit(times: seq<int>, limit: int, windowMs: int, k: nat)
    requires Nondecreasing(times) && 0 < k <= |times| && windowMs > 0
    ensures var b := BucketAfter(times[..k], limit, windowMs).value;
            Passed(times, limit, windowMs, b.resetAt - windowMs, b.resetAt) <= Burst(limit)
  {
    var n := |times| - 1;
    if k == |times| {
      assert times[..k] == times;
      BucketCountsItsWindow(times, limit, windowMs);
    } else {
      assert times[..n][..k] == times[..k];
      EveryWindowHoldsLimit(times[..n], limit, windowMs, k);
      if times[n] < BucketAfter(times[..k], limit, windowMs).value.resetAt {
        StillOpen(times, limit, windowMs, k);
        BucketCountsItsWindow(times, limit, windowMs);
      }
    }
  }

  /** While the clock is inside a bucket's window, it is that bucket that counts. */
  lemma {:induction false} StillOpen(times: seq<int>, limit: int, windowMs: int, k: nat)
    requires Nondecreasing(times) && 0 < k <= |times| && windowMs > 0
    requires times[|times| - 1] < BucketAfter(times[..k], limit, windowMs).value.resetAt
    ensures BucketAfter(times, limit, windowMs).value.resetAt == BucketAfter(times[..k], limit, windowMs).value.resetAt
  {
    var n := |times| - 1;
    if k == |times| {
      assert times[..k] == times;
    } else {
      assert times[..n][..k] == times[..k];
      StillOpen(times[..n], limit, windowMs, k);
    }
  }

  /** With a window of one millisecond, or none, no stretch of one window holds more than the limit. */
  lemma ShortWindowBound(times: seq<int>, limit: int, windowMs: int, lo: int)
    requires Nondecreasing(times) && windowMs <= 1
    ensures Passed(times, limit, windowMs, lo, lo + windowMs) <= Burst(limit)
  {
    if i :| 0 <= i < |times| && lo <= times[i] < lo + windowMs {
      BucketIsOpen(times[..i + 1], limit, windowMs);
      EveryWindowHoldsLimit(times, limit, windowMs, i + 1);
    } else {
      NonePassElsewhere(times, limit, windowMs, lo, lo + windowMs);
    }
  }

  lemma {:induction false} BucketCountsPassed(times: seq<int>, limit: int, windowMs: int, at: int)
    requires Nondecreasing(times) && times != [] && windowMs > 0
    requires times[|times| - 1] <= at
    ensures var b := BucketAfter(times, limit, windowMs).value;
            1 <= b.count <= Passed(times, limit, windowMs, b.resetAt - windowMs, at + 1)
  {
    var n := |times| - 1;
    var before := BucketAfter(times[..n], limit, windowMs);
    var b := Admit(before, limit, windowMs, times[n]).0;
    assert b.resetAt - windowMs <= times[n] by {
      WindowInvariantHolds(times, limit, windowMs, 0);
    }
    if n > 0 {
      BucketCountsPassed(times[..n], limit, windowMs, at);
    }
  }

  /** A request is refused only when the window just before it is full: at least the limit passed in it. */
  lemma RefusedOnlyWhenFull(times: seq<int>, limit: int, windowMs: int, at: int)
    requires Nondecreasing(times + [at]) && windowMs > 0
    requires !Allowed(times + [at], limit, windowMs, |times|)
    ensures Passed(times, limit, windowMs, at - windowMs + 1, at + 1) >= Burst(limit)
  {
    assert (times + [at])[..|times|] == times;
    assert times != [];
    assert forall i, j :: 0 <= i < j < |times| ==> times[i] == (times + [at])[i] && times[j] == (times + [at])[j];
    assert times[|times| - 1] == (times + [at])[|times| - 1] && (times + [at])[|times|] == at;
    var b := BucketAfter(times, limit, windowMs).value;
    BucketCountsPassed(times, limit, windowMs, at);
    PassedMonotone(times, limit, windowMs, b.resetAt - windowMs, at - windowMs + 1, at + 1);
  }

  lemma {:induction false} PassedMonotone(times: seq<int>, limit: int, windowMs: int, lo: int, wider: int, hi: int)
    requires wider <= lo
    ensures Passed(times, limit, windowMs, lo, hi) <= Passed(times, limit, windowMs, wider, hi)
  {
    if times != [] { PassedMonotone(times[..|times| - 1], limit, windowMs, lo, wider, hi); }
  }

  /** A request is refused exactly when its bucket's window is still open and already holds the limit. */
  lemma RefusedExactlyWhenFull(times: seq<int>, limit: int, windowMs: int, at: int)
    requires Nondecreasing(times) && windowMs > 0
    ensures !Allowed(times + [at], limit, windowMs, |times|) <==>
              times != [] && var b := BucketAfter(times, limit, windowMs).value;
              at < b.resetAt && Passed(times, limit, windowMs, b.resetAt - windowMs, b.resetAt) >= limit
  {
    assert (times + [at])[..|times|] == times;
    if times != [] { BucketCountsItsWindow(times, limit, windowMs); }
  }

  // ---- the bound is reached ------------------------------------------------

  function Repeat(t: int, k: nat): (r: seq<int>)
    ensures |r| == k && forall i :: 0 <= i < k ==> r[i] == t
  {
    seq(k, i => t)
  }

  /** Requests at one instant inside an open window all pass while the limit lasts. */
  lemma {:induction false} RepeatPasses(times: seq<int>, t: int, k: nat, limit: int, windowMs: int, lo: int, hi: int)
    requires BucketAfter(times, limit, windowMs).Some?
    requires var b := BucketAfter(times, limit, windowMs).value;
             t < b.resetAt && b.count + k <= limit
    requires lo <= t < hi
    ensures var b := BucketAfter(times, limit, windowMs).value;
            BucketAfter(times + Repeat(t, k), limit, windowMs) == Some(b.(count := b.count + k))
    ensures Passed(times + Repeat(t, k), limit, windowMs, lo, hi) == Passed(times, limit, windowMs, lo, hi) + k
  {
    if k == 0 {
      assert times + Repeat(t, 0) == times;
    } else {
      RepeatPasses(times, t, k - 1, limit, windowMs, lo, hi);
      var all := times + Repeat(t, k);
      assert all[..|all| - 1] == times + Repeat(t, k - 1);
    }
  }

  /** A trace whose busiest window lets exactly 2 * limit - 1 requests through. */
  function WorstTrace(limit: nat, windowMs: int): seq<int>
    requires limit >= 1
  {
    [0] + Repeat(windowMs - 1, limit - 1) + ([windowMs] + Repeat(windowMs, limit - 1))
  }

  lemma SlidingWindowBoundIsTight(limit: nat, windowMs: int)
    requires limit >= 1 && windowMs >= 2
    ensures Nondecreasing(WorstTrace(limit, windowMs))
    ensures Passed(WorstTrace(limit, windowMs), limit, windowMs, windowMs - 1, 2 * windowMs - 1) == 2 * limit - 1
  {
    var lo, hi := windowMs - 1, 2 * windowMs - 1;
    assert [0][..0] == [];
    RepeatPasses([0], windowMs - 1, limit - 1, limit, windowMs, lo, hi);
    var first := [0] + Repeat(windowMs - 1, limit - 1);
    var second := first + [windowMs];
    assert second[..|first|] == first;
    RepeatPasses(second, windowMs, limit - 1, limit, windowMs, lo, hi);
    assert second + Repeat(windowMs, limit - 1) == WorstTrace(limit, windowMs);
  }

  /** The stretch of one window length from `lo` holds no more than the limit. */
  predicate WithinLimit(times: seq<int>, limit: int, windowMs: int, lo: int) {
    Passed(times, limit, windowMs, lo, lo + windowMs) <= Burst(limit)
  }

  /** Every stretch of every trace holds no more than the limit exactly for limit 1 or a window below 2 ms. */
  lemma PlainBoundExactly(limit: int, windowMs: int)
    ensures (forall times: seq<int>, lo: int :: Nondecreasing(times) ==> WithinLimit(times, limit, windowMs, lo))
            <==> limit <= 1 || windowMs <= 1
  {
    if limit <= 1 || windowMs <= 1 {
      forall times: seq<int>, lo: int ensures Nondecreasing(times) ==> WithinLimit(times, limit, windowMs, lo) {
        if Nondecreasing(times) {
          if limit <= 1 {
            SlidingWindowBound(times, limit, windowMs, lo);
          } else {
            ShortWindowBound(times, limit, windowMs, lo);
          }
        }
      }
    } else {
      SlidingWindowBoundIsTight(limit, windowMs);
      assert !WithinLimit(WorstTrace(limit, windowMs), limit, windowMs, windowMs - 1);
    }
  }

  // ---- many keys -----------------------------------------------------------

  datatype Request = Request(key: string, limit: int, windowMs: int, at: int)

  function BucketsAfter(requests: seq<Request>): map<string, Bucket> {
    if requests == [] then map[]
    else
      var r := requests[|requests| - 1];
      var before := BucketsAfter(requests[..|requests| - 1]);
      before[r.key := Admit(Lookup(before, r.key), r.limit, r.windowMs, r.at).0]
  }

  function TimesOf(requests: seq<Request>, key: string): seq<int> {
    if requests == [] then []
    else
      var r := requests[|requests| - 1];
      TimesOf(requests[..|requests| - 1], key) + if r.key == key then [r.at] else []
  }

  /** Keys do not disturb each other: each key's bucket is the one its own requests alone would leave. */
  lemma {:induction false} KeysAreIndependent(requests: seq<Request>, key: string, limit: int, windowMs: int)
    requires forall r :: r in requests && r.key == key ==> r.limit == limit && r.windowMs == windowMs
    ensures Lookup(BucketsAfter(requests), key) == BucketAfter(TimesOf(requests, key), limit, windowMs)
  {
    if requests != [] {
      var n := |requests| - 1;
      KeysAreIndependent(requests[..n], key, limit, windowMs);
      var times := TimesOf(requests[..n], key);
      assert (times + [requests[n].at])[..|times|] == times && times + [] == times;
      assert requests[n] in requests;
    }
  }

  /** A request at or after the end of its window is always allowed. */
  lemma AllowedOnceReset(times: seq<int>, at: int, limit: int, windowMs: int)
    requires times == [] || BucketAfter(times, limit, windowMs).value.resetAt <= at
    ensures Allowed(times + [at], limit, windowMs, |times|)
  {
    assert (times + [at])[..|times|] == times;
  }
}
