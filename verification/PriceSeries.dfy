/** The polled spot-price series of useOracleSpotPriceSeries.ts. */
module PriceSeries {
  import opened JsBasics

  const MAX_SERIES_POINTS := 720

  datatype PricePoint = PricePoint(t: int, price: real)

  /** One poll: the spot, its own time if any, and what the wall clock reads at the two places that ask. */
  datatype Poll = Poll(spot: real, timestampMs: Option<int>, firstNow: int, secondNow: int)

  function PolledPricePoint(latest: Poll, last: Option<PricePoint>): PricePoint {
    var t := if latest.timestampMs.Some? then latest.timestampMs.value else latest.firstNow;
    if last.None? then PricePoint(t, latest.spot)
    else
      var t2 := if t <= last.value.t then latest.secondNow else t;
      PricePoint(if t2 <= last.value.t then last.value.t + 1_000 else t2, latest.spot)
  }

  function Last(points: seq<PricePoint>): Option<PricePoint> {
    if points == [] then None else Some(points[|points| - 1])
  }

  /** `slice(-n)` */
  function LastN(points: seq<PricePoint>, n: nat): seq<PricePoint> {
    if |points| > n then points[|points| - n..] else points
  }

  function AppendPricePoint(prev: seq<PricePoint>, point: PricePoint, cap: nat): seq<PricePoint> {
    var last := Last(prev);
    var next := if last.Some? && point.t <= last.value.t then point.(t := last.value.t + 1_000) else point;
    if last == Some(next) then prev else LastN(prev + [next], cap)
  }

  function SeriesAfter(polls: seq<Poll>): seq<PricePoint> {
    if polls == [] then []
    else
      var prev := SeriesAfter(polls[..|polls| - 1]);
      AppendPricePoint(prev, PolledPricePoint(polls[|polls| - 1], Last(prev)), MAX_SERIES_POINTS)
  }

  /** Every poll adds one point: at its own time if later than the last, else at the clock's, else a second later. */
  function FullSeriesAfter(polls: seq<Poll>): seq<PricePoint> {
    if polls == [] then []
    else
      var prev := FullSeriesAfter(polls[..|polls| - 1]);
      prev + [PolledPricePoint(polls[|polls| - 1], Last(prev))]
  }

  lemma AppendIsRecentPart(full: seq<PricePoint>, point: PricePoint, n: nat)
    requires n > 0 && (full == [] || full[|full| - 1].t < point.t)
    ensures Last(LastN(full, n)) == Last(full)
    ensures AppendPricePoint(LastN(full, n), point, n) == LastN(full + [point], n)
  {}

  /**
   A poll's point has the polled price. Its time is the poll's own, or the clock's where it has none, if that is later
   than the last point's; else the clock's second reading, if that is later; else a second after the last.
   */
  lemma PointTime(poll: Poll, last: Option<PricePoint>)
    ensures var p := PolledPricePoint(poll, last); var own := poll.timestampMs.GetOr(poll.firstNow);
            && p.price == poll.spot
            && (last.None? || own > last.value.t ==> p.t == own)
            && (last.Some? && own <= last.value.t < poll.secondNow ==> p.t == poll.secondNow)
            && (last.Some? && own <= last.value.t && poll.secondNow <= last.value.t ==> p.t == last.value.t + 1_000)
  {}

  lemma {:induction false} FullIsLater(polls: seq<Poll>)
    ensures |FullSeriesAfter(polls)| == |polls|
    ensures forall i, j :: 0 <= i < j < |polls| ==> FullSeriesAfter(polls)[i].t < FullSeriesAfter(polls)[j].t
  {
    if polls != [] { FullIsLater(polls[..|polls| - 1]); }
  }

  lemma {:induction false} RecentPart(polls: seq<Poll>)
    ensures SeriesAfter(polls) == LastN(FullSeriesAfter(polls), 720)
  {
    if polls != [] {
      var n := |polls| - 1;
      RecentPart(polls[..n]);
      FullIsLater(polls[..n]);
      var full := FullSeriesAfter(polls[..n]);
      var point := PolledPricePoint(polls[n], Last(full));
      assert full == [] || full[|full| - 1].t < point.t;
      hide AppendPricePoint, PolledPricePoint, LastN, Last;
      AppendIsRecentPart(full, point, 720);
    }
  }

  /** The shown series is the last 720 points of the full one, which has a point a poll, strictly later each time. */
  lemma SeriesIsRecentPart(polls: seq<Poll>)
    ensures SeriesAfter(polls) == LastN(FullSeriesAfter(polls), 720)
    ensures |SeriesAfter(polls)| == Min(|polls|, 720) && |FullSeriesAfter(polls)| == |polls|
    ensures forall k :: 0 <= k < |SeriesAfter(polls)| ==>
              SeriesAfter(polls)[k] == FullSeriesAfter(polls)[|polls| - |SeriesAfter(polls)| + k]
    ensures forall i, j :: 0 <= i < j < |polls| ==> FullSeriesAfter(polls)[i].t < FullSeriesAfter(polls)[j].t
    ensures forall i, j :: 0 <= i < j < |SeriesAfter(polls)| ==> SeriesAfter(polls)[i].t < SeriesAfter(polls)[j].t
  {
    RecentPart(polls);
    FullIsLater(polls);
    hide SeriesAfter, FullSeriesAfter;
  }

  /**
   A point that is later than the last is added as it is; one that is not is added a second after the last. The series
   never holds more than `cap` points, and gives up the oldest first.
   */
  lemma AppendExactly(prev: seq<PricePoint>, point: PricePoint, cap: nat)
    requires cap > 0 && |prev| <= cap
    ensures var next := AppendPricePoint(prev, point, cap);
            var added := if prev == [] || point.t > prev[|prev| - 1].t then point
                         else PricePoint(prev[|prev| - 1].t + 1_000, point.price);
            next == (if |prev| < cap then prev else prev[1..]) + [added]
  {}

  /** Every point of the full series has its poll's price, and the time that the poll gives after the point before. */
  lemma {:induction false} PointOfPoll(polls: seq<Poll>, i: nat)
    requires i < |polls|
    ensures |FullSeriesAfter(polls)| == |polls|
    ensures FullSeriesAfter(polls)[i]
         == PolledPricePoint(polls[i], if i == 0 then None else Some(FullSeriesAfter(polls)[i - 1]))
  {
    var n := |polls| - 1;
    FullIsLater(polls[..n]);
    if i < n { PointOfPoll(polls[..n], i); }
  }
}
