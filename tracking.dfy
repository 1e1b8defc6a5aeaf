/** Rules shared by the server's three ticker trackers: the one-hour tick
    window, pruning trades by age, and the open/high/low/close candles that
    the original and the second-generation trackers build from trades, one series per interval in
    minutes. Times are milliseconds; a `time.Duration` comparison of 60
    minutes plus one nanosecond is written out in nanoseconds. */
module Tracking {
  import opened Wrappers

  const MinuteMs := 60000

  /** A 24-hour ticker message; the tracker only reads its timestamp, the
      websocket builders read the rest. */
  datatype Tick = Tick(
    timestamp: int, close: real, bid: real, ask: real, high: real, low: real,
    volume: real, priceChangePercent: real)

  /** An aggregated trade. */
  datatype Trade = Trade(symbol: string, timestamp: int, price: real, quantity: real, buyerMaker: bool)

  /** A candle: the first moment of its period and its prices. */
  datatype Candle = Candle(time: int, open: real, high: real, low: real, close: real)

  /** The per-interval metrics; a new tracker has them all zero. */
  datatype TickerMetrics = TickerMetrics(
    priceChangePercent: real, volumeChangePercent: real, high: real, low: real,
    range: real, rangePercent: real, vwap: real, totalVolume: real, netVolume: real,
    buyVolume: real, sellVolume: real, rsi: real)

  const ZeroMetrics := TickerMetrics(0.0, 0.0, 0.0, 0.0, 0.0, 0.0, 0.0, 0.0, 0.0, 0.0, 0.0, 0.0)

  /** Zeroed metrics for exactly the given buckets. */
  function MetricsFor(buckets: seq<int>): (r: map<int, TickerMetrics>)
    ensures forall b :: b in r <==> b in buckets
    ensures forall b :: b in r ==> r[b] == ZeroMetrics
  {
    map b | b in buckets :: ZeroMetrics
  }

  /** `time.Truncate(d)`: down to a multiple of `d`. */
  function Truncate(t: int, d: int): int
    requires d > 0
  {
    t - t % d
  }

  // Dropping a prefix.

  /** The number of leading elements of `s` that satisfy `p`. */
  function Leading<T>(s: seq<T>, p: T -> bool): (n: nat)
    ensures n <= |s|
  {
    if s == [] || !p(s[0]) then 0 else 1 + Leading(s[1..], p)
  }

  /** The elements after the longest prefix that satisfies `p`. */
  function DropLeading<T>(s: seq<T>, p: T -> bool): seq<T> {
    s[Leading(s, p)..]
  }

  /** `Leading` counts exactly the longest prefix satisfying `p`. */
  lemma {:induction false} LeadingIsLongest<T>(s: seq<T>, p: T -> bool)
    ensures forall i :: 0 <= i < Leading(s, p) ==> p(s[i])
    ensures Leading(s, p) < |s| ==> !p(s[Leading(s, p)])
  {
    if s != [] && p(s[0]) {
      LeadingIsLongest(s[1..], p);
    }
  }

  lemma LeadingOfTail<T>(s: seq<T>, p: T -> bool)
    requires s != [] && p(s[0])
    ensures DropLeading(s, p) == DropLeading(s[1..], p)
  {
  }

  // The tick window.

  /** Whether a tick is more than 60 minutes and 1 nanosecond older than
      `now`. */
  function TooOld(now: int): Tick -> bool {
    (t: Tick) => (now - t.timestamp) * 1000000 > 60 * MinuteMs * 1000000 + 1
  }

  /** The window after `Update`: the new tick appended and the stale
      ticks at the front dropped. */
  function TickWindow(ticks: seq<Tick>, tick: Tick): seq<Tick> {
    DropLeading(ticks + [tick], TooOld(tick.timestamp))
  }

  /** The new tick is never dropped and stays last; every dropped tick is
      stale, and the oldest kept one is not. */
  lemma TickWindowKeepsNewTick(ticks: seq<Tick>, tick: Tick)
    ensures var w := TickWindow(ticks, tick);
            |w| > 0 && w[|w| - 1] == tick && |w| <= |ticks| + 1 &&
            w == (ticks + [tick])[|ticks| + 1 - |w|..]
    ensures var w := TickWindow(ticks, tick);
            !TooOld(tick.timestamp)(w[0]) &&
            forall i :: 0 <= i < |ticks| + 1 - |w| ==> TooOld(tick.timestamp)(ticks[i])
  {
    var full := ticks + [tick];
    LeadingIsLongest(full, TooOld(tick.timestamp));
    assert !TooOld(tick.timestamp)(full[|full| - 1]);
    var n := Leading(full, TooOld(tick.timestamp));
    assert n < |full|;
    forall i | 0 <= i < n
      ensures TooOld(tick.timestamp)(ticks[i])
    {
      assert full[i] == ticks[i];
    }
  }

  /** The `Update` loop: append, then drop stale ticks from the front. */
  method SlideWindow(ticks: seq<Tick>, tick: Tick) returns (r: seq<Tick>)
    ensures r == TickWindow(ticks, tick)
  {
    r := ticks + [tick];
    var now := tick.timestamp;
    var stale := TooOld(now);
    ghost var target := DropLeading(r, stale);
    assert !stale(tick);
    while stale(r[0])
      invariant |r| > 0 && r[|r| - 1] == tick
      invariant DropLeading(r, stale) == target
      decreases |r|
    {
      assert |r| > 1;
      LeadingOfTail(r, stale);
      r := r[1..];
    }
    assert Leading(r, stale) == 0;
  }

  // Pruning trades.

  /** Whether a trade is at least `limit` milliseconds old at `now`. */
  function AgedAtLeast(now: int, limit: int): Trade -> bool {
    (t: Trade) => !(now - t.timestamp < limit)
  }

  /** The `PruneTrades` loop: `chop` counts the leading aged trades. */
  method PruneAged(trades: seq<Trade>, now: int, limit: int) returns (r: seq<Trade>)
    ensures r == DropLeading(trades, AgedAtLeast(now, limit))
  {
    var chop := 0;
    var i := 0;
    while i < |trades|
      invariant 0 <= i <= |trades| && chop == i
      invariant DropLeading(trades[i..], AgedAtLeast(now, limit)) == DropLeading(trades, AgedAtLeast(now, limit))[..] &&
                Leading(trades, AgedAtLeast(now, limit)) == i + Leading(trades[i..], AgedAtLeast(now, limit))
    {
      if now - trades[i].timestamp < limit {
        break;
      }
      assert trades[i..][1..] == trades[i + 1..];
      chop := i + 1;
      i := i + 1;
    }
    r := trades;
    if chop > 0 {
      r := trades[chop..];
    }
    assert i < |trades| ==> Leading(trades[i..], AgedAtLeast(now, limit)) == 0;
  }

  /** Pruning removes exactly the longest prefix of trades aged at least
      `limit`: every removed trade is that old and the first kept one is
      younger. */
  lemma PruneRemovesAgedPrefix(trades: seq<Trade>, now: int, limit: int)
    ensures var r := DropLeading(trades, AgedAtLeast(now, limit));
            var n := |trades| - |r|;
            r == trades[n..] &&
            (forall i :: 0 <= i < n ==> now - trades[i].timestamp >= limit) &&
            (r != [] ==> now - r[0].timestamp < limit)
  {
    LeadingIsLongest(trades, AgedAtLeast(now, limit));
  }

  // Candles.

  ghost predicate WellFormed(c: Candle) {
    c.low <= c.close <= c.high
  }

  ghost predicate AllWellFormed(s: seq<Candle>) {
    forall i :: 0 <= i < |s| ==> WellFormed(s[i])
  }

  /** The series of one interval: `None` while the map has no slice for it. */
  function Series(aggs: map<int, seq<Candle>>, interval: int): Option<seq<Candle>> {
    if interval in aggs then Some(aggs[interval]) else None
  }

  ghost predicate SeriesNonEmpty(aggs: map<int, seq<Candle>>) {
    forall k :: k in aggs ==> |aggs[k]| > 0
  }

  /** The 1-minute series after a trade, as written: a trade in the last
      candle's minute updates that candle; any other trade appends exactly
      one candle opening at the previous close. */
  function MinuteStep(prev: Option<seq<Candle>>, ts: int, price: real): seq<Candle>
    requires prev.Some? ==> |prev.value| > 0
  {
    var openTime := Truncate(ts, MinuteMs);
    match prev
    case None => [Candle(openTime, price, price, price, price)]
    case Some(aggs) =>
      var last := aggs[|aggs| - 1];
      if last.time == openTime then
        aggs[..|aggs| - 1] +
        [last.(close := price,
               high := if price > last.high then price else last.high,
               low := if price < last.low then price else last.low)]
      else
        aggs + [Candle(openTime, last.close, price, price, price)]
  }

  /** The series of a longer interval after the 1-minute candle `m1`
      changed, as written: in the same period the close follows `m1`'s
      close and only that close widens the range; a new period appends one
      candle opening at the previous close with `m1`'s range; the first
      candle copies `m1`. */
  function IntervalStep(prev: Option<seq<Candle>>, m1: Candle, interval: int): seq<Candle>
    requires interval > 0
    requires prev.Some? ==> |prev.value| > 0
  {
    var openTime := Truncate(m1.time, interval * MinuteMs);
    match prev
    case None => [Candle(openTime, m1.open, m1.high, m1.low, m1.close)]
    case Some(aggs) =>
      var last := aggs[|aggs| - 1];
      if last.time == openTime then
        aggs[..|aggs| - 1] +
        [last.(close := m1.close,
               high := if m1.close > last.high then m1.close else last.high,
               low := if m1.close < last.low then m1.close else last.low)]
      else
        aggs + [Candle(openTime, last.close, m1.high, m1.low, m1.close)]
  }

  /** What a trade does to the 1-minute series: the last candle is the
      trade's minute and closes at the trade's price; earlier candles do not
      change; a candle in the same minute keeps its time and open and only
      widens its range; otherwise exactly one candle is appended, opening
      at the previous close. Well-formed candles stay well formed. */
  lemma MinuteStepShape(prev: Option<seq<Candle>>, ts: int, price: real)
    requires prev.Some? ==> |prev.value| > 0
    ensures var r := MinuteStep(prev, ts, price);
            |r| > 0 && r[|r| - 1].time == Truncate(ts, MinuteMs) && r[|r| - 1].close == price
    ensures prev.None? ==> |MinuteStep(prev, ts, price)| == 1
    ensures prev.Some? ==>
              var a := prev.value;
              var r := MinuteStep(prev, ts, price);
              var last := a[|a| - 1];
              r[..|a| - 1] == a[..|a| - 1] &&
              (last.time == Truncate(ts, MinuteMs) ==>
                 |r| == |a| && r[|a| - 1].open == last.open &&
                 r[|a| - 1].high >= last.high && r[|a| - 1].low <= last.low) &&
              (last.time != Truncate(ts, MinuteMs) ==>
                 |r| == |a| + 1 && r[..|a|] == a && r[|a|].open == last.close &&
                 r[|a|].high == price && r[|a|].low == price)
    ensures prev.Some? && AllWellFormed(prev.value) ==> AllWellFormed(MinuteStep(prev, ts, price))
    ensures prev.None? ==> AllWellFormed(MinuteStep(prev, ts, price))
  {
    if prev.Some? {
      var a := prev.value;
      var r := MinuteStep(prev, ts, price);
      if AllWellFormed(a) {
        forall i | 0 <= i < |r| ensures WellFormed(r[i]) {
          if i < |a| - 1 {
            assert r[i] == a[i];
          } else if i == |a| - 1 {
            assert WellFormed(a[|a| - 1]);
          }
        }
      }
    }
  }

  /** What the 1-minute candle does to a longer interval's series. */
  lemma IntervalStepShape(prev: Option<seq<Candle>>, m1: Candle, interval: int)
    requires interval > 0
    requires prev.Some? ==> |prev.value| > 0
    ensures var r := IntervalStep(prev, m1, interval);
            |r| > 0 && r[|r| - 1].time == Truncate(m1.time, interval * MinuteMs) && r[|r| - 1].close == m1.close
    ensures prev.None? ==> IntervalStep(prev, m1, interval) == [m1.(time := Truncate(m1.time, interval * MinuteMs))]
    ensures prev.Some? ==>
              var a := prev.value;
              var r := IntervalStep(prev, m1, interval);
              var last := a[|a| - 1];
              r[..|a| - 1] == a[..|a| - 1] &&
              (last.time == Truncate(m1.time, interval * MinuteMs) ==>
                 |r| == |a| && r[|a| - 1].open == last.open &&
                 r[|a| - 1].high == (if m1.close > last.high then m1.close else last.high) &&
                 r[|a| - 1].low == (if m1.close < last.low then m1.close else last.low)) &&
              (last.time != Truncate(m1.time, interval * MinuteMs) ==>
                 |r| == |a| + 1 && r[..|a|] == a && r[|a|].open == last.close &&
                 r[|a|].high == m1.high && r[|a|].low == m1.low)
    ensures WellFormed(m1) && (prev.Some? ==> AllWellFormed(prev.value)) ==>
              AllWellFormed(IntervalStep(prev, m1, interval))
  {
    if prev.Some? && WellFormed(m1) && AllWellFormed(prev.value) {
      var a := prev.value;
      var r := IntervalStep(prev, m1, interval);
      forall i | 0 <= i < |r| ensures WellFormed(r[i]) {
        if i < |a| - 1 {
          assert r[i] == a[i];
        } else if i == |a| - 1 {
          assert WellFormed(a[|a| - 1]);
        }
      }
    }
  }

  /** The 1-minute step with the gap-filling loop as written: each filler
      candle is appended to the stale slice and the next assignment
      replaces it, so only the trade's candle survives. */
  method AddMinuteCandle(prev: Option<seq<Candle>>, ts: int, price: real) returns (r: seq<Candle>)
    requires prev.Some? ==> |prev.value| > 0
    ensures r == MinuteStep(prev, ts, price)
  {
    var openTime := ts - ts % MinuteMs;
    if prev.None? {
      return [Candle(openTime, price, price, price, price)];
    }
    var aggs := prev.value;
    var lastAgg := aggs[|aggs| - 1];
    if lastAgg.time == openTime {
      var high := lastAgg.high;
      var low := lastAgg.low;
      if price > high {
        high := price;
      }
      if price < low {
        low := price;
      }
      r := aggs[..|aggs| - 1] + [lastAgg.(close := price, high := high, low := low)];
    } else {
      var nextTime := lastAgg.time + MinuteMs;
      r := aggs;
      while nextTime < openTime {
        r := aggs + [Candle(nextTime, lastAgg.close, lastAgg.close, lastAgg.close, lastAgg.close)];
        nextTime := nextTime + MinuteMs;
      }
      r := aggs + [Candle(openTime, lastAgg.close, price, price, price)];
    }
  }

  /** The longer-interval step, with the same gap-filling loop. */
  method AddIntervalCandle(prev: Option<seq<Candle>>, m1: Candle, interval: int) returns (r: seq<Candle>)
    requires interval > 0
    requires prev.Some? ==> |prev.value| > 0
    ensures r == IntervalStep(prev, m1, interval)
  {
    var openTime := m1.time - m1.time % (interval * MinuteMs);
    if prev.None? {
      return [Candle(openTime, m1.open, m1.high, m1.low, m1.close)];
    }
    var aggs := prev.value;
    var lastAgg := aggs[|aggs| - 1];
    if lastAgg.time == openTime {
      var high := lastAgg.high;
      var low := lastAgg.low;
      if m1.close > high {
        high := m1.close;
      }
      if m1.close < low {
        low := m1.close;
      }
      r := aggs[..|aggs| - 1] + [lastAgg.(close := m1.close, high := high, low := low)];
    } else {
      var nextTime := lastAgg.time + interval * MinuteMs;
      r := aggs;
      while nextTime < openTime {
        r := aggs + [Candle(nextTime, lastAgg.close, lastAgg.close, lastAgg.close, lastAgg.close)];
        nextTime := nextTime + interval * MinuteMs;
      }
      r := aggs + [Candle(openTime, lastAgg.close, m1.high, m1.low, m1.close)];
    }
  }

  /** The longer intervals' series after the 1-minute candle `m1`, in the
      order of `intervals`. */
  function IntervalSteps(aggs: map<int, seq<Candle>>, intervals: seq<int>, m1: Candle): (r: map<int, seq<Candle>>)
    requires SeriesNonEmpty(aggs)
    requires forall i :: 0 <= i < |intervals| ==> intervals[i] > 0
    ensures SeriesNonEmpty(r)
  {
    if intervals == [] then aggs
    else
      var before := IntervalSteps(aggs, intervals[..|intervals| - 1], m1);
      var interval := intervals[|intervals| - 1];
      before[interval := IntervalStep(Series(before, interval), m1, interval)]
  }

  /** The candles after a trade: the 1-minute series first, then every
      other bucket from the new 1-minute candle. */
  function Aggregate(aggs: map<int, seq<Candle>>, buckets: seq<int>, ts: int, price: real): (r: map<int, seq<Candle>>)
    requires SeriesNonEmpty(aggs)
    requires |buckets| > 0 && forall i :: 0 <= i < |buckets| ==> buckets[i] > 0
    ensures SeriesNonEmpty(r)
  {
    var m1s := MinuteStep(Series(aggs, 1), ts, price);
    MinuteStepShape(Series(aggs, 1), ts, price);
    IntervalSteps(aggs[1 := m1s], buckets[1..], m1s[|m1s| - 1])
  }

  /** The candle loop of `AddTrade`. */
  method AggregateTrade(aggs: map<int, seq<Candle>>, buckets: seq<int>, ts: int, price: real)
    returns (r: map<int, seq<Candle>>)
    requires SeriesNonEmpty(aggs)
    requires |buckets| > 0 && forall i :: 0 <= i < |buckets| ==> buckets[i] > 0
    ensures r == Aggregate(aggs, buckets, ts, price)
  {
    MinuteStepShape(Series(aggs, 1), ts, price);
    var m1s := AddMinuteCandle(Series(aggs, 1), ts, price);
    r := aggs[1 := m1s];
    var m1 := m1s[|m1s| - 1];
    var rest := buckets[1..];
    for n := 0 to |rest|
      invariant r == IntervalSteps(aggs[1 := m1s], rest[..n], m1)
    {
      assert rest[..n + 1][..n] == rest[..n];
      var interval := rest[n];
      var s := AddIntervalCandle(Series(r, interval), m1, interval);
      r := r[interval := s];
    }
    assert rest[..|rest|] == rest;
  }

  ghost predicate AllSeriesWellFormed(aggs: map<int, seq<Candle>>) {
    forall k :: k in aggs ==> AllWellFormed(aggs[k])
  }

  /** Every candle of every series keeps its low at or below its close and
      its close at or below its high; its open may lie outside that range. */
  lemma {:induction false} IntervalStepsWellFormed(aggs: map<int, seq<Candle>>, intervals: seq<int>, m1: Candle)
    requires SeriesNonEmpty(aggs)
    requires forall i :: 0 <= i < |intervals| ==> intervals[i] > 0
    requires AllSeriesWellFormed(aggs) && WellFormed(m1)
    ensures AllSeriesWellFormed(IntervalSteps(aggs, intervals, m1))
  {
    if intervals != [] {
      var init := intervals[..|intervals| - 1];
      IntervalStepsWellFormed(aggs, init, m1);
      var before := IntervalSteps(aggs, init, m1);
      var interval := intervals[|intervals| - 1];
      IntervalStepShape(Series(before, interval), m1, interval);
    }
  }

  /** Each stepped interval's last candle closes at `m1`'s close; the
      series of other intervals do not change. */
  lemma {:induction false} IntervalStepsClose(aggs: map<int, seq<Candle>>, intervals: seq<int>, m1: Candle)
    requires SeriesNonEmpty(aggs)
    requires forall i :: 0 <= i < |intervals| ==> intervals[i] > 0
    ensures forall i :: i in intervals ==> i in IntervalSteps(aggs, intervals, m1)
    ensures forall i :: i in intervals ==>
              var s := IntervalSteps(aggs, intervals, m1)[i];
              s[|s| - 1].close == m1.close
    ensures forall k :: k !in intervals ==>
              (k in IntervalSteps(aggs, intervals, m1) <==> k in aggs) &&
              (k in aggs ==> IntervalSteps(aggs, intervals, m1)[k] == aggs[k])
  {
    forall i | i in intervals
      ensures i in IntervalSteps(aggs, intervals, m1)
      ensures var s := IntervalSteps(aggs, intervals, m1)[i]; s[|s| - 1].close == m1.close
    {
      IntervalStepsLast(aggs, intervals, m1, i);
    }
    forall k | k !in intervals
      ensures k in IntervalSteps(aggs, intervals, m1) <==> k in aggs
      ensures k in aggs ==> IntervalSteps(aggs, intervals, m1)[k] == aggs[k]
    {
      IntervalStepsOther(aggs, intervals, m1, k);
    }
  }

  lemma IntervalStepCloses(prev: Option<seq<Candle>>, m1: Candle, interval: int)
    requires interval > 0
    requires prev.Some? ==> |prev.value| > 0
    ensures var r := IntervalStep(prev, m1, interval); |r| > 0 && r[|r| - 1].close == m1.close
  {
    IntervalStepShape(prev, m1, interval);
  }

  lemma {:induction false} IntervalStepsLast(aggs: map<int, seq<Candle>>, intervals: seq<int>, m1: Candle, i: int)
    requires SeriesNonEmpty(aggs)
    requires forall j :: 0 <= j < |intervals| ==> intervals[j] > 0
    requires i in intervals
    ensures i in IntervalSteps(aggs, intervals, m1)
    ensures var s := IntervalSteps(aggs, intervals, m1)[i]; s[|s| - 1].close == m1.close
  {
    var init := intervals[..|intervals| - 1];
    var interval := intervals[|intervals| - 1];
    var before := IntervalSteps(aggs, init, m1);
    if i == interval {
      IntervalStepCloses(Series(before, interval), m1, interval);
    } else {
      assert intervals == init + [interval];
      IntervalStepsLast(aggs, init, m1, i);
    }
  }

  lemma {:induction false} IntervalStepsOther(aggs: map<int, seq<Candle>>, intervals: seq<int>, m1: Candle, k: int)
    requires SeriesNonEmpty(aggs)
    requires forall j :: 0 <= j < |intervals| ==> intervals[j] > 0
    requires k !in intervals
    ensures k in IntervalSteps(aggs, intervals, m1) <==> k in aggs
    ensures k in aggs ==> IntervalSteps(aggs, intervals, m1)[k] == aggs[k]
  {
    if intervals != [] {
      var init := intervals[..|intervals| - 1];
      assert intervals == init + [intervals[|intervals| - 1]];
      IntervalStepsOther(aggs, init, m1, k);
    }
  }

  /** After a trade every bucket has a series whose last candle closes at
      the trade's price, other series are untouched, and well-formed
      candles stay well formed. */
  lemma AggregateKeeps(aggs: map<int, seq<Candle>>, buckets: seq<int>, ts: int, price: real)
    requires SeriesNonEmpty(aggs) && AllSeriesWellFormed(aggs)
    requires |buckets| > 0 && buckets[0] == 1 && forall i :: 0 <= i < |buckets| ==> buckets[i] > 0
    ensures AllSeriesWellFormed(Aggregate(aggs, buckets, ts, price))
    ensures forall b :: b in buckets ==> b in Aggregate(aggs, buckets, ts, price)
    ensures forall b :: b in buckets ==>
              var s := Aggregate(aggs, buckets, ts, price)[b];
              s[|s| - 1].close == price
    ensures forall k :: k !in buckets ==>
              (k in Aggregate(aggs, buckets, ts, price) <==> k in aggs) &&
              (k in aggs ==> Aggregate(aggs, buckets, ts, price)[k] == aggs[k])
  {
    var m1s := MinuteStep(Series(aggs, 1), ts, price);
    MinuteStepShape(Series(aggs, 1), ts, price);
    var start := aggs[1 := m1s];
    assert AllSeriesWellFormed(start);
    var rest := buckets[1..];
    IntervalStepsWellFormed(start, rest, m1s[|m1s| - 1]);
    IntervalStepsClose(start, rest, m1s[|m1s| - 1]);
    assert forall b :: b in buckets <==> b == 1 || b in rest by {
      assert buckets == [1] + rest;
    }
  }

  // The gap filling the loops were evidently meant to do.

  ghost predicate Contiguous(s: seq<Candle>, step: int) {
    forall i :: 1 <= i < |s| ==> s[i].time == s[i - 1].time + step
  }

  /** Flat candles at the previous close for the empty periods from `start`
      up to, not including, `stop`. */
  function Fillers(start: int, stop: int, close: real, step: int): seq<Candle>
    requires step > 0
    decreases stop - start
  {
    if start >= stop then [] else [Candle(start, close, close, close, close)] + Fillers(start + step, stop, close, step)
  }

  /** Minute fillers between two aligned minutes run from the first
      missing minute to the one before `stop`, a minute apart. */
  lemma {:induction false} FillersShape(start: int, stop: int, close: real)
    requires start <= stop && (stop - start) % MinuteMs == 0
    ensures var f := Fillers(start, stop, close, MinuteMs);
            |f| > 0 ==> f[0].time == start && f[|f| - 1].time == stop - MinuteMs
    ensures Contiguous(Fillers(start, stop, close, MinuteMs), MinuteMs)
    decreases stop - start
  {
    if start < stop {
      assert stop - start >= MinuteMs;
      FillersShape(start + MinuteMs, stop, close);
    }
  }


  /** The 1-minute step with every missing minute filled in. */
  function MinuteStepFilled(prev: Option<seq<Candle>>, ts: int, price: real): seq<Candle>
    requires prev.Some? ==> |prev.value| > 0
  {
    var openTime := Truncate(ts, MinuteMs);
    match prev
    case None => [Candle(openTime, price, price, price, price)]
    case Some(aggs) =>
      var last := aggs[|aggs| - 1];
      if last.time == openTime then MinuteStep(prev, ts, price)
      else aggs + Fillers(last.time + MinuteMs, openTime, last.close, MinuteMs) + [Candle(openTime, last.close, price, price, price)]
  }

  /** An aligned time at or before `t` is at or before `t`'s minute, a
      whole number of minutes before it. */
  lemma TruncateAligned(start: int, t: int)
    requires start % MinuteMs == 0 && start <= t
    ensures start <= Truncate(t, MinuteMs) && (Truncate(t, MinuteMs) - start) % MinuteMs == 0
  {
    var q := t / MinuteMs;
    assert Truncate(t, MinuteMs) == q * MinuteMs;
    var p := start / MinuteMs;
    assert start == p * MinuteMs;
    assert p <= q;
    assert Truncate(t, MinuteMs) - start == (q - p) * MinuteMs;
  }

  /** Two consecutive series, the second starting one step after the
      first ends, join into one. */
  lemma JoinContiguous(a: seq<Candle>, b: seq<Candle>, step: int)
    requires Contiguous(a, step) && Contiguous(b, step)
    requires |a| > 0 && |b| > 0 && b[0].time == a[|a| - 1].time + step
    ensures Contiguous(a + b, step)
  {
    var r := a + b;
    forall i | 1 <= i < |r| ensures r[i].time == r[i - 1].time + step {
      if i > |a| {
        assert r[i] == b[i - |a|] && r[i - 1] == b[i - 1 - |a|];
      }
    }
  }

  /** With gap filling, a series of consecutive minutes stays consecutive
      for any trade at or after its last minute. */
  lemma MinuteStepFilledContiguous(prev: Option<seq<Candle>>, ts: int, price: real)
    requires prev.Some? ==> |prev.value| > 0
    requires prev.Some? ==>
               var a := prev.value;
               Contiguous(a, MinuteMs) && a[|a| - 1].time % MinuteMs == 0 && a[|a| - 1].time <= ts
    ensures Contiguous(MinuteStepFilled(prev, ts, price), MinuteMs)
  {
    if prev.Some? {
      var a := prev.value;
      var last := a[|a| - 1];
      var openTime := Truncate(ts, MinuteMs);
      TruncateAligned(last.time, ts);
      if last.time != openTime {
        var f := Fillers(last.time + MinuteMs, openTime, last.close, MinuteMs);
        FillersShape(last.time + MinuteMs, openTime, last.close);
        var c := [Candle(openTime, last.close, price, price, price)];
        if f == [] {
          JoinContiguous(a, c, MinuteMs);
          assert MinuteStepFilled(prev, ts, price) == a + c;
        } else {
          JoinContiguous(f, c, MinuteMs);
          JoinContiguous(a, f + c, MinuteMs);
          assert MinuteStepFilled(prev, ts, price) == a + (f + c);
        }
      }
    }
  }

  /** A trade three minutes after the only candle: as written the series
      jumps from minute 0 to minute 3; filled, it has all four minutes. */
  lemma MinuteStepLosesGapCandles()
    ensures MinuteStep(Some([Candle(0, 1.0, 1.0, 1.0, 1.0)]), 180000, 2.0) ==
            [Candle(0, 1.0, 1.0, 1.0, 1.0), Candle(180000, 1.0, 2.0, 2.0, 2.0)]
    ensures !Contiguous(MinuteStep(Some([Candle(0, 1.0, 1.0, 1.0, 1.0)]), 180000, 2.0), MinuteMs)
    ensures |MinuteStepFilled(Some([Candle(0, 1.0, 1.0, 1.0, 1.0)]), 180000, 2.0)| == 4
    ensures Contiguous(MinuteStepFilled(Some([Candle(0, 1.0, 1.0, 1.0, 1.0)]), 180000, 2.0), MinuteMs)
  {
    var r := MinuteStep(Some([Candle(0, 1.0, 1.0, 1.0, 1.0)]), 180000, 2.0);
    assert r[1].time != r[0].time + MinuteMs;
    var c := Candle(60000, 1.0, 1.0, 1.0, 1.0);
    assert Fillers(180000, 180000, 1.0, MinuteMs) == [];
    assert Fillers(120000, 180000, 1.0, MinuteMs) == [c.(time := 120000)];
    assert Fillers(60000, 180000, 1.0, MinuteMs) == [c, c.(time := 120000)];
    MinuteStepFilledContiguous(Some([Candle(0, 1.0, 1.0, 1.0, 1.0)]), 180000, 2.0);
  }
}
