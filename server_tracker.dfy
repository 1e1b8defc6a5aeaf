/** The ticker tracker of the original server: per symbol, the last hour of
    24-hour ticker messages, the recent trades, zeroed metrics for the
    buckets 1, 2, 3, 5, 10, 15 and 60 minutes, and candles for the same
    intervals; and the map of trackers by symbol. */
module ServerTracker {
  import opened Wrappers
  import opened Tracking

  /** The metric buckets in minutes; there is no 4-minute bucket. */
  const Buckets: seq<int> := [1, 2, 3, 5, 10, 15, 60]

  /** Trades at least 210 minutes old are pruned. */
  const PruneAgeMs := 210 * MinuteMs

  class TickerTracker {
    var symbol: string
    var ticks: seq<Tick>
    var metrics: map<int, TickerMetrics>
    var lastUpdate: int
    var trades: seq<Trade>
    var aggs: map<int, seq<Candle>>

    /** Every candle series is non-empty and every candle well formed. */
    ghost predicate Valid()
      reads this
    {
      SeriesNonEmpty(aggs) && AllSeriesWellFormed(aggs)
    }

    /** `NewTickerTracker`. */
    constructor(symbol: string)
      ensures this.symbol == symbol && ticks == [] && trades == [] && aggs == map[]
      ensures metrics == MetricsFor(Buckets)
      ensures Valid()
    {
      this.symbol := symbol;
      ticks := [];
      trades := [];
      aggs := map[];
      metrics := MetricsFor(Buckets);
      lastUpdate := 0;
    }

    /** The latest tick, or none before the first. */
    function LastTick(): (r: Option<Tick>)
      reads this
      ensures r.None? <==> ticks == []
      ensures r.Some? ==> r.value == ticks[|ticks| - 1] && r.value in ticks
    {
      if |ticks| == 0 then None else Some(ticks[|ticks| - 1])
    }

    /** `Update` with the wall clock read at the call. */
    method Update(tick: Tick, clock: int)
      modifies this
      ensures ticks == TickWindow(old(ticks), tick) && lastUpdate == clock
      ensures symbol == old(symbol) && trades == old(trades) && aggs == old(aggs) && metrics == old(metrics)
    {
      lastUpdate := clock;
      ticks := SlideWindow(ticks, tick);
    }

    /** `AddTrade`: a trade without a symbol is ignored; any other trade is
        appended, out of order or not, and aggregated into every bucket's
        candles. */
    method AddTrade(trade: Trade)
      modifies this
      requires Valid()
      ensures Valid()
      ensures trade.symbol == "" ==> trades == old(trades) && aggs == old(aggs)
      ensures trade.symbol != "" ==>
                trades == old(trades) + [trade] &&
                aggs == Aggregate(old(aggs), Buckets, trade.timestamp, trade.price)
      ensures symbol == old(symbol) && ticks == old(ticks) && metrics == old(metrics) && lastUpdate == old(lastUpdate)
    {
      if trade.symbol == "" {
        return;
      }
      trades := trades + [trade];
      AggregateKeeps(aggs, Buckets, trade.timestamp, trade.price);
      aggs := AggregateTrade(aggs, Buckets, trade.timestamp, trade.price);
    }

    method PruneTrades(now: int)
      modifies this
      ensures trades == DropLeading(old(trades), AgedAtLeast(now, PruneAgeMs))
      ensures symbol == old(symbol) && ticks == old(ticks) && aggs == old(aggs) && metrics == old(metrics)
      ensures lastUpdate == old(lastUpdate)
    {
      trades := PruneAged(trades, now, PruneAgeMs);
    }
  }

  /** A new tracker's metrics have exactly the seven buckets, all zero, and
      in particular none for 4 minutes. */
  lemma NewMetricsBuckets()
    ensures MetricsFor(Buckets).Keys == {1, 2, 3, 5, 10, 15, 60}
    ensures 4 !in MetricsFor(Buckets)
  {
    var m := MetricsFor(Buckets);
    forall b ensures b in m <==> b in {1, 2, 3, 5, 10, 15, 60} {
      assert b in Buckets <==> b == 1 || b == 2 || b == 3 || b == 5 || b == 10 || b == 15 || b == 60;
    }
  }

  /** After a trade every bucket's last candle closes at the trade's price,
      and candles of other keys are unchanged. */
  lemma AddTradeCandles(aggs: map<int, seq<Candle>>, trade: Trade)
    requires SeriesNonEmpty(aggs) && AllSeriesWellFormed(aggs)
    ensures forall b :: b in Buckets ==>
              b in Aggregate(aggs, Buckets, trade.timestamp, trade.price) &&
              var s := Aggregate(aggs, Buckets, trade.timestamp, trade.price)[b];
              s[|s| - 1].close == trade.price
  {
    AggregateKeeps(aggs, Buckets, trade.timestamp, trade.price);
  }

  class TickerTrackerMap {
    var trackers: map<string, TickerTracker>

    constructor()
      ensures trackers == map[]
    {
      trackers := map[];
    }

    /** `GetTracker`: none for the empty symbol, the stored tracker when
        there is one, otherwise a new tracker stored under the symbol. */
    method GetTracker(symbol: string) returns (t: TickerTracker?)
      modifies this
      ensures symbol == "" ==> t == null && trackers == old(trackers)
      ensures symbol != "" && symbol in old(trackers) ==> t == old(trackers)[symbol] && trackers == old(trackers)
      ensures symbol != "" && symbol !in old(trackers) ==>
                t != null && fresh(t) && trackers == old(trackers)[symbol := t] &&
                t.symbol == symbol && t.ticks == [] && t.trades == [] && t.aggs == map[] &&
                t.metrics == MetricsFor(Buckets)
    {
      if symbol == "" {
        return null;
      }
      if symbol in trackers {
        return trackers[symbol];
      }
      t := new TickerTracker(symbol);
      trackers := trackers[symbol := t];
    }
  }
}
