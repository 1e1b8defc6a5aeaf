/** The ticker tracker of the current server: per symbol, the last hour of
    ticker messages, the recent trades (appended only, no candles) and
    zeroed metrics for the buckets 1, 2, 3, 4, 5, 10, 15 and 60 minutes; and
    the map of trackers by symbol. */
module PkgTracker {
  import opened Wrappers
  import opened Tracking

  const Buckets: seq<int> := [1, 2, 3, 4, 5, 10, 15, 60]

  /** Trades at least one hour old are pruned. */
  const PruneAgeMs := 60 * MinuteMs

  class TickerTracker {
    var symbol: string
    var ticks: seq<Tick>
    var metrics: map<int, TickerMetrics>
    var lastUpdate: int
    var trades: seq<Trade>

    /** `NewTickerTracker`. */
    constructor(symbol: string)
      ensures this.symbol == symbol && ticks == [] && trades == []
      ensures metrics == MetricsFor(Buckets)
    {
      this.symbol := symbol;
      ticks := [];
      trades := [];
      metrics := MetricsFor(Buckets);
      lastUpdate := 0;
    }

    /** The latest tick, or none before the first. */
    function LastTick(): (r: Option<Tick>)
      reads this
      ensures r.None? <==> ticks == []
      ensures r.Some? ==> r.value == ticks[|ticks| - 1] && r.value in ticks
    {
      if |ticks| == 0 then None else Some(ticks[|ticks| - 1])
    }

    /** `Update` with the wall clock read at the call. */
    method Update(tick: Tick, clock: int)
      modifies this
      ensures ticks == TickWindow(old(ticks), tick) && lastUpdate == clock
      ensures symbol == old(symbol) && trades == old(trades) && metrics == old(metrics)
    {
      lastUpdate := clock;
      ticks := SlideWindow(ticks, tick);
    }

    /** `AddTrade`: a trade without a symbol is ignored; any other trade is
        appended, out of order or not. */
    method AddTrade(trade: Trade)
      modifies this
      ensures trade.symbol == "" ==> trades == old(trades)
      ensures trade.symbol != "" ==> trades == old(trades) + [trade]
      ensures symbol == old(symbol) && ticks == old(ticks) && metrics == old(metrics) && lastUpdate == old(lastUpdate)
    {
      if trade.symbol == "" {
        return;
      }
      trades := trades + [trade];
    }

    method PruneTrades(now: int)
      modifies this
      ensures trades == DropLeading(old(trades), AgedAtLeast(now, PruneAgeMs))
      ensures symbol == old(symbol) && ticks == old(ticks) && metrics == old(metrics) && lastUpdate == old(lastUpdate)
    {
      trades := PruneAged(trades, now, PruneAgeMs);
    }
  }

  class TickerTrackerMap {
    var trackers: map<string, TickerTracker>

    constructor()
      ensures trackers == map[]
    {
      trackers := map[];
    }

    /** `GetTracker`: none for the empty symbol, the stored tracker when
        there is one, otherwise a new tracker stored under the symbol. */
    method GetTracker(symbol: string) returns (t: TickerTracker?)
      modifies this
      ensures symbol == "" ==> t == null && trackers == old(trackers)
      ensures symbol != "" && symbol in old(trackers) ==> t == old(trackers)[symbol] && trackers == old(trackers)
      ensures symbol != "" && symbol !in old(trackers) ==>
                t != null && fresh(t) && trackers == old(trackers)[symbol := t] &&
                t.symbol == symbol && t.ticks == [] && t.trades == [] && t.metrics == MetricsFor(Buckets)
    {
      if symbol == "" {
        return null;
      }
      if symbol in trackers {
        return trackers[symbol];
      }
      t := new TickerTracker(symbol);
      trackers := trackers[symbol := t];
    }
  }
}
