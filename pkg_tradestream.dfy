/** The trade stream of the exchange-neutral package: trades restored from
    the cache are published before live trades, which wait in a queue until
    the cache has been replayed; every subscriber gets every published
    trade. */
module PkgTradeStream {
  import opened Wrappers
  import opened Streams

  /** What the select loop of `Run` receives next: a value on the cache
      channel, where none is the end-of-cache sentinel, or a live trade. */
  datatype Arrival = FromCache(cached: Option<AggTrade>) | FromStream(live: AggTrade)

  /** The loop's `cacheDone` flag and `tradeQueue`, and every trade handed
      to `Publish` so far, in order. */
  datatype RunState = RunState(cacheDone: bool, tradeQueue: seq<AggTrade>, published: seq<AggTrade>)

  /** One turn of the select loop. */
  function Step(s: RunState, a: Arrival): RunState {
    match a
    case FromCache(None) => s.(cacheDone := true)
    case FromCache(Some(t)) => s.(published := s.published + [t])
    case FromStream(t) =>
      if !s.cacheDone then s.(tradeQueue := s.tradeQueue + [t])
      else s.(tradeQueue := [], published := s.published + s.tradeQueue + [t])
  }

  /** The loop's state after the given arrivals, from a fresh start. */
  function Steps(arrivals: seq<Arrival>): RunState {
    if arrivals == [] then RunState(false, [], [])
    else Step(Steps(arrivals[..|arrivals| - 1]), arrivals[|arrivals| - 1])
  }

  /** The values received on the cache channel, in order. */
  function CacheSide(arrivals: seq<Arrival>): seq<Option<AggTrade>> {
    if arrivals == [] then []
    else
      var a := arrivals[|arrivals| - 1];
      CacheSide(arrivals[..|arrivals| - 1]) + (if a.FromCache? then [a.cached] else [])
  }

  /** The trades received on the cache channel, in order. */
  function CacheTrades(arrivals: seq<Arrival>): seq<AggTrade> {
    if arrivals == [] then []
    else
      var a := arrivals[|arrivals| - 1];
      CacheTrades(arrivals[..|arrivals| - 1]) + (if a.FromCache? && a.cached.Some? then [a.cached.value] else [])
  }

  /** The live trades, in order. */
  function LiveTrades(arrivals: seq<Arrival>): seq<AggTrade> {
    if arrivals == [] then []
    else
      var a := arrivals[|arrivals| - 1];
      LiveTrades(arrivals[..|arrivals| - 1]) + (if a.FromStream? then [a.live] else [])
  }

  /** No trade follows a sentinel. */
  predicate SentinelLast(cache: seq<Option<AggTrade>>) {
    forall i, j :: 0 <= i < j < |cache| && cache[i].None? ==> cache[j].None?
  }

  /** What `RunOrder` states about the loop after the given arrivals. */
  predicate InOrder(arrivals: seq<Arrival>) {
    var s := Steps(arrivals);
    (s.cacheDone <==> None in CacheSide(arrivals)) &&
    s.published + s.tradeQueue == CacheTrades(arrivals) + LiveTrades(arrivals) &&
    (!s.cacheDone ==> s.published == CacheTrades(arrivals) && s.tradeQueue == LiveTrades(arrivals))
  }

  /** The sentinel rule holds for every prefix of the arrivals, and a cached
      trade arrives only before any sentinel. */
  lemma SentinelBefore(arrivals: seq<Arrival>)
    requires arrivals != [] && SentinelLast(CacheSide(arrivals))
    ensures SentinelLast(CacheSide(arrivals[..|arrivals| - 1]))
    ensures var a := arrivals[|arrivals| - 1];
            a.FromCache? && a.cached.Some? ==> None !in CacheSide(arrivals[..|arrivals| - 1])
  {
    var init := arrivals[..|arrivals| - 1];
    var cache := CacheSide(arrivals);
    assert CacheSide(init) == cache[..|CacheSide(init)|];
    var a := arrivals[|arrivals| - 1];
    if a.FromCache? && a.cached.Some? {
      assert cache[|cache| - 1] == a.cached;
    }
  }

  /** One more arrival keeps the order. */
  lemma RunStep(arrivals: seq<Arrival>)
    requires arrivals != [] && InOrder(arrivals[..|arrivals| - 1])
    requires var a := arrivals[|arrivals| - 1];
             a.FromCache? && a.cached.Some? ==> None !in CacheSide(arrivals[..|arrivals| - 1])
    ensures InOrder(arrivals)
  {
    var init := arrivals[..|arrivals| - 1];
    var a := arrivals[|arrivals| - 1];
    var s := Steps(init);
    if a.FromStream? && s.cacheDone {
      assert (s.published + s.tradeQueue) + [a.live] == s.published + s.tradeQueue + [a.live];
    }
  }

  /** Cache replay comes first and live trades keep their order: while the
      cache is being replayed only cached trades are published and every
      live trade waits in the queue; at any moment the published trades
      followed by the queue are the cached trades followed by the live
      trades. The flag is set exactly once a sentinel has arrived. */
  lemma {:induction false} RunOrder(arrivals: seq<Arrival>)
    requires SentinelLast(CacheSide(arrivals))
    ensures Steps(arrivals).cacheDone <==> None in CacheSide(arrivals)
    ensures var s := Steps(arrivals);
            s.published + s.tradeQueue == CacheTrades(arrivals) + LiveTrades(arrivals)
    ensures var s := Steps(arrivals);
            !s.cacheDone ==> s.published == CacheTrades(arrivals) && s.tradeQueue == LiveTrades(arrivals)
  {
    if arrivals != [] {
      SentinelBefore(arrivals);
      RunOrder(arrivals[..|arrivals| - 1]);
      RunStep(arrivals);
    }
    assert InOrder(arrivals);
  }

  /** The trades of the cache rows that could be scanned and decoded, in
      query order. */
  function Restored(rows: seq<Option<AggTrade>>): seq<AggTrade> {
    if rows == [] then []
    else
      Restored(rows[..|rows| - 1]) + (if rows[|rows| - 1].Some? then [rows[|rows| - 1].value] else [])
  }

  class TradeStream {
    var subscribers: set<Channel>

    /** `NewTradeStream`, without the trade cache. */
    constructor()
      ensures subscribers == {}
    {
      subscribers := {};
    }

    /** `Subscribe`: a new unbuffered channel. */
    method Subscribe() returns (channel: Channel)
      modifies this
      ensures fresh(channel) && channel.capacity == 0
      ensures subscribers == old(subscribers) + {channel}
    {
      channel := new Channel(0);
      subscribers := subscribers + {channel};
    }

    method Unsubscribe(channel: Channel)
      modifies this
      ensures subscribers == old(subscribers) - {channel}
    {
      subscribers := subscribers - {channel};
    }

    /** `Publish`: a blocking send to every subscriber in turn, so every
        registered channel receives the trade, and nothing else is sent. */
    method Publish(trade: AggTrade) returns (received: map<Channel, AggTrade>)
      ensures received.Keys == subscribers
      ensures forall c :: c in received ==> received[c] == trade
    {
      received := map[];
      var todo := subscribers;
      while todo != {}
        invariant todo <= subscribers
        invariant received.Keys == subscribers - todo
        invariant forall c :: c in received ==> received[c] == trade
        decreases |todo|
      {
        NonEmptyHasChannel(todo);
        var subscriber :| subscriber in todo;
        received := received[subscriber := trade];
        todo := todo - {subscriber};
      }
    }

    /** `RestoreFromCache` given the outcome of the cache query (none when
        it fails): the restored trades in query order, then the sentinel,
        which is sent also when the query fails. */
    method RestoreFromCache(query: Option<seq<Option<AggTrade>>>) returns (sent: seq<Option<AggTrade>>)
      ensures |sent| >= 1 && sent[|sent| - 1] == None
      ensures SentinelLast(sent)
      ensures query.None? ==> sent == [None]
      ensures query.Some? ==> |sent| == |Restored(query.value)| + 1
      ensures query.Some? ==> forall i :: 0 <= i < |sent| - 1 ==> sent[i] == Some(Restored(query.value)[i])
    {
      sent := [];
      if query.Some? {
        var rows := query.value;
        for i := 0 to |rows|
          invariant |sent| == |Restored(rows[..i])|
          invariant forall k :: 0 <= k < |sent| ==> sent[k] == Some(Restored(rows[..i])[k])
        {
          assert rows[..i + 1][..i] == rows[..i];
          if rows[i].None? {
            continue;
          }
          sent := sent + [Some(rows[i].value)];
        }
        assert rows[..|rows|] == rows;
      }
      sent := sent + [None];
    }

    /** The select loop of `Run` over the arrivals in the order it receives
        them; `published` lists the trades handed to `Publish`, in order. */
    method Run(arrivals: seq<Arrival>) returns (published: seq<AggTrade>, cacheDone: bool, tradeQueue: seq<AggTrade>)
      ensures RunState(cacheDone, tradeQueue, published) == Steps(arrivals)
    {
      cacheDone := false;
      tradeQueue := [];
      published := [];
      for i := 0 to |arrivals|
        invariant RunState(cacheDone, tradeQueue, published) == Steps(arrivals[..i])
      {
        assert arrivals[..i + 1][..i] == arrivals[..i];
        match arrivals[i]
        case FromCache(trade) =>
          if trade.None? {
            cacheDone := true;
          } else {
            published := published + [trade.value];
          }
        case FromStream(trade) =>
          if !cacheDone {
            tradeQueue := tradeQueue + [trade];
          } else {
            var before := published;
            for k := 0 to |tradeQueue|
              invariant published == before + tradeQueue[..k]
            {
              assert tradeQueue[..k + 1] == tradeQueue[..k] + [tradeQueue[k]];
              published := published + [tradeQueue[k]];
            }
            assert tradeQueue[..|tradeQueue|] == tradeQueue;
            tradeQueue := [];
            published := published + [trade];
          }
      }
      assert arrivals[..|arrivals|] == arrivals;
    }
  }
}
