/** The per-symbol subscriber registry of the original server's Binance
    runner, and the rules of one ticker round: which trackers go into the
    broadcast and which subscribers receive their update. */
module BinanceRunner {
  import opened Wrappers
  import opened Streams

  /** The channels registered under a symbol; a symbol without an inner
      map has none. */
  function Inner(subscribers: map<string, set<Channel>>, symbol: string): set<Channel> {
    if symbol in subscribers then subscribers[symbol] else {}
  }

  /** The registry after `Subscribe(symbol)` registered channel `c`. */
  function Subscribed(subscribers: map<string, set<Channel>>, symbol: string, c: Channel): map<string, set<Channel>> {
    subscribers[symbol := Inner(subscribers, symbol) + {c}]
  }

  /** The registry after `Unsubscribe(symbol, c)`. */
  function Unsubscribed(subscribers: map<string, set<Channel>>, symbol: string, c: Channel): map<string, set<Channel>> {
    if symbol in subscribers && c in subscribers[symbol] then subscribers[symbol := subscribers[symbol] - {c}]
    else subscribers
  }

  /** Unsubscribing an unknown symbol or channel changes nothing; otherwise
      only that channel leaves, and its symbol keeps its (possibly empty)
      entry. */
  lemma UnsubscribeEffect(subscribers: map<string, set<Channel>>, symbol: string, c: Channel)
    ensures symbol !in subscribers || c !in subscribers[symbol] ==> Unsubscribed(subscribers, symbol, c) == subscribers
    ensures Unsubscribed(subscribers, symbol, c).Keys == subscribers.Keys
    ensures forall s :: s in subscribers ==>
              Unsubscribed(subscribers, symbol, c)[s] == if s == symbol then subscribers[s] - {c} else subscribers[s]
  {
  }

  /** Subscribing a fresh channel and unsubscribing it again leaves the
      registry as before, except that the symbol now has an entry. */
  lemma SubscribeUnsubscribe(subscribers: map<string, set<Channel>>, symbol: string, c: Channel)
    requires c !in Inner(subscribers, symbol)
    ensures Unsubscribed(Subscribed(subscribers, symbol, c), symbol, c) == subscribers[symbol := Inner(subscribers, symbol)]
    ensures symbol in Unsubscribed(Subscribed(subscribers, symbol, c), symbol, c)
  {
    assert (Inner(subscribers, symbol) + {c}) - {c} == Inner(subscribers, symbol);
  }

  /** The trackers included in a round, in the order the tracker map is
      ranged over: those whose last update is not before the previous
      round. */
  function Included(order: seq<string>, lastUpdates: map<string, int>, since: int): seq<string>
    requires forall k :: k in order ==> k in lastUpdates
  {
    if order == [] then []
    else
      var k := order[|order| - 1];
      Included(order[..|order| - 1], lastUpdates, since) + (if lastUpdates[k] < since then [] else [k])
  }

  /** A tracker is included exactly when it was updated at or after the
      previous round. */
  lemma {:induction false} IncludedExactly(order: seq<string>, lastUpdates: map<string, int>, since: int)
    requires forall k :: k in order ==> k in lastUpdates
    ensures forall k :: k in Included(order, lastUpdates, since) <==> k in order && lastUpdates[k] >= since
  {
    if order != [] {
      var init := order[..|order| - 1];
      IncludedExactly(init, lastUpdates, since);
      assert order == init + [order[|order| - 1]];
    }
  }

  class BinanceRunner {
    /** Per symbol, the channels subscribed to its updates. The nil outer
        map of a new runner reads like an empty one. */
    var subscribers: map<string, set<Channel>>
    /** When the previous round was broadcast. */
    var lastUpdate: int

    /** `NewBinanceRunner`, whose round clock starts at `now`. */
    constructor(now: int)
      ensures subscribers == map[] && lastUpdate == now
    {
      subscribers := map[];
      lastUpdate := now;
    }

    /** `Subscribe(symbol)`: a fresh unbuffered channel under the symbol,
        whose entry is created when missing. */
    method Subscribe(symbol: string) returns (channel: Channel)
      modifies this
      ensures fresh(channel) && channel.capacity == 0
      ensures subscribers == Subscribed(old(subscribers), symbol, channel)
      ensures lastUpdate == old(lastUpdate)
    {
      channel := new Channel(0);
      if symbol !in subscribers {
        subscribers := subscribers[symbol := {}];
      }
      subscribers := subscribers[symbol := subscribers[symbol] + {channel}];
    }

    method Unsubscribe(symbol: string, channel: Channel)
      modifies this
      ensures subscribers == Unsubscribed(old(subscribers), symbol, channel)
      ensures lastUpdate == old(lastUpdate)
    {
      if symbol in subscribers {
        if channel in subscribers[symbol] {
          subscribers := subscribers[symbol := subscribers[symbol] - {channel}];
        }
      }
    }

    /** The ticker branch of the `Run` loop for a batch of `batchSize`
        tickers at time `now`, once the trackers are updated: `order` is
        the order the tracker map is ranged over, `lastUpdates` each
        tracker's last update and `ready` the channels whose receiver is
        waiting. An empty batch is skipped altogether; otherwise the
        broadcast lists the included trackers, each of their subscribers
        that is ready receives the update, a blocked one misses it, and the
        round clock moves to `now`. */
    method TickerRound(batchSize: nat, order: seq<string>, lastUpdates: map<string, int>, ready: set<Channel>, now: int)
      returns (broadcast: Option<seq<string>>, delivered: set<(string, Channel)>)
      requires forall k :: k in order <==> k in lastUpdates
      modifies this
      ensures subscribers == old(subscribers)
      ensures batchSize == 0 ==> broadcast == None && delivered == {} && lastUpdate == old(lastUpdate)
      ensures batchSize > 0 ==> broadcast == Some(Included(order, lastUpdates, old(lastUpdate))) && lastUpdate == now
      ensures batchSize > 0 ==>
                delivered == set k, c | k in Included(order, lastUpdates, old(lastUpdate)) && k in subscribers &&
                                        c in subscribers[k] && c in ready :: (k, c)
    {
      broadcast := None;
      delivered := {};
      if batchSize == 0 {
        return;
      }
      var message: seq<string> := [];
      var subs := subscribers;
      var since := lastUpdate;
      for i := 0 to |order|
        invariant subscribers == subs && lastUpdate == since
        invariant message == Included(order[..i], lastUpdates, since)
        invariant delivered == set k, c | k in message && k in subs && c in subs[k] && c in ready :: (k, c)
      {
        assert order[..i + 1][..i] == order[..i];
        var key := order[i];
        if lastUpdates[key] < since {
          continue;
        }
        message := message + [key];
        if key in subs {
          var todo := subs[key];
          ghost var before := delivered;
          while todo != {}
            invariant subscribers == subs && lastUpdate == since
            invariant todo <= subs[key]
            invariant delivered == before + set c | c in subs[key] - todo && c in ready :: (key, c)
            decreases |todo|
          {
            NonEmptyHasChannel(todo);
            var subscriber :| subscriber in todo;
            if subscriber in ready {
              delivered := delivered + {(key, subscriber)};
            }
            todo := todo - {subscriber};
          }
        }
      }
      assert order[..|order|] == order;
      broadcast := Some(message);
      lastUpdate := now;
    }
  }
}
