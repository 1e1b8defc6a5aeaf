/** The 24-hour ticker stream of the exchange-neutral package: raw tickers
    are converted to common tickers and published in batches to
    subscribers with unbuffered channels and a backlog each. */
module PkgTickerStream {
  import opened Streams

  /** The exchange-neutral ticker. */
  datatype CommonTicker = CommonTicker(symbol: string, close: real, bid: real, ask: real, high: real, low: real, quoteVolume: real, timestamp: int)

  /** `TransformTickers`, with the library conversion as a parameter: one
      converted ticker per input ticker, in input order. */
  method TransformTickers(inTickers: seq<StreamTicker24>, convert: StreamTicker24 -> CommonTicker)
    returns (tickers: seq<CommonTicker>)
    ensures |tickers| == |inTickers|
    ensures forall i :: 0 <= i < |tickers| ==> tickers[i] == convert(inTickers[i])
  {
    tickers := [];
    for i := 0 to |inTickers|
      invariant |tickers| == i
      invariant forall k :: 0 <= k < i ==> tickers[k] == convert(inTickers[k])
    {
      tickers := tickers + [convert(inTickers[i])];
    }
  }

  class TickerStream {
    /** Each subscriber's channel and the batches still waiting for it. */
    var subscribers: map<Channel, seq<seq<CommonTicker>>>

    /** `NewTickerStream`, without the ticker cache. */
    constructor()
      ensures subscribers == map[]
    {
      subscribers := map[];
    }

    /** `Subscribe`: a new unbuffered channel with an empty backlog. */
    method Subscribe() returns (channel: Channel)
      modifies this
      ensures fresh(channel) && channel.capacity == 0
      ensures channel !in old(subscribers)
      ensures subscribers == old(subscribers)[channel := []]
    {
      channel := new Channel(0);
      subscribers := subscribers[channel := []];
    }

    /** `Unsubscribe`: the channel and its backlog are forgotten. */
    method Unsubscribe(channel: Channel)
      modifies this
      ensures subscribers == old(subscribers) - {channel}
    {
      subscribers := subscribers - {channel};
    }

    /** `Publish` of one batch, where `rooms` says how many sends each
        channel accepts before the first refusal; `sent` is what each
        channel received. */
    method Publish(tickers: seq<CommonTicker>, rooms: map<Channel, nat>)
      returns (sent: map<Channel, seq<seq<CommonTicker>>>)
      modifies this
      ensures subscribers.Keys == old(subscribers).Keys && sent.Keys == old(subscribers).Keys
      ensures forall c :: c in old(subscribers) ==>
                Delivery(sent[c], subscribers[c]) == Deliver(old(subscribers)[c], tickers, RoomOf(rooms, c))
    {
      subscribers, sent := PublishAll(subscribers, tickers, rooms);
    }
  }
}
