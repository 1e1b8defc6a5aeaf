/** The trade stream of the original server: subscribers with buffered
    channels and a backlog each, fed by `Publish`. */
module GoTradeStream {
  import opened Streams

  class TradeStream {
    /** Each subscriber's channel and the trades still waiting for it. */
    var subscribers: map<Channel, seq<AggTrade>>

    /** `NewTradeStream`, without the trade cache. */
    constructor()
      ensures subscribers == map[]
    {
      subscribers := map[];
    }

    /** `Subscribe`: a new channel of capacity 1024 with an empty backlog. */
    method Subscribe() returns (channel: Channel)
      modifies this
      ensures fresh(channel) && channel.capacity == TradeChannelCapacity
      ensures channel !in old(subscribers)
      ensures subscribers == old(subscribers)[channel := []]
    {
      channel := new Channel(TradeChannelCapacity);
      subscribers := subscribers[channel := []];
    }

    /** `Unsubscribe`: the channel and its backlog are forgotten. */
    method Unsubscribe(channel: Channel)
      modifies this
      ensures subscribers == old(subscribers) - {channel}
    {
      subscribers := subscribers - {channel};
    }

    /** `Publish`, where `rooms` says how many sends each channel accepts
        before the first refusal; `sent` is what each channel received. */
    method Publish(trade: AggTrade, rooms: map<Channel, nat>) returns (sent: map<Channel, seq<AggTrade>>)
      modifies this
      ensures subscribers.Keys == old(subscribers).Keys && sent.Keys == old(subscribers).Keys
      ensures forall c :: c in old(subscribers) ==>
                Delivery(sent[c], subscribers[c]) == Deliver(old(subscribers)[c], trade, RoomOf(rooms, c))
    {
      subscribers, sent := PublishAll(subscribers, trade, rooms);
    }
  }
}
