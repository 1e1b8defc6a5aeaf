/** The 24-hour ticker stream of the original server: subscribers with
    unbuffered channels and a backlog of ticker batches each. */
module GoTickerStream {
  import opened Wrappers
  import opened Streams

  class TickerStream {
    /** Each subscriber's channel and the batches still waiting for it. */
    var subscribers: map<Channel, seq<seq<StreamTicker24>>>

    /** `NewTickerStream`, without the ticker cache. */
    constructor()
      ensures subscribers == map[]
    {
      subscribers := map[];
    }

    /** `Subscribe`: a new unbuffered channel with an empty backlog. */
    method Subscribe() returns (channel: Channel)
      modifies this
      ensures fresh(channel) && channel.capacity == 0
      ensures channel !in old(subscribers)
      ensures subscribers == old(subscribers)[channel := []]
    {
      channel := new Channel(0);
      subscribers := subscribers[channel := []];
    }

    /** `Unsubscribe`: the channel and its backlog are forgotten. */
    method Unsubscribe(channel: Channel)
      modifies this
      ensures subscribers == old(subscribers) - {channel}
    {
      subscribers := subscribers - {channel};
    }

    /** `Publish` of one batch, where `rooms` says how many sends each
        channel accepts before the first refusal (a waiting receiver takes
        one); `sent` is what each channel received. */
    method Publish(tickers: seq<StreamTicker24>, rooms: map<Channel, nat>)
      returns (sent: map<Channel, seq<seq<StreamTicker24>>>)
      modifies this
      ensures subscribers.Keys == old(subscribers).Keys && sent.Keys == old(subscribers).Keys
      ensures forall c :: c in old(subscribers) ==>
                Delivery(sent[c], subscribers[c]) == Deliver(old(subscribers)[c], tickers, RoomOf(rooms, c))
    {
      subscribers, sent := PublishAll(subscribers, tickers, rooms);
    }
  }
}
