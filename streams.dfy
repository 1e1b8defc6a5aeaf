/** What the Binance trade and ticker streams share: channels as objects,
    the per-subscriber backlog rule of `Publish`, the names of the trade
    streams subscribed to, and the filter that reloads cached ticker
    batches. */
module Streams {
  import opened Wrappers
  import opened Text

  /** A Go channel, identified by the object itself; capacity 0 is an
      unbuffered channel. Whether a send succeeds at a given moment depends
      on the receiver and is supplied by the caller of `Publish`. */
  class Channel {
    const capacity: nat

    constructor(capacity: nat)
      ensures this.capacity == capacity
    {
      this.capacity := capacity;
    }
  }

  /** `make(chan binance.StreamAggTrade, 1024)`. */
  const TradeChannelCapacity: nat := 1024

  /** An aggregated trade as decoded from the exchange's stream. */
  datatype AggTrade = AggTrade(symbol: string, price: real, quantity: real, timestamp: int, buyerMaker: bool)

  /** A 24-hour ticker as decoded from the exchange's stream. */
  datatype StreamTicker24 = StreamTicker24(
    symbol: string, close: real, bid: real, ask: real, high: real, low: real,
    quoteVolume: real, priceChangePercent: real, timestamp: int)

  /** What one subscriber gets from one `Publish`: the items sent on its
      channel, in the order sent, and the backlog kept for the next call. */
  datatype Delivery<T> = Delivery(sent: seq<T>, backlog: seq<T>)

  /** The publishing rule for one subscriber whose channel takes `room`
      sends before it first refuses one: the backlog drains from the front;
      when all of it went out the new item is sent if there is room left and
      queued otherwise; when some of it is still waiting the new item is
      dropped. */
  function Deliver<T>(backlog: seq<T>, item: T, room: nat): Delivery<T> {
    if room < |backlog| then Delivery(backlog[..room], backlog[room..])
    else if room == |backlog| then Delivery(backlog, [item])
    else Delivery(backlog + [item], [])
  }

  /** Nothing is reordered: what is sent followed by what stays queued is
      the old backlog followed by the new item, or, when the backlog could
      not drain, the old backlog alone; the items sent are a prefix of it. */
  lemma DeliverKeepsOrder<T>(backlog: seq<T>, item: T, room: nat)
    ensures var d := Deliver(backlog, item, room);
            d.sent + d.backlog == if room < |backlog| then backlog else backlog + [item]
    ensures var d := Deliver(backlog, item, room);
            |d.sent| == if room <= |backlog| then room else |backlog| + 1
  {
    if room < |backlog| {
      assert backlog[..room] + backlog[room..] == backlog;
    }
  }

  /** The per-subscriber body of `Publish`: the drain loop that leaves for
      the next subscriber at the first refused send. */
  method DeliverOne<T(==)>(backlog: seq<T>, item: T, room: nat) returns (sent: seq<T>, queue: seq<T>)
    ensures Delivery(sent, queue) == Deliver(backlog, item, room)
  {
    sent := [];
    queue := backlog;
    var left := room;
    while |queue| > 0
      invariant |sent| + left == room
      invariant |sent| <= |backlog|
      invariant sent == backlog[..|sent|] && queue == backlog[|sent|..]
      decreases |queue|
    {
      if left == 0 {
        return;
      }
      sent := sent + [queue[0]];
      queue := queue[1..];
      left := left - 1;
    }
    assert sent == backlog;
    if left > 0 {
      sent := sent + [item];
    } else {
      queue := queue + [item];
    }
  }

  /** The room of a subscriber's channel; a channel the caller says
      nothing about refuses at once. */
  function RoomOf(rooms: map<Channel, nat>, c: Channel): nat {
    if c in rooms then rooms[c] else 0
  }

  lemma NonEmptyHasChannel(s: set<Channel>)
    requires s != {}
    ensures exists c :: c in s
  {
    assert (forall c :: c !in s) ==> s == {};
  }

  /** `Publish` over all subscribers, in whatever order the map is ranged
      over: every subscriber gets exactly its own `Deliver`, whatever the
      order. */
  method PublishAll<T(==)>(subscribers: map<Channel, seq<T>>, item: T, rooms: map<Channel, nat>)
    returns (backlogs: map<Channel, seq<T>>, sent: map<Channel, seq<T>>)
    ensures backlogs.Keys == subscribers.Keys && sent.Keys == subscribers.Keys
    ensures forall c :: c in subscribers ==>
              Delivery(sent[c], backlogs[c]) == Deliver(subscribers[c], item, RoomOf(rooms, c))
  {
    backlogs := subscribers;
    sent := map[];
    var todo := subscribers.Keys;
    while todo != {}
      invariant todo <= subscribers.Keys
      invariant backlogs.Keys == subscribers.Keys
      invariant sent.Keys == subscribers.Keys - todo
      invariant forall c :: c in todo ==> backlogs[c] == subscribers[c]
      invariant forall c :: c in sent ==>
                  Delivery(sent[c], backlogs[c]) == Deliver(subscribers[c], item, RoomOf(rooms, c))
      decreases |todo|
    {
      NonEmptyHasChannel(todo);
      var c :| c in todo;
      var s, q := DeliverOne(backlogs[c], item, RoomOf(rooms, c));
      backlogs := backlogs[c := q];
      sent := sent[c := s];
      todo := todo - {c};
    }
  }

  /** One subscriber over a run of `Publish` calls, the i-th with item
      `items[i]` and room `rooms[i]`: everything sent, and the backlog left. */
  function Replay<T>(backlog: seq<T>, items: seq<T>, rooms: seq<nat>): Delivery<T>
    requires |rooms| == |items|
    decreases |items|
  {
    if items == [] then Delivery([], backlog)
    else
      var d := Deliver(backlog, items[0], rooms[0]);
      var r := Replay(d.backlog, items[1..], rooms[1..]);
      Delivery(d.sent + r.sent, r.backlog)
  }

  /** For each call of the run, whether its item was kept: the backlog at
      that call could fully drain. */
  function Kept<T>(backlog: seq<T>, items: seq<T>, rooms: seq<nat>): (r: seq<bool>)
    requires |rooms| == |items|
    ensures |r| == |items|
    decreases |items|
  {
    if items == [] then []
    else [rooms[0] >= |backlog|] + Kept(Deliver(backlog, items[0], rooms[0]).backlog, items[1..], rooms[1..])
  }

  /** The items whose flag is set, in their order. */
  function Pick<T>(items: seq<T>, keep: seq<bool>): seq<T>
    requires |keep| == |items|
  {
    if items == [] then [] else (if keep[0] then [items[0]] else []) + Pick(items[1..], keep[1..])
  }

  /** Per subscriber, items reach the channel in publish order: over any
      run, what was sent followed by what is still queued is the starting
      backlog followed by the kept items in the order they were published;
      a dropped item is never sent later. */
  lemma {:induction false} ReplayInOrder<T>(backlog: seq<T>, items: seq<T>, rooms: seq<nat>)
    requires |rooms| == |items|
    ensures var r := Replay(backlog, items, rooms);
            r.sent + r.backlog == backlog + Pick(items, Kept(backlog, items, rooms))
    decreases |items|
  {
    if items != [] {
      var d := Deliver(backlog, items[0], rooms[0]);
      DeliverKeepsOrder(backlog, items[0], rooms[0]);
      ReplayInOrder(d.backlog, items[1..], rooms[1..]);
      var r := Replay(d.backlog, items[1..], rooms[1..]);
      var k := Kept(backlog, items, rooms);
      var head: seq<T> := if rooms[0] >= |backlog| then [items[0]] else [];
      var tail := Pick(items[1..], k[1..]);
      assert k[1..] == Kept(d.backlog, items[1..], rooms[1..]);
      assert Pick(items, k) == head + tail;
      assert d.sent + d.backlog == backlog + head;
      Regroup(d.sent, r.sent, r.backlog, d.backlog, backlog, head, tail);
    }
  }

  /** Regrouping a concatenation. */
  lemma Regroup<T>(a: seq<T>, b: seq<T>, c: seq<T>, q: seq<T>, p: seq<T>, h: seq<T>, t: seq<T>)
    requires b + c == q + t && a + q == p + h
    ensures (a + b) + c == p + (h + t)
  {
    calc {
      (a + b) + c;
      a + (b + c);
      a + (q + t);
      (a + q) + t;
      (p + h) + t;
    }
  }

  /** A subscriber that starts with no backlog and whose channel accepts at
      least one send on every call receives every item, each at once. */
  lemma {:induction false} ReplayNoBacklog<T>(items: seq<T>, rooms: seq<nat>)
    requires |rooms| == |items|
    requires forall i :: 0 <= i < |rooms| ==> rooms[i] >= 1
    ensures Replay([], items, rooms) == Delivery(items, [])
    decreases |items|
  {
    if items != [] {
      var empty: seq<T> := [];
      assert Deliver(empty, items[0], rooms[0]) == Delivery([items[0]], empty) by {
        assert empty + [items[0]] == [items[0]];
      }
      assert forall i :: 0 <= i < |rooms[1..]| ==> rooms[1..][i] == rooms[i + 1];
      ReplayNoBacklog(items[1..], rooms[1..]);
      assert [items[0]] + items[1..] == items;
    }
  }

  /** A subscriber whose channel refuses every send while a backlog waits
      loses every later item: nothing new is queued or sent. */
  lemma {:induction false} ReplayBlocked<T>(backlog: seq<T>, items: seq<T>, rooms: seq<nat>)
    requires |rooms| == |items| && backlog != []
    requires forall i :: 0 <= i < |rooms| ==> rooms[i] == 0
    ensures Replay(backlog, items, rooms) == Delivery([], backlog)
    ensures forall i :: 0 <= i < |items| ==> !Kept(backlog, items, rooms)[i]
    decreases |items|
  {
    if items != [] {
      assert Deliver(backlog, items[0], 0) == Delivery([], backlog);
      ReplayBlocked(backlog, items[1..], rooms[1..]);
      var k := Kept(backlog, items, rooms);
      assert k[1..] == Kept(backlog, items[1..], rooms[1..]);
    }
  }

  /** The stream name subscribed to for a symbol. */
  function StreamName(symbol: string): string {
    Lower(symbol) + "@aggTrade"
  }

  /** A stream name ends in "@aggTrade" and starts with the lower-cased
      symbol, so two symbols share a stream exactly when they agree up to
      case. */
  lemma StreamNameShape(a: string, b: string)
    ensures EndsWith(StreamName(a), "@aggTrade") && StreamName(a)[..|a|] == Lower(a)
    ensures StreamName(a) == StreamName(b) <==> Lower(a) == Lower(b)
  {
    if StreamName(a) == StreamName(b) {
      assert |a| == |b|;
      assert Lower(a) == StreamName(a)[..|a|];
    }
  }

  /** `GetStreams` given the outcome of the symbol request: one stream per
      symbol in order; a failed request yields no streams and, as written,
      no error either. */
  method GetStreams(symbols: Option<seq<string>>) returns (streams: seq<string>, failed: bool)
    ensures !failed
    ensures symbols.None? ==> streams == []
    ensures symbols.Some? ==> |streams| == |symbols.value|
    ensures symbols.Some? ==> forall i :: 0 <= i < |streams| ==> streams[i] == StreamName(symbols.value[i])
  {
    failed := false;
    streams := [];
    if symbols.None? {
      return;
    }
    var names := symbols.value;
    for i := 0 to |names|
      invariant |streams| == i
      invariant forall k :: 0 <= k < i ==> streams[k] == StreamName(names[k])
    {
      streams := streams + [Lower(names[i]) + "@aggTrade"];
    }
  }

  /** The cache rows kept by `LoadCache`, in query order: a row that could
      not be scanned or decoded (none) or that decodes to no tickers is
      skipped. */
  function Loaded<T>(rows: seq<Option<seq<T>>>): seq<seq<T>> {
    if rows == [] then []
    else
      var last := rows[|rows| - 1];
      Loaded(rows[..|rows| - 1]) + (if last.Some? && last.value != [] then [last.value] else [])
  }

  /** Every reloaded batch is a non-empty decoded row, every non-empty
      decoded row is reloaded, and query order is kept: the rows of a
      concatenation load as the concatenation of their loads. */
  lemma {:induction false} LoadedRows<T>(rows: seq<Option<seq<T>>>)
    ensures forall b :: b in Loaded(rows) ==> b != []
    ensures forall b :: b in Loaded(rows) <==> b != [] && Some(b) in rows
  {
    if rows != [] {
      var init := rows[..|rows| - 1];
      LoadedRows(init);
      assert rows == init + [rows[|rows| - 1]];
      forall b ensures b in Loaded(rows) <==> b != [] && Some(b) in rows {
        assert Some(b) in rows <==> Some(b) in init || Some(b) == rows[|rows| - 1];
      }
    }
  }

  lemma {:induction false} LoadedAppend<T>(a: seq<Option<seq<T>>>, b: seq<Option<seq<T>>>)
    ensures Loaded(a + b) == Loaded(a) + Loaded(b)
    decreases |b|
  {
    if b == [] {
      assert a + b == a;
    } else {
      var init := b[..|b| - 1];
      LoadedAppend(a, init);
      assert (a + b)[..|a + b| - 1] == a + init;
      assert (a + b)[|a + b| - 1] == b[|b| - 1];
    }
  }

  /** `LoadCache` given the outcome of the cache query: a failed query
      loads nothing. */
  method LoadCache<T>(query: Option<seq<Option<seq<T>>>>) returns (batches: seq<seq<T>>)
    ensures query.None? ==> batches == []
    ensures query.Some? ==> batches == Loaded(query.value)
  {
    batches := [];
    if query.None? {
      return;
    }
    var rows := query.value;
    for i := 0 to |rows|
      invariant batches == Loaded(rows[..i])
    {
      assert rows[..i + 1][..i] == rows[..i];
      var decoded := rows[i];
      if decoded.None? {
        continue;
      }
      if |decoded.value| == 0 {
        continue;
      }
      batches := batches + [decoded.value];
    }
    assert rows[..|rows|] == rows;
  }
}
