/** The websocket side of the original server: the two-way index of
    connected clients by request path, the client's remote address, the
    subscribers of the prepared-message cache, the message builders that
    turn the tracker map into entries, and the update-interval throttle of
    a connection. */
module WebSocket {
  import opened Wrappers
  import opened Text
  import opened Tracking
  import opened Streams
  import ServerTracker
  import GoPkgTracker
  import opened GoTime

  // The connection index.

  /** The request headers and peer address a client connected with;
      `Header.Get` of a missing header is the empty string. */
  datatype Request = Request(forwardedFor: string, realIp: string, remoteAddr: string)

  class WebSocketClient {
    const request: Request

    constructor(request: Request)
      ensures this.request == request
    {
      this.request := request;
    }

    /** `GetRemoteAddr`: the first non-empty of the forwarded-for header,
        the real-ip header and the peer address. */
    function GetRemoteAddr(): string {
      if request.forwardedFor != "" then request.forwardedFor
      else if request.realIp != "" then request.realIp
      else request.remoteAddr
    }

    /** `GetRemoteHost`: the remote address up to its first ':'. */
    function GetRemoteHost(): string {
      BeforeColon(GetRemoteAddr())
    }
  }

  /** A header is used only when it is set, and the forwarded-for header
      wins over the real-ip header, which wins over the peer address. */
  lemma RemoteAddrChoice(c: WebSocketClient)
    ensures c.request.forwardedFor != "" ==> c.GetRemoteAddr() == c.request.forwardedFor
    ensures c.request.forwardedFor == "" && c.request.realIp != "" ==> c.GetRemoteAddr() == c.request.realIp
    ensures c.request.forwardedFor == "" && c.request.realIp == "" ==> c.GetRemoteAddr() == c.request.remoteAddr
    ensures c.GetRemoteAddr() == "" ==> c.request.forwardedFor == "" && c.request.realIp == "" && c.request.remoteAddr == ""
  {
  }

  /** `strings.Split(s, ":")[0]`. */
  function BeforeColon(s: string): string {
    if s == [] || s[0] == ':' then [] else [s[0]] + BeforeColon(s[1..])
  }

  /** The host part is the longest prefix without a colon: it is a prefix,
      holds no colon, and is followed by a colon unless it is all of the
      address. */
  lemma {:induction false} BeforeColonShape(s: string)
    ensures var h := BeforeColon(s); |h| <= |s| && h == s[..|h|]
    ensures ':' !in BeforeColon(s)
    ensures var h := BeforeColon(s); |h| < |s| ==> s[|h|] == ':'
  {
    if s != [] && s[0] != ':' {
      BeforeColonShape(s[1..]);
    }
  }

  /** Connections by path and paths by connection are two views of one
      relation. */
  ghost predicate Linked(paths: map<string, set<WebSocketClient>>, clients: map<WebSocketClient, set<string>>) {
    && (forall p, c :: p in paths && c in paths[p] ==> c in clients && p in clients[c])
    && (forall c, p :: c in clients && p in clients[c] ==> p in paths && c in paths[p])
  }

  function AddPath(paths: map<string, set<WebSocketClient>>, path: string, conn: WebSocketClient): map<string, set<WebSocketClient>> {
    paths[path := (if path in paths then paths[path] else {}) + {conn}]
  }

  function AddClient(clients: map<WebSocketClient, set<string>>, path: string, conn: WebSocketClient): map<WebSocketClient, set<string>> {
    clients[conn := (if conn in clients then clients[conn] else {}) + {path}]
  }

  function DelPath(paths: map<string, set<WebSocketClient>>, path: string, conn: WebSocketClient): map<string, set<WebSocketClient>>
    requires path in paths
  {
    paths[path := paths[path] - {conn}]
  }

  function DelClient(clients: map<WebSocketClient, set<string>>, path: string, conn: WebSocketClient): map<WebSocketClient, set<string>>
    requires conn in clients
  {
    clients[conn := clients[conn] - {path}]
  }

  /** `Add` keeps the two views in step and records the pair in both. */
  lemma AddKeepsLinked(paths: map<string, set<WebSocketClient>>, clients: map<WebSocketClient, set<string>>,
                       path: string, conn: WebSocketClient)
    requires Linked(paths, clients)
    ensures Linked(AddPath(paths, path, conn), AddClient(clients, path, conn))
    ensures conn in AddPath(paths, path, conn)[path] && path in AddClient(clients, path, conn)[conn]
  {
  }

  /** Creating an entry and then overwriting it is one write. */
  lemma SetTwice<K, V>(m: map<K, V>, k: K, first: V, second: V)
    ensures m[k := first][k := second] == m[k := second]
  {
  }

  /** `Del` keeps the two views in step, removes the pair from both and
      leaves both inner entries in place. */
  lemma DelKeepsLinked(paths: map<string, set<WebSocketClient>>, clients: map<WebSocketClient, set<string>>,
                       path: string, conn: WebSocketClient)
    requires Linked(paths, clients) && path in paths && conn in clients
    ensures Linked(DelPath(paths, path, conn), DelClient(clients, path, conn))
    ensures conn !in DelPath(paths, path, conn)[path] && path !in DelClient(clients, path, conn)[conn]
    ensures DelPath(paths, path, conn).Keys == paths.Keys && DelClient(clients, path, conn).Keys == clients.Keys
  {
  }

  class WsConnectionTracker {
    var paths: map<string, set<WebSocketClient>>
    var clients: map<WebSocketClient, set<string>>

    ghost predicate Valid()
      reads this
    {
      Linked(paths, clients)
    }

    constructor()
      ensures paths == map[] && clients == map[]
      ensures Valid()
    {
      paths := map[];
      clients := map[];
    }

    /** `Add`: creates either inner map when missing and records the
        pair in both. */
    method Add(path: string, conn: WebSocketClient)
      requires Valid()
      modifies this
      ensures paths == AddPath(old(paths), path, conn) && clients == AddClient(old(clients), path, conn)
      ensures Valid()
    {
      ghost var paths0, clients0 := paths, clients;
      if path !in paths {
        paths := paths[path := {}];
      }
      if conn !in clients {
        clients := clients[conn := {}];
      }
      paths := paths[path := paths[path] + {conn}];
      clients := clients[conn := clients[conn] + {path}];
      SetTwice(paths0, path, {}, {conn});
      SetTwice(clients0, conn, {}, {path});
      assert paths == AddPath(paths0, path, conn) && clients == AddClient(clients0, path, conn);
      AddKeepsLinked(paths0, clients0, path, conn);
    }

    /** `Del`: writing into a missing inner map panics. A missing path
        panics before anything changes; a missing connection panics after
        the path's entry lost a connection it could not hold, so again
        nothing changes. */
    method Del(path: string, conn: WebSocketClient) returns (panicked: bool)
      requires Valid()
      modifies this
      ensures panicked <==> path !in old(paths) || conn !in old(clients)
      ensures panicked ==> paths == old(paths) && clients == old(clients)
      ensures !panicked ==>
                paths == DelPath(old(paths), path, conn) && clients == DelClient(old(clients), path, conn)
      ensures Valid()
    {
      if path !in paths {
        return true;
      }
      if conn !in clients {
        assert conn !in paths[path];
        assert paths[path] - {conn} == paths[path];
        assert paths[path := paths[path] - {conn}] == paths;
      }
      paths := paths[path := paths[path] - {conn}];
      if conn !in clients {
        return true;
      }
      DelKeepsLinked(old(paths), clients, path, conn);
      clients := clients[conn := clients[conn] - {path}];
      return false;
    }
  }

  // The prepared-message cache.

  class WsSourceCache {
    var subscribers: set<Channel>

    constructor()
      ensures subscribers == {}
    {
      subscribers := {};
    }

    /** `Subscribe`: a fresh channel with room for one message. */
    method Subscribe() returns (channel: Channel)
      modifies this
      ensures fresh(channel) && channel.capacity == 1
      ensures subscribers == old(subscribers) + {channel}
    {
      channel := new Channel(1);
      subscribers := subscribers + {channel};
    }

    method Unsubscribe(channel: Channel)
      modifies this
      ensures subscribers == old(subscribers) - {channel}
    {
      subscribers := subscribers - {channel};
    }
  }

  // The message builders.

  /** What the builders read from a tracker. */
  datatype View = View(symbol: string, last: Option<Tick>, metrics: map<int, TickerMetrics>)

  function ViewOf(t: ServerTracker.TickerTracker): View
    reads t
  {
    View(t.symbol, t.LastTick(), t.metrics)
  }

  /** The views of the trackers, in the order given. */
  function ViewsOf(trackers: seq<ServerTracker.TickerTracker>): (r: seq<View>)
    reads trackers
    ensures |r| == |trackers| && forall i :: 0 <= i < |trackers| ==> r[i] == ViewOf(trackers[i])
  {
    seq(|trackers|, i reads trackers requires 0 <= i < |trackers| => ViewOf(trackers[i]))
  }

  /** One bucket's low, high, range and range percentage. */
  datatype BucketRange = BucketRange(bucket: int, low: real, high: real, range: real, rangePercent: real)

  /** A message entry: the last tick's prices, the price changes by
      period (the 24-hour one from the tick), the volume changes by period,
      the tick's time, and for the complete message each bucket's range. */
  datatype Entry = Entry(
    symbol: string, close: real, bid: real, ask: real, high: real, low: real, volume: real,
    priceChangePct: seq<(string, real)>, volumeChangePct: seq<(string, real)>, timestamp: int,
    ranges: seq<BucketRange>)

  const PriceLabels: seq<string> := ["1m", "5m", "10m", "15m", "1h"]
  const PriceBuckets: seq<int> := [1, 5, 10, 15, 60]
  const VolumeLabels: seq<string> := ["1m", "2m", "3m", "4m", "5m", "10m", "15m", "1h"]
  const VolumeBuckets: seq<int> := [1, 2, 3, 4, 5, 10, 15, 60]

  /** The metrics of the given buckets, as `tracker.Metrics[b].Field`
      reads them: a bucket without metrics is a nil pointer, and reading
      through it panics. */
  function LookupAll(metrics: map<int, TickerMetrics>, buckets: seq<int>): (r: Result<seq<TickerMetrics>>)
    ensures r.Ok? <==> forall b :: b in buckets ==> b in metrics
    ensures r.Ok? ==> |r.value| == |buckets|
    ensures r.Ok? ==> forall i :: 0 <= i < |buckets| ==> buckets[i] in metrics && r.value[i] == metrics[buckets[i]]
  {
    if buckets == [] then Ok([])
    else
      var init := LookupAll(metrics, buckets[..|buckets| - 1]);
      var b := buckets[|buckets| - 1];
      assert forall x :: x in buckets <==> x in buckets[..|buckets| - 1] || x == b;
      if init.Err? then init
      else if b !in metrics then Err(NilDereference)
      else Ok(init.value + [metrics[b]])
  }

  /** The metrics of the given buckets, a missing one read as zero. */
  function LookupOrZero(metrics: map<int, TickerMetrics>, buckets: seq<int>): (r: seq<TickerMetrics>)
    ensures |r| == |buckets|
  {
    seq(|buckets|, i requires 0 <= i < |buckets| => if buckets[i] in metrics then metrics[buckets[i]] else ZeroMetrics)
  }

  function PriceChanges(last: Tick, ms: seq<TickerMetrics>): seq<(string, real)>
    requires |ms| == |PriceLabels|
  {
    seq(|PriceLabels|, i requires 0 <= i < |PriceLabels| => (PriceLabels[i], ms[i].priceChangePercent)) +
    [("24h", last.priceChangePercent)]
  }

  function VolumeChanges(ms: seq<TickerMetrics>): seq<(string, real)>
    requires |ms| == |VolumeLabels|
  {
    seq(|VolumeLabels|, i requires 0 <= i < |VolumeLabels| => (VolumeLabels[i], ms[i].volumeChangePercent))
  }

  function Ranges(buckets: seq<int>, ms: seq<TickerMetrics>): seq<BucketRange>
    requires |ms| == |buckets|
  {
    seq(|buckets|, i requires 0 <= i < |buckets| =>
      BucketRange(buckets[i], ms[i].low, ms[i].high, ms[i].range, ms[i].rangePercent))
  }

  /** The buckets whose ranges the complete message lists. */
  function RangeBuckets(complete: bool): seq<int> {
    if complete then ServerTracker.Buckets else []
  }

  function MakeEntry(symbol: string, last: Tick, price: seq<TickerMetrics>, volume: seq<TickerMetrics>,
                     rangeBuckets: seq<int>, ranged: seq<TickerMetrics>): Entry
    requires |price| == |PriceLabels| && |volume| == |VolumeLabels| && |ranged| == |rangeBuckets|
  {
    Entry(symbol, last.close, last.bid, last.ask, last.high, last.low, last.volume,
          PriceChanges(last, price), VolumeChanges(volume), last.timestamp, Ranges(rangeBuckets, ranged))
  }

  /** `WsBuildCompleteEntry` (`complete`) or the body of the loop of
      `WsBuildMonitorMessage`, as written: no entry without a tick, and a
      panic when a bucket read is missing from the metrics. */
  function EntryOf(v: View, complete: bool): Result<Option<Entry>> {
    if v.last.None? then Ok(None)
    else
      var price := LookupAll(v.metrics, PriceBuckets);
      var volume := LookupAll(v.metrics, VolumeBuckets);
      var ranged := LookupAll(v.metrics, RangeBuckets(complete));
      if price.Err? || volume.Err? || ranged.Err? then Err(NilDereference)
      else Ok(Some(MakeEntry(v.symbol, v.last.value, price.value, volume.value, RangeBuckets(complete), ranged.value)))
  }

  /** The entry with a missing bucket read as zero metrics. */
  function EntryFilled(v: View, complete: bool): Option<Entry> {
    if v.last.None? then None
    else
      var rb := RangeBuckets(complete);
      Some(MakeEntry(v.symbol, v.last.value, LookupOrZero(v.metrics, PriceBuckets),
                     LookupOrZero(v.metrics, VolumeBuckets), rb, LookupOrZero(v.metrics, rb)))
  }

  /** A message as written: the entries of the trackers in the order the
      map is ranged over; any failing entry makes the whole build panic. */
  function Message(views: seq<View>, complete: bool): Result<seq<Entry>> {
    if views == [] then Ok([])
    else
      var init := Message(views[..|views| - 1], complete);
      var e := EntryOf(views[|views| - 1], complete);
      if init.Err? then init
      else if e.Err? then Err(e.error)
      else Ok(init.value + (if e.value.Some? then [e.value.value] else []))
  }

  /** A message built with missing buckets read as zero. */
  function MessageFilled(views: seq<View>, complete: bool): seq<Entry> {
    if views == [] then []
    else
      var e := EntryFilled(views[|views| - 1], complete);
      MessageFilled(views[..|views| - 1], complete) + (if e.Some? then [e.value] else [])
  }

  /** The trackers that have a tick, in order. */
  function Ticked(views: seq<View>): (r: seq<View>)
    ensures forall v :: v in r ==> v.last.Some?
  {
    if views == [] then []
    else
      var v := views[|views| - 1];
      Ticked(views[..|views| - 1]) + (if v.last.Some? then [v] else [])
  }

  /** Whether every metrics bucket a builder reads is present. */
  ghost predicate HasAllBuckets(v: View, complete: bool) {
    forall b :: (b in PriceBuckets || b in VolumeBuckets || b in RangeBuckets(complete)) ==> b in v.metrics
  }

  /** As written, a message can be built exactly when every tracker with
      a tick has metrics for every bucket read, the 4-minute one included. */
  lemma {:induction false} MessageFails(views: seq<View>, complete: bool)
    ensures Message(views, complete).Ok? <==>
              forall i :: 0 <= i < |views| && views[i].last.Some? ==> HasAllBuckets(views[i], complete)
  {
    if views != [] {
      var init := views[..|views| - 1];
      MessageFails(init, complete);
      var v := views[|views| - 1];
      if v.last.Some? {
        var price := LookupAll(v.metrics, PriceBuckets);
        var volume := LookupAll(v.metrics, VolumeBuckets);
        var ranged := LookupAll(v.metrics, RangeBuckets(complete));
        assert EntryOf(v, complete).Ok? <==> price.Ok? && volume.Ok? && ranged.Ok?;
        assert EntryOf(v, complete).Ok? <==> HasAllBuckets(v, complete);
      }
      forall i | 0 <= i < |init| ensures init[i] == views[i] {}
    }
  }

  /** The filled builder gives exactly one entry per tracker with a tick,
      in order, for that tracker's symbol and last tick. */
  lemma {:induction false} MessageFilledEntries(views: seq<View>, complete: bool)
    ensures |MessageFilled(views, complete)| == |Ticked(views)|
    ensures forall i :: 0 <= i < |Ticked(views)| ==>
              MessageFilled(views, complete)[i].symbol == Ticked(views)[i].symbol &&
              MessageFilled(views, complete)[i].timestamp == Ticked(views)[i].last.value.timestamp &&
              MessageFilled(views, complete)[i].close == Ticked(views)[i].last.value.close
  {
    if views != [] {
      MessageFilledEntries(views[..|views| - 1], complete);
    }
  }

  /** Where the as-written builder succeeds it agrees with the filled one. */
  lemma {:induction false} MessageAgrees(views: seq<View>, complete: bool)
    ensures Message(views, complete).Ok? ==> Message(views, complete).value == MessageFilled(views, complete)
  {
    if views != [] {
      var init := views[..|views| - 1];
      MessageAgrees(init, complete);
      var v := views[|views| - 1];
      if Message(views, complete).Ok? && v.last.Some? {
        var rb := RangeBuckets(complete);
        assert LookupAll(v.metrics, PriceBuckets).value == LookupOrZero(v.metrics, PriceBuckets);
        assert LookupAll(v.metrics, VolumeBuckets).value == LookupOrZero(v.metrics, VolumeBuckets);
        assert LookupAll(v.metrics, rb).value == LookupOrZero(v.metrics, rb);
      }
    }
  }

  /** A tracker of the original server, created with metrics for 1, 2, 3,
      5, 10, 15 and 60 minutes, makes both builders panic as soon as it has
      a tick, because both read the 4-minute metrics; with the eight
      buckets of the later tracker revision the build succeeds. */
  lemma ServerTrackerMessagePanics(symbol: string, tick: Tick, complete: bool)
    ensures Message([View(symbol, Some(tick), MetricsFor(ServerTracker.Buckets))], complete).Err?
    ensures Message([View(symbol, Some(tick), MetricsFor(GoPkgTracker.Buckets))], complete).Ok?
  {
    var bad := View(symbol, Some(tick), MetricsFor(ServerTracker.Buckets));
    assert 4 in VolumeBuckets && 4 !in bad.metrics;
    MessageFails([bad], complete);
    var good := View(symbol, Some(tick), MetricsFor(GoPkgTracker.Buckets));
    assert HasAllBuckets(good, complete);
    MessageFails([good], complete);
  }

  /** `WsBuildCompleteMessage` / `WsBuildMonitorMessage` over the tracker
      map, given the order it is ranged over. */
  method BuildMessage(trackers: seq<ServerTracker.TickerTracker>, complete: bool) returns (r: Result<seq<Entry>>)
    ensures r == Message(ViewsOf(trackers), complete)
  {
    ghost var views := ViewsOf(trackers);
    var entries: seq<Entry> := [];
    for i := 0 to |trackers|
      invariant Message(views[..i], complete) == Ok(entries)
    {
      MessageExtends(views, i, complete);
      var t := trackers[i];
      assert views[i] == View(t.symbol, t.LastTick(), t.metrics);
      var e := EntryOf(View(t.symbol, t.LastTick(), t.metrics), complete);
      if e.Err? {
        assert Message(views[..i + 1], complete) == Err(e.error);
        MessagePanicSticks(views, i + 1, complete);
        return Err(e.error);
      }
      if e.value.Some? {
        entries := entries + [e.value.value];
      } else {
        assert entries + [] == entries;
      }
    }
    assert views[..|trackers|] == views;
    r := Ok(entries);
  }

  /** One more view: the message so far, then that view's entry, or its
      panic. */
  lemma MessageExtends(views: seq<View>, i: nat, complete: bool)
    requires i < |views| && Message(views[..i], complete).Ok?
    ensures var e := EntryOf(views[i], complete);
            Message(views[..i + 1], complete) ==
              if e.Err? then Err(e.error)
              else Ok(Message(views[..i], complete).value + (if e.value.Some? then [e.value.value] else []))
  {
    assert views[..i + 1][..i] == views[..i];
    assert views[..i + 1][i] == views[i];
  }

  /** Once a prefix of the trackers panics, so does the whole build. */
  lemma {:induction false} MessagePanicSticks(views: seq<View>, n: nat, complete: bool)
    requires n <= |views| && Message(views[..n], complete).Err?
    ensures Message(views, complete) == Message(views[..n], complete)
    decreases |views| - n
  {
    if n < |views| {
      assert views[..n + 1][..n] == views[..n];
      MessagePanicSticks(views, n + 1, complete);
    } else {
      assert views[..n] == views;
    }
  }

  // The update-interval throttle of a connection.

  predicate IsDigit(c: char) {
    '0' <= c <= '9'
  }

  predicate AllDigits(s: string) {
    forall i :: 0 <= i < |s| ==> IsDigit(s[i])
  }

  function DigitsValue(s: string): nat
    requires AllDigits(s)
  {
    if s == [] then 0 else 10 * DigitsValue(s[..|s| - 1]) + (s[|s| - 1] as int - '0' as int)
  }

  /** `strconv.ParseInt(s, 10, 64)`: an optional sign and at least one
      decimal digit, within the 64-bit range; none on any error. */
  function ParseInt64(s: string): Option<int> {
    var signed := |s| > 0 && (s[0] == '+' || s[0] == '-');
    var digits := if signed then s[1..] else s;
    if digits == [] || !AllDigits(digits) then None
    else
      var v: int := if |s| > 0 && s[0] == '-' then 0 - DigitsValue(digits) as int else DigitsValue(digits);
      if MinInt64 <= v <= MaxInt64 then Some(v) else None
  }

  /** The `updateInterval` form value in seconds; one that does not parse
      counts as 0. */
  function UpdateInterval(formValue: string): int {
    match ParseInt64(formValue)
    case None => 0
    case Some(v) => v
  }

  /** The decimal digits of a number. */
  function Decimal(n: nat): string
    decreases n
  {
    var d := ((n % 10) + '0' as int) as char;
    if n < 10 then [d] else Decimal(n / 10) + [d]
  }

  lemma {:induction false} DecimalDigits(n: nat)
    ensures |Decimal(n)| > 0 && AllDigits(Decimal(n))
    ensures DigitsValue(Decimal(n)) == n
    decreases n
  {
    var s := Decimal(n);
    if n >= 10 {
      DecimalDigits(n / 10);
      assert s[..|s| - 1] == Decimal(n / 10);
    }
  }

  /** An interval written in decimal reads back as itself, and one with a
      stray character reads as 0. */
  lemma UpdateIntervalOfDecimal(n: nat, s: string, i: nat)
    requires n <= MaxInt64
    requires 0 < i < |s| && !IsDigit(s[i])
    ensures UpdateInterval(Decimal(n)) == n
    ensures UpdateInterval(s) == 0
  {
    DecimalDigits(n);
    var signed := |s| > 0 && (s[0] == '+' || s[0] == '-');
    var digits := if signed then s[1..] else s;
    if signed {
      assert digits[i - 1] == s[i];
    } else {
      assert digits[i] == s[i];
    }
  }

  /** The time since the last write at `now`; before the first write it is
      measured from the zero time, so far back that it saturates. */
  function Elapsed(now: int, last: Option<int>): int {
    match last
    case None => MaxInt64
    case Some(t) => Saturate64(now - t)
  }

  /** `time.Second * time.Duration(updateInterval)`, wrapping around. */
  function Threshold(interval: int): int {
    Wrap64(SecondNs * interval)
  }

  /** For intervals that fit, the threshold is the interval in
      nanoseconds. */
  lemma ThresholdExact(interval: int)
    requires 0 <= interval <= MaxInt64 / SecondNs
    ensures Threshold(interval) == interval * SecondNs
  {
  }

  /** Which broadcasts a connection writes when they arrive at `times`
      (nanoseconds) and its last write was at `last`: a broadcast is
      skipped exactly when less than the threshold has elapsed since the
      last write. */
  function Written(times: seq<int>, last: Option<int>, threshold: int): (r: seq<bool>)
    ensures |r| == |times|
  {
    if times == [] then []
    else
      var w := !(Elapsed(times[0], last) < threshold);
      [w] + Written(times[1..], if w then Some(times[0]) else last, threshold)
  }

  /** The broadcast branch of `Handle`'s loop, on a clock that reads
      `times[i]` when the i-th broadcast arrives and is written. */
  method HandleBroadcasts(times: seq<int>, updateInterval: string) returns (written: seq<bool>)
    ensures written == Written(times, None, Threshold(UpdateInterval(updateInterval)))
  {
    var interval := match ParseInt64(updateInterval) case None => 0 case Some(v) => v;
    var threshold := Wrap64(SecondNs * interval);
    var lastUpdate: Option<int> := None;
    written := [];
    for i := 0 to |times|
      invariant written + Written(times[i..], lastUpdate, threshold) == Written(times, None, threshold)
    {
      assert times[i..][1..] == times[i + 1..];
      if Elapsed(times[i], lastUpdate) < threshold {
        written := written + [false];
        continue;
      }
      written := written + [true];
      lastUpdate := Some(times[i]);
    }
  }

  /** The first broadcast is always written. */
  lemma FirstWritten(times: seq<int>, interval: int)
    requires times != []
    ensures Written(times, None, Threshold(interval))[0]
  {
  }

  predicate Nondecreasing(times: seq<int>) {
    forall i, j :: 0 <= i < j < |times| ==> times[i] <= times[j]
  }

  predicate InRange(times: seq<int>) {
    forall i :: 0 <= i < |times| ==> 0 <= times[i] <= MaxInt64
  }

  /** After a write at `last`, every later write is at least the threshold
      after it. */
  lemma {:induction false} WrittenAfter(times: seq<int>, last: int, threshold: int)
    requires Nondecreasing(times) && InRange(times) && 0 <= last <= MaxInt64
    requires forall i :: 0 <= i < |times| ==> last <= times[i]
    ensures forall j :: 0 <= j < |times| && Written(times, Some(last), threshold)[j] ==> times[j] - last >= threshold
  {
    if times != [] {
      var w := !(Elapsed(times[0], Some(last)) < threshold);
      var rest := Written(times[1..], if w then Some(times[0]) else Some(last), threshold);
      assert Written(times, Some(last), threshold) == [w] + rest;
      if w {
        WrittenAfter(times[1..], times[0], threshold);
      } else {
        WrittenAfter(times[1..], last, threshold);
      }
      forall j | 1 <= j < |times| && Written(times, Some(last), threshold)[j]
        ensures times[j] - last >= threshold
      {
        assert rest[j - 1];
        assert times[1..][j - 1] == times[j];
      }
    }
  }

  /** With broadcasts arriving in time order and after the last write,
      any two writes are at least the threshold apart. */
  lemma {:induction false} WritesSpacedFrom(times: seq<int>, last: Option<int>, threshold: int)
    requires Nondecreasing(times) && InRange(times)
    requires last.Some? ==> 0 <= last.value <= MaxInt64 && forall i :: 0 <= i < |times| ==> last.value <= times[i]
    ensures forall i, j :: 0 <= i < j < |times| && Written(times, last, threshold)[i] && Written(times, last, threshold)[j] ==>
              times[j] - times[i] >= threshold
  {
    if times != [] {
      var w := !(Elapsed(times[0], last) < threshold);
      var next := if w then Some(times[0]) else last;
      var rest := Written(times[1..], next, threshold);
      assert Written(times, last, threshold) == [w] + rest;
      WritesSpacedFrom(times[1..], next, threshold);
      if w {
        WrittenAfter(times[1..], times[0], threshold);
      }
      forall i, j | 0 <= i < j < |times| && Written(times, last, threshold)[i] && Written(times, last, threshold)[j]
        ensures times[j] - times[i] >= threshold
      {
        assert rest[j - 1] && times[1..][j - 1] == times[j];
        if i > 0 {
          assert rest[i - 1] && times[1..][i - 1] == times[i];
        }
      }
    }
  }

  /** From a fresh connection, with broadcasts arriving in time order, any
      two writes are at least the threshold apart. */
  lemma WritesSpaced(times: seq<int>, interval: int)
    requires Nondecreasing(times) && InRange(times)
    ensures var w := Written(times, None, Threshold(interval));
            forall i, j :: 0 <= i < j < |times| && w[i] && w[j] ==> times[j] - times[i] >= Threshold(interval)
  {
    WritesSpacedFrom(times, None, Threshold(interval));
  }
}
