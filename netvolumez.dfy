/** The Binance "net volume" page: for every BTC market with all three
    histograms it counts the minutes whose net volume exceeds 0.3 percent
    of the 24-hour volume ("pongs"), remembers that count per market, and
    lists the markets with at least one pong, most recent first pong first. */
module NetVolumez {
  import opened Wrappers
  import opened Text
  import opened Sorting
  import opened NewVolume

  /** A member of the server's volume response as this page reads it; a
      histogram is `None` when absent or null. */
  datatype NetVolumeEntry = NetVolumeEntry(
    vol: real, v24h: Option<seq<real>>, nvh: Option<seq<real>>, vh: Option<seq<real>>,
    nv60: real, v60: real, rsi15: real)

  datatype NetVolumeRow = NetVolumeRow(
    symbol: string, pings: nat, timestamp: int, volume: real, nv60: real, v60: real, rsi15: real)

  // The window sums of `bucket` (a helper the page defines but does not call).

  /** The sums of the full windows that start below `k`, in order; a window
      cut short by the end of the histogram is skipped. */
  function FullBucketsBelow(vals: seq<real>, interval: nat, k: nat): seq<real>
    requires k <= |vals|
  {
    if k == 0 then []
    else
      FullBucketsBelow(vals, interval, k - 1) +
      (if |Window(vals, k - 1, interval)| < interval then [] else [Sum(Window(vals, k - 1, interval))])
  }

  function FullBuckets(vals: seq<real>, interval: nat): seq<real> {
    FullBucketsBelow(vals, interval, |vals|)
  }

  function Max(a: int, b: int): int {
    if a >= b then a else b
  }

  /** With positive windows, exactly the first `n - interval + 1` windows
      are full. */
  lemma {:induction false} FullBucketsBelowLength(vals: seq<real>, interval: nat, k: nat)
    requires 1 <= interval && k <= |vals|
    ensures |FullBucketsBelow(vals, interval, k)| == Min(k, Max(0, |vals| - interval + 1))
  {
    if k > 0 {
      FullBucketsBelowLength(vals, interval, k - 1);
      var w := Window(vals, k - 1, interval);
      assert |w| < interval <==> k > |vals| - interval + 1;
    }
  }

  /** Bucket `j` is the sum of `vals[j..j + interval]`. */
  lemma {:induction false} FullBucketsBelowSums(vals: seq<real>, interval: nat, k: nat)
    requires 1 <= interval && k <= |vals|
    ensures forall j :: 0 <= j < |FullBucketsBelow(vals, interval, k)| ==>
              j + interval <= |vals| && FullBucketsBelow(vals, interval, k)[j] == Sum(vals[j..j + interval])
  {
    FullBucketsBelowLength(vals, interval, k);
    if k > 0 {
      FullBucketsBelowSums(vals, interval, k - 1);
      var prev := FullBucketsBelow(vals, interval, k - 1);
      var w := Window(vals, k - 1, interval);
      var r := FullBucketsBelow(vals, interval, k);
      if |w| >= interval {
        FullBucketsBelowLength(vals, interval, k - 1);
        assert w == vals[k - 1..k - 1 + interval];
        assert r == prev + [Sum(w)];
        forall j | 0 <= j < |r| ensures r[j] == Sum(vals[j..j + interval]) {
          if j < |prev| {
            assert r[j] == prev[j];
          }
        }
      } else {
        assert r == prev;
      }
    }
  }

  /** Both facts about the full windows below `k`. */
  lemma FullBucketsBelowShape(vals: seq<real>, interval: nat, k: nat)
    requires 1 <= interval && k <= |vals|
    ensures |FullBucketsBelow(vals, interval, k)| == Min(k, Max(0, |vals| - interval + 1))
    ensures forall j :: 0 <= j < |FullBucketsBelow(vals, interval, k)| ==>
              j + interval <= |vals| && FullBucketsBelow(vals, interval, k)[j] == Sum(vals[j..j + interval])
  {
    FullBucketsBelowLength(vals, interval, k);
    FullBucketsBelowSums(vals, interval, k);
  }

  /** The sizes the page offers: 1, 2, 3 or 5 minutes. */
  lemma FullBucketsShape(vals: seq<real>, interval: nat)
    requires 1 <= interval
    ensures |FullBuckets(vals, interval)| == Max(0, |vals| - interval + 1)
    ensures forall j :: 0 <= j < |FullBuckets(vals, interval)| ==>
              FullBuckets(vals, interval)[j] == Sum(vals[j..j + interval])
  {
    FullBucketsBelowShape(vals, interval, |vals|);
  }

  // The pong scan.

  /** Whether minute `i` is a pong: `nvh[i] / v24h[i] * 100 > 0.3`. A
      missing entry makes the quotient NaN and the test false; a zero
      24-hour volume makes it an infinity of the net volume's sign. */
  predicate IsPong(nvh: seq<real>, v24h: seq<real>, i: int) {
    && 0 <= i < |nvh|
    && i < |v24h|
    && if v24h[i] == 0.0 then nvh[i] > 0.0 else nvh[i] / v24h[i] * 100.0 > 0.3
  }

  /** The number of pongs among the minutes below `k`. */
  function PongsBelow(nvh: seq<real>, v24h: seq<real>, k: nat): nat {
    if k == 0 then 0 else PongsBelow(nvh, v24h, k - 1) + (if IsPong(nvh, v24h, k - 1) then 1 else 0)
  }

  /** The first pong below `k`, if any. */
  function FirstPongBelow(nvh: seq<real>, v24h: seq<real>, k: nat): Option<nat> {
    if k == 0 then None
    else if FirstPongBelow(nvh, v24h, k - 1).Some? then FirstPongBelow(nvh, v24h, k - 1)
    else if IsPong(nvh, v24h, k - 1) then Some(k - 1)
    else None
  }

  /** There are pongs exactly when there is a first one, and the first one
      is a pong that no earlier minute is. */
  lemma {:induction false} FirstPongIsFirst(nvh: seq<real>, v24h: seq<real>, k: nat)
    ensures PongsBelow(nvh, v24h, k) > 0 <==> FirstPongBelow(nvh, v24h, k).Some?
    ensures PongsBelow(nvh, v24h, k) <= k
    ensures FirstPongBelow(nvh, v24h, k).Some? ==>
              var f := FirstPongBelow(nvh, v24h, k).value;
              f < k && IsPong(nvh, v24h, f) && forall j :: 0 <= j < f ==> !IsPong(nvh, v24h, j)
    ensures FirstPongBelow(nvh, v24h, k).None? ==> forall j :: 0 <= j < k ==> !IsPong(nvh, v24h, j)
  {
    if k > 0 {
      FirstPongIsFirst(nvh, v24h, k - 1);
    }
  }

  /** The timestamp of the first pong: that many minutes before the clock. */
  function PongTime(nvh: seq<real>, v24h: seq<real>, k: nat, now: int): Option<int> {
    match FirstPongBelow(nvh, v24h, k)
    case None => None
    case Some(f) => Some(now - f * 60000)
  }

  /** The pong loop over the minutes of the volume histogram. */
  method ScanPongs(nvh: seq<real>, v24h: seq<real>, vhLength: nat, now: int)
    returns (pongs: nat, timestamp: Option<int>)
    ensures pongs == PongsBelow(nvh, v24h, vhLength)
    ensures timestamp == PongTime(nvh, v24h, vhLength, now)
  {
    pongs := 0;
    timestamp := None;
    for i := 0 to vhLength
      invariant pongs == PongsBelow(nvh, v24h, i)
      invariant timestamp == PongTime(nvh, v24h, i, now)
    {
      var isPong := i < |nvh| && i < |v24h| &&
                    if v24h[i] == 0.0 then nvh[i] > 0.0 else nvh[i] / v24h[i] * 100.0 > 0.3;
      if isPong {
        pongs := pongs + 1;
        if timestamp.None? {
          timestamp := Some(now - i * 60000);
        }
      }
    }
  }

  // The member loop of `refresh`.

  /** Whether the member gets past the early `continue`s: a BTC market with
      enough 24-hour volume and all three histograms. */
  predicate Scanned(key: string, e: NetVolumeEntry, minVolume: real) {
    EndsWith(key, "BTC") && !(e.vol < minVolume) && e.v24h.Some? && e.nvh.Some? && e.vh.Some?
  }

  function PongsOf(e: NetVolumeEntry): nat
    requires e.v24h.Some? && e.nvh.Some? && e.vh.Some?
  {
    PongsBelow(e.nvh.value, e.v24h.value, |e.vh.value|)
  }

  function TimeOf(e: NetVolumeEntry, now: int): Option<int>
    requires e.v24h.Some? && e.nvh.Some? && e.vh.Some?
  {
    PongTime(e.nvh.value, e.v24h.value, |e.vh.value|, now)
  }

  /** The row of a scanned member with pongs, `now` being the clock read at
      its first pong: the timestamp is always set, at a whole number of
      minutes before the clock, within the volume histogram. */
  function NetRowOf(key: string, e: NetVolumeEntry, now: int): (r: NetVolumeRow)
    requires e.v24h.Some? && e.nvh.Some? && e.vh.Some? && PongsOf(e) > 0
    ensures r.symbol == key && r.pings == PongsOf(e) > 0
    ensures r.timestamp <= now && now - r.timestamp < |e.vh.value| * 60000 && (now - r.timestamp) % 60000 == 0
  {
    FirstPongIsFirst(e.nvh.value, e.v24h.value, |e.vh.value|);
    NetVolumeRow(key, PongsOf(e), TimeOf(e, now).value, e.vol, e.nv60, e.v60, e.rsi15)
  }

  predicate Shown(key: string, e: NetVolumeEntry, minVolume: real) {
    Scanned(key, e, minVolume) && PongsOf(e) > 0
  }

  function NetRows(data: seq<(string, NetVolumeEntry)>, minVolume: real, clock: nat -> int): seq<NetVolumeRow> {
    if data == [] then []
    else
      var (key, e) := data[|data| - 1];
      NetRows(data[..|data| - 1], minVolume, clock) +
      (if Shown(key, e, minVolume) then [NetRowOf(key, e, clock(|data| - 1))] else [])
  }

  /** `pingMap` after the loop: every scanned member's pongs recorded, with
      or without pongs, whether or not it was there before. */
  function PingUpdates(pingMap: map<string, nat>, data: seq<(string, NetVolumeEntry)>, minVolume: real): map<string, nat> {
    if data == [] then pingMap
    else
      var (key, e) := data[|data| - 1];
      var before := PingUpdates(pingMap, data[..|data| - 1], minVolume);
      if Scanned(key, e, minVolume) then before[key := PongsOf(e)] else before
  }

  /** A row appears exactly for each scanned member with pongs: its row
      for the clock read at that member. */
  lemma {:induction false} NetRowsShown(data: seq<(string, NetVolumeEntry)>, minVolume: real, clock: nat -> int)
    ensures forall r :: r in NetRows(data, minVolume, clock) <==>
              exists i :: 0 <= i < |data| && Shown(data[i].0, data[i].1, minVolume) &&
                          r == NetRowOf(data[i].0, data[i].1, clock(i))
  {
    if data != [] {
      var init := data[..|data| - 1];
      NetRowsShown(init, minVolume, clock);
      forall r ensures r in NetRows(data, minVolume, clock) <==>
        exists i :: 0 <= i < |data| && Shown(data[i].0, data[i].1, minVolume) &&
                    r == NetRowOf(data[i].0, data[i].1, clock(i))
      {
        if r in NetRows(init, minVolume, clock) {
          var i :| 0 <= i < |init| && Shown(init[i].0, init[i].1, minVolume) &&
                   r == NetRowOf(init[i].0, init[i].1, clock(i));
          assert data[i] == init[i];
        }
        if exists i :: 0 <= i < |data| && Shown(data[i].0, data[i].1, minVolume) &&
                       r == NetRowOf(data[i].0, data[i].1, clock(i)) {
          var i :| 0 <= i < |data| && Shown(data[i].0, data[i].1, minVolume) &&
                   r == NetRowOf(data[i].0, data[i].1, clock(i));
          if i < |init| {
            assert init[i] == data[i];
          }
        }
      }
    }
  }

  /** The member's pongs are recorded under its own key; keys of members
      that were not scanned keep their old entry (or absence). */
  lemma {:induction false} PingUpdatesEffect(pingMap: map<string, nat>, data: seq<(string, NetVolumeEntry)>, minVolume: real)
    requires forall i, j :: 0 <= i < j < |data| ==> data[i].0 != data[j].0
    ensures forall i :: 0 <= i < |data| && Scanned(data[i].0, data[i].1, minVolume) ==>
              data[i].0 in PingUpdates(pingMap, data, minVolume) &&
              PingUpdates(pingMap, data, minVolume)[data[i].0] == PongsOf(data[i].1)
    ensures forall k :: (forall i :: 0 <= i < |data| && data[i].0 == k ==> !Scanned(k, data[i].1, minVolume)) ==>
              (k in PingUpdates(pingMap, data, minVolume) <==> k in pingMap) &&
              (k in pingMap ==> PingUpdates(pingMap, data, minVolume)[k] == pingMap[k])
  {
    if data != [] {
      var init := data[..|data| - 1];
      PingUpdatesEffect(pingMap, init, minVolume);
      forall i | 0 <= i < |data| - 1 && Scanned(data[i].0, data[i].1, minVolume)
        ensures data[i].0 in PingUpdates(pingMap, data, minVolume) &&
                PingUpdates(pingMap, data, minVolume)[data[i].0] == PongsOf(data[i].1)
      {
        assert init[i] == data[i];
      }
      forall k | (forall i :: 0 <= i < |data| && data[i].0 == k ==> !Scanned(k, data[i].1, minVolume))
        ensures (k in PingUpdates(pingMap, data, minVolume) <==> k in pingMap) &&
                (k in pingMap ==> PingUpdates(pingMap, data, minVolume)[k] == pingMap[k])
      {
        assert forall i :: 0 <= i < |init| && init[i].0 == k ==> !Scanned(k, init[i].1, minVolume) by {
          forall i | 0 <= i < |init| && init[i].0 == k
            ensures !Scanned(k, init[i].1, minVolume)
          {
            assert data[i] == init[i];
          }
        }
      }
    }
  }

  /** The member loop: rows for the table and the updated `pingMap`;
      `clock(n)` is the clock read at member `n`'s first pong. */
  method CollectNetRows(data: seq<(string, NetVolumeEntry)>, minVolume: real, clock: nat -> int, pingMap0: map<string, nat>)
    returns (rows: seq<NetVolumeRow>, pingMap: map<string, nat>)
    ensures rows == NetRows(data, minVolume, clock)
    ensures pingMap == PingUpdates(pingMap0, data, minVolume)
  {
    rows := [];
    pingMap := pingMap0;
    for n := 0 to |data|
      invariant rows == NetRows(data[..n], minVolume, clock)
      invariant pingMap == PingUpdates(pingMap0, data[..n], minVolume)
    {
      assert data[..n + 1][..n] == data[..n];
      var (key, e) := data[n];
      if !EndsWith(key, "BTC") {
        continue;
      }
      if e.vol < minVolume {
        continue;
      }
      if e.v24h.None? || e.nvh.None? || e.vh.None? {
        continue;
      }
      var pongs, timestamp := ScanPongs(e.nvh.value, e.v24h.value, |e.vh.value|, clock(n));
      pingMap := pingMap[key := pongs];
      if pongs > 0 {
        FirstPongIsFirst(e.nvh.value, e.v24h.value, |e.vh.value|);
        rows := rows + [NetVolumeRow(key, pongs, timestamp.value, e.vol, e.nv60, e.v60, e.rsi15)];
      }
    }
    assert data[..|data|] == data;
  }

  /** The comparator `(a, b) => b.timestamp - a.timestamp`. */
  function ByTimestampDesc(): (NetVolumeRow, NetVolumeRow) -> bool {
    ByKeyDesc((r: NetVolumeRow) => r.timestamp as real)
  }

  lemma NetTableSorted(data: seq<(string, NetVolumeEntry)>, minVolume: real, clock: nat -> int)
    ensures var rows := NetRows(data, minVolume, clock);
            multiset(Sort(rows, ByTimestampDesc())) == multiset(rows)
    ensures var t := Sort(NetRows(data, minVolume, clock), ByTimestampDesc());
            forall i, j :: 0 <= i < j < |t| ==> t[i].timestamp >= t[j].timestamp
  {
    SortByKeyDesc(NetRows(data, minVolume, clock), (r: NetVolumeRow) => r.timestamp as real);
  }

  class NetvolumezComponent {
    var tickers: seq<NetVolumeRow>
    var interval: nat
    var min24HourVolume: real
    var pingBuyVolumeChange: real
    var pingMap: map<string, nat>

    constructor()
      ensures tickers == [] && interval == 1 && min24HourVolume == 0.0
      ensures pingBuyVolumeChange == 0.0 && pingMap == map[]
    {
      tickers := [];
      interval := 1;
      min24HourVolume := 0.0;
      pingBuyVolumeChange := 0.0;
      pingMap := map[];
    }

    /** `bucket` with the page's window size. */
    method Bucket(nvh: seq<real>) returns (output: seq<real>)
      ensures output == FullBuckets(nvh, interval)
    {
      output := [];
      for i := 0 to |nvh|
        invariant output == FullBucketsBelow(nvh, interval, i)
      {
        var part := nvh[i..Min(i + interval, |nvh|)];
        if |part| < interval {
        } else {
          var sum := SumOf(part);
          output := output + [sum];
        }
      }
    }

    /** One refresh with the decoded response members; `clock(n)` is the
        clock read at member `n`'s first pong. */
    method Refresh(data: seq<(string, NetVolumeEntry)>, clock: nat -> int)
      modifies this
      ensures interval == old(interval) && min24HourVolume == old(min24HourVolume)
      ensures pingBuyVolumeChange == old(pingBuyVolumeChange)
      ensures pingMap == PingUpdates(old(pingMap), data, min24HourVolume)
      ensures tickers == Sort(NetRows(data, min24HourVolume, clock), ByTimestampDesc())
    {
      var rows, pings := CollectNetRows(data, min24HourVolume, clock, pingMap);
      pingMap := pings;
      tickers := Sort(rows, ByTimestampDesc());
    }
  }
}
