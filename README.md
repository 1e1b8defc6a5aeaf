# Crypto scanner: a verified model

This project models the core of a cryptocurrency market scanner. The scanner
has two parts. A Go server subscribes to an exchange's trade and 24-hour
ticker streams and keeps a tracker per market symbol. It fans the tracked
state out to websocket clients and proxies REST requests to the exchange.
An Angular web client renders that state as live tables, monitors,
volume pages and an order book.

The model has one Dafny module per core source file and a few shared modules.

Shared modules:

- `Wrappers`: Option and Result. They stand for nil pointers, JavaScript
  null values, Go panics and JavaScript exceptions.
- `Text`: anchored suffix replacement, ASCII case mapping,
  `split(/[\s,]/)` with empty entries dropped, `indexOf`, and the
  code-unit order on strings.
- `Sorting`: `Array.prototype.sort` with a comparator, as a stable
  insertion sort.
- `JsObject`: a JavaScript object used as a dictionary, with its key
  insertion order.
- `GoTime`: `time.Duration` arithmetic. Products wrap around at 64 bits
  and `Time.Sub` saturates.

Server trackers:

- `Tracking` holds the rules shared by the trackers:
  - the one-hour tick window;
  - pruning trades by age;
  - open/high/low/close candles per interval.
- `ServerTracker`, `GoPkgTracker` and `PkgTracker` are the three tracker
  generations. Each is a class updated in place, plus a map of trackers.
- `VolumeHistogram`: the 60-bucket per-minute volume histogram, over
  arrays.

Streams and the server:

- `Streams`: the per-subscriber backlog rule of `Publish`, the stream
  names and the cached-batch reload.
- `GoTradeStream`, `GoTickerStream`, `GoPkgTradeStream`,
  `PkgTickerStream` and `PkgTradeStream`: the stream classes.
- `BinanceRunner`: the subscriber registry and one ticker round.
- `WebSocket`: the client index by path, the message cache subscribers,
  the message builders and the update-interval throttle.
- `ApiProxy`: the REST proxy with its one-second cache.

Client pages:

- `Live`: the live table pipeline.
- `Monitor`: the boards, alerts and cool-downs.
- `VolumePings`, `NetVolumez` and `NewVolume`: the volume pages.
- `Symbol`, `OrderBook` and `OrderBookView`: the symbol page, the
  order-book synchroniser and its table.
- `Hodloo`: the chart-link pipe.

Each operation that changes state is a method. Its contract ties the new
state to a specification function, and lemmas prove what the source
promises about those functions.

The model gives the wall clock, randomness in map iteration order, and the
readiness of a channel to receive as parameters. It takes nothing from I/O.

## Model

| member | source | states |
|---|---|---|
| Symbol.ExchangeSymbolRewritesOneSuffix | webapp/src/app/binance/symbol/symbol.component.ts:375-378 | at most one suffix is rewritten, the first of BTC, ETH, BNB and USDT that the symbol ends with; ETH becomes "_ETC"; a symbol with none is unchanged |
| Symbol.ExchangeSymbolOfEthMarket | webapp/src/app/binance/symbol/symbol.component.ts:375-378 | "NEOETH" becomes "NEO_ETC", the ETH suffix rewritten to the exchange's "_ETC" |
| Symbol.ExchangeSymbolOfBtcMarket | webapp/src/app/binance/symbol/symbol.component.ts:375-378 | "NEOBTC" becomes "NEO_BTC" |
| Symbol.ReplaceSuffixByEmptyIsPrefix | webapp/src/app/binance/symbol/symbol.component.ts:412-416 | removing a suffix leaves a prefix |
| Symbol.BaseAssetIsPrefix | webapp/src/app/binance/symbol/symbol.component.ts:412-416 | the base asset is always a prefix of the symbol |
| Symbol.StripSuffix | webapp/src/app/binance/symbol/symbol.component.ts:412-416 | removing a suffix that is present gives back what precedes it |
| Symbol.BaseAssetStripsTwice | webapp/src/app/binance/symbol/symbol.component.ts:412-416 | because the suffixes are stripped in sequence, "ETHBTC" and "BNBBTC" both have the empty base asset |
| Symbol.BaseAssetOfUsdtMarket | webapp/src/app/binance/symbol/symbol.component.ts:412-416 | "BTCUSDT" has base "BTC" |
| Symbol.BaseAssetOfBtcMarket | webapp/src/app/binance/symbol/symbol.component.ts:412-416 | "XRPBTC" has base "XRP" |
| Symbol.SymbolTrades.constructor | webapp/src/app/binance/symbol/symbol.component.ts:264-274 | no trades and no last price yet |
| Symbol.SymbolTrades.AddTrade | webapp/src/app/binance/symbol/symbol.component.ts:515-521 | the new trade goes first, the history is the newest 20 trades at most, and the last price is the new trade's |
| OrderBook.UpsertEffect | webapp/src/app/binance/symbol/symbol.component.ts:655-668 | after the snapshot loops a price is present iff it was before or some level names it, with the quantity of the last level naming it, zero included, or its old one |
| OrderBook.ApplyLevelsEffect | webapp/src/app/binance/symbol/symbol.component.ts:696-717 | after a diff a price's entry is decided by the last level naming it, deleted iff that quantity is 0; unnamed prices keep their entry or absence |
| OrderBook.DrainFinalId | webapp/src/app/binance/symbol/symbol.component.ts:670-697 | the drained id is the largest of the snapshot id and the queued final ids |
| OrderBook.DrainStaleIsNoOp | webapp/src/app/binance/symbol/symbol.component.ts:670-675 | queued diffs that the id already covers change nothing |
| OrderBook.DrainExample | webapp/src/app/binance/symbol/symbol.component.ts:670-697 | with snapshot 100 and queued ids 103, 95, 101, only 103 is applied |
| OrderBook.NonEmptyHasPrice | webapp/src/app/binance/symbol/symbol.component.ts:683 | a non-empty side has a price |
| OrderBook.KeysOf | webapp/src/app/binance/symbol/symbol.component.ts:683-689 | `Object.keys` of a side lists every price exactly once |
| OrderBook.SortedKeysView | webapp/src/app/binance/symbol/symbol.component.ts:682-694 | keys sorted best-first, paired with their quantities and cut to the depth, form the rendered view of the side |
| OrderBook.SideView | webapp/src/app/binance/symbol/symbol.component.ts:682-694 | a rendered side is the best 30 levels at most (bids strictly descending, asks strictly ascending), each a current entry, with every omitted price behind the last shown |
| OrderBook.OrderBookTracker.constructor | webapp/src/app/binance/symbol/symbol.component.ts:639-653 | id 0, not initialised, empty queue, maps and rendered sides |
| OrderBook.OrderBookTracker.Render | webapp/src/app/binance/symbol/symbol.component.ts:682-694 | the rendered sides show the current maps, and nothing else changes |
| OrderBook.ApplyDiff | webapp/src/app/binance/symbol/symbol.component.ts:699-717 | one side's diff loop leaves the side as the levels applied in order, a zero quantity deleting its price |
| OrderBook.OrderBookTracker.ProcessUpdate | webapp/src/app/binance/symbol/symbol.component.ts:696-720 | the id becomes the diff's final id, each side takes the diff's levels in order, and the render is refreshed |
| OrderBook.OrderBookTracker.Initialize | webapp/src/app/binance/symbol/symbol.component.ts:655-680 | the snapshot is loaded over the current maps, not clearing them and keeping zero quantities; then the queue is drained in order; the queue ends empty and the tracker initialised |
| OrderBook.OrderBookTracker.Update | webapp/src/app/binance/symbol/symbol.component.ts:722-731 | a diff whose final id is covered is discarded; otherwise it is queued before initialisation and applied after it; the id never decreases |
| OrderBookView.SumQtyBounds | webapp/src/app/binance/symbol/orderbook/orderbook.component.ts:52-55 | a sum of amounts lies between count times the smallest and count times the largest |
| OrderBookView.MeanWithinBounds | webapp/src/app/binance/symbol/orderbook/orderbook.component.ts:52-56 | the intended average of the shown amounts lies between the smallest and the largest amount |
| OrderBookView.AverageAsWrittenDropsLastLevel | webapp/src/app/binance/symbol/orderbook/orderbook.component.ts:52-56 | as written, one level of amount 5 averages to 0, where the mean is 5 |
| OrderBookView.AverageAmountAsWritten | webapp/src/app/binance/symbol/orderbook/orderbook.component.ts:51-56 | the loop sums every shown amount except the last and divides by the number shown; no level gives 0/0, here none |
| OrderBookView.MeanAmount | webapp/src/app/binance/symbol/orderbook/orderbook.component.ts:51-56 | the corrected loop computes the mean of all shown amounts, none when nothing is shown |
| OrderBookView.OrderbookComponent.constructor | webapp/src/app/binance/symbol/orderbook/orderbook.component.ts:34-43 | inputs as given, nothing shown, both averages 0 |
| OrderBookView.OrderbookComponent.NgOnChanges | webapp/src/app/binance/symbol/orderbook/orderbook.component.ts:48-63 | the shown sides are the first 20 levels of each input, the inputs are untouched, and each average is the as-written average of its shown side |
| Hodloo.HyphenatedOneSuffix | webapp/src/app/hodloo-link.pipe.ts:9-13 | at most one suffix gets a hyphen, the first of BTC, ETH, USDT and BNB the symbol ends with; others are unchanged |
| Hodloo.HodlooLinkShape | webapp/src/app/hodloo-link.pipe.ts:9-15 | the link starts with the Hodloo prefix and continues with the hyphenated symbol fully lower-cased, independently of the exchange argument |
| Hodloo.HodlooLinkOfEthBtc | webapp/src/app/hodloo-link.pipe.ts:9-15 | "ETHBTC" is linked as "eth-btc" |
| Tracking.MetricsFor | go/server/tickertracker.go:121-123 | metrics exist for exactly the listed buckets, all zero |
| Tracking.LeadingIsLongest | go/server/tickertracker.go:476-488 | the counted prefix is the longest whose elements all satisfy the test |
| Tracking.LeadingOfTail | go/server/tickertracker.go:350-358 | dropping one leading stale element and then the rest is the same as dropping from the whole |
| Tracking.TickWindowKeepsNewTick | go/server/tickertracker.go:347-359 | after `Update` the new tick is last and never dropped; the kept ticks are a suffix of the old ones; every dropped tick is more than 60 minutes and 1 ns older than the new one, and the first kept tick is not |
| Tracking.SlideWindow | go/server/tickertracker.go:349-358 | the append-then-drop-from-the-front loop yields the window function; also go/pkg/tickertracker.go:284-296: the same loop in the second revision; also pkg/tickertracker.go:218-230: the same loop in the exchange-neutral package |
| Tracking.PruneAged | go/server/tickertracker.go:476-488 | the `chop` loop drops exactly the leading trades aged at least the limit; also go/pkg/tickertracker.go:413-425: the same loop with a one-hour limit; also pkg/tickertracker.go:249-261: the same loop with a one-hour limit |
| Tracking.PruneRemovesAgedPrefix | go/server/tickertracker.go:476-488 | pruning keeps a suffix; every removed trade was aged at least the limit, and the first kept one, if any, was not |
| Tracking.MinuteStepShape | go/server/tickertracker.go:377-421 | the last 1-minute candle is the trade's minute and closes at its price; earlier candles are untouched; a same-minute trade keeps time and open and widens the range; otherwise exactly one candle is appended, opening at the previous close; candles stay well formed; also go/pkg/tickertracker.go:314-358: the same 1-minute rule in the second revision |
| Tracking.IntervalStepShape | go/server/tickertracker.go:423-473 | a longer interval's last candle closes at the 1-minute close; same period: time and open kept, range widened by that close only; new period: one candle opening at the previous close with the 1-minute high and low; first candle: the 1-minute candle at the period start; also go/pkg/tickertracker.go:360-410: the same longer-interval rule in the second revision |
| Tracking.AddMinuteCandle | go/server/tickertracker.go:377-421 | the 1-minute branch with its gap loop, as written, yields the 1-minute step function |
| Tracking.AddIntervalCandle | go/server/tickertracker.go:425-473 | one interval's branch with its gap loop, as written, yields the interval step function |
| Tracking.IntervalSteps | go/server/tickertracker.go:425-473 | every series stays non-empty |
| Tracking.Aggregate | go/server/tickertracker.go:377-473 | every series stays non-empty after a trade |
| Tracking.AggregateTrade | go/server/tickertracker.go:377-473 | the candle part of `AddTrade`, 1-minute first and then each longer bucket, yields the aggregate function; also go/pkg/tickertracker.go:314-410: the same candle loop in the second revision |
| Tracking.IntervalStepsWellFormed | go/server/tickertracker.go:425-473 | every candle of every series keeps low at or below close at or below high |
| Tracking.IntervalStepsClose | go/server/tickertracker.go:425-473 | each stepped interval's last candle closes at the 1-minute close; other keys are untouched |
| Tracking.AggregateKeeps | go/server/tickertracker.go:361-473 | after a trade every bucket has a series whose last candle closes at the trade's price, well-formedness is preserved, and series of other keys are unchanged |
| Tracking.MinuteStepLosesGapCandles | go/server/tickertracker.go:398-419 | as written, a trade three minutes after the only candle leaves a series that jumps from minute 0 to minute 3; the filled step has all four minutes |
| Tracking.FillersShape | go/server/tickertracker.go:399-409 | the intended fillers run a minute apart from the first missing minute to the one before the trade's |
| Tracking.MinuteStepFilledContiguous | go/server/tickertracker.go:398-419 | with gap filling, consecutive 1-minute candles stay consecutive after any later trade |
| ServerTracker.TickerTracker.constructor | go/server/tickertracker.go:112-126 | the symbol, no ticks, trades or candles, and zeroed metrics for exactly the seven buckets |
| ServerTracker.TickerTracker.LastTick | go/server/tickertracker.go:128-133 | none exactly when there are no ticks, otherwise the last tick |
| ServerTracker.TickerTracker.Update | go/server/tickertracker.go:347-359 | the ticks become the one-hour window ending at the new tick, `LastUpdate` the clock, and nothing else changes |
| ServerTracker.TickerTracker.AddTrade | go/server/tickertracker.go:361-474 | a trade without a symbol changes nothing; any other, even out of order, is appended and aggregated into every bucket's candles, keeping candles well formed |
| ServerTracker.TickerTracker.PruneTrades | go/server/tickertracker.go:476-488 | the trades lose exactly their longest prefix aged 210 minutes or more |
| ServerTracker.NewMetricsBuckets | go/server/tickertracker.go:100-126 | a new tracker has metrics for exactly 1, 2, 3, 5, 10, 15 and 60 minutes, and none for 4 |
| ServerTracker.AddTradeCandles | go/server/tickertracker.go:377-473 | after a trade every bucket's last candle closes at the trade's price |
| ServerTracker.TickerTrackerMap.constructor | go/server/tickertracker.go:495-499 | no trackers |
| ServerTracker.TickerTrackerMap.GetTracker | go/server/tickertracker.go:501-517 | none for "", the stored tracker when present, otherwise a new empty tracker stored under the symbol |
| GoPkgTracker.TickerTracker.constructor | go/pkg/tickertracker.go:89-103 | the symbol, no ticks, trades or candles, and zeroed metrics for exactly the eight buckets |
| GoPkgTracker.TickerTracker.LastTick | go/pkg/tickertracker.go:105-110 | none exactly when there are no ticks, otherwise the last tick |
| GoPkgTracker.TickerTracker.Update | go/pkg/tickertracker.go:284-296 | the ticks become the one-hour window ending at the new tick, and nothing else but `LastUpdate` changes |
| GoPkgTracker.TickerTracker.AddTrade | go/pkg/tickertracker.go:298-411 | a trade without a symbol changes nothing; any other is appended and aggregated into every bucket's candles |
| GoPkgTracker.TickerTracker.PruneTrades | go/pkg/tickertracker.go:413-425 | the trades lose exactly their longest prefix aged one hour or more |
| GoPkgTracker.NewMetricsBuckets | go/pkg/tickertracker.go:76-103 | a new tracker has metrics for exactly 1, 2, 3, 4, 5, 10, 15 and 60 minutes |
| GoPkgTracker.AddTradeCandles | go/pkg/tickertracker.go:314-410 | after a trade every bucket's last candle closes at the trade's price |
| GoPkgTracker.TickerTrackerMap.constructor | go/pkg/tickertracker.go:432-436 | no trackers |
| GoPkgTracker.TickerTrackerMap.GetTracker | go/pkg/tickertracker.go:438-454 | none for "", the stored tracker when present, otherwise a new empty tracker stored under the symbol |
| PkgTracker.TickerTracker.constructor | pkg/tickertracker.go:72-85 | the symbol, no ticks or trades, and zeroed metrics for exactly the eight buckets |
| PkgTracker.TickerTracker.LastTick | pkg/tickertracker.go:87-92 | none exactly when there are no ticks, otherwise the last tick |
| PkgTracker.TickerTracker.Update | pkg/tickertracker.go:218-230 | the ticks become the one-hour window ending at the new tick |
| PkgTracker.TickerTracker.AddTrade | pkg/tickertracker.go:232-247 | a trade without a symbol changes nothing; any other is appended, with no candles |
| PkgTracker.TickerTracker.PruneTrades | pkg/tickertracker.go:249-261 | the trades lose exactly their longest prefix aged one hour or more |
| PkgTracker.TickerTrackerMap.constructor | pkg/tickertracker.go:268-272 | no trackers |
| PkgTracker.TickerTrackerMap.GetTracker | pkg/tickertracker.go:274-290 | none for "", the stored tracker when present, otherwise a new empty tracker stored under the symbol |
| VolumeHistogram.AgeBucketMinutes | go/metrics/volumehistogram.go:45-47 | a trade of non-negative age lands in the bucket of its whole minutes; less than a minute in the future gives bucket 0; a minute or more gives a negative bucket |
| VolumeHistogram.VolumeHistogramCalculator.constructor | go/metrics/volumehistogram.go:40-42 | six distinct 60-bucket arrays, all zero, balanced |
| VolumeHistogram.VolumeHistogramCalculator.AddTrade | go/metrics/volumehistogram.go:44-59 | a trade a minute or more in the future gets a negative bucket and panics, with nothing changed; a bucket of 60 or more changes nothing; otherwise only that bucket changes, on the sell side for a buyer-maker trade and on the buy side otherwise, and totals stay the sum of buy and sell |
| VolumePings.FallsFromCounts | webapp/src/app/binance-volume/binance-volume.component.ts:52-56 | the ping count is the number of indices at which the histogram falls from the previous minute, and at most one less than the histogram's length |
| VolumePings.CalculatePings | webapp/src/app/binance-volume/binance-volume.component.ts:46-58 | a missing or empty histogram has no pings; otherwise the downward loop counts exactly the falling indices, at most length minus one |
| VolumePings.VolumeRowsListBtc | webapp/src/app/binance-volume/binance-volume.component.ts:25-38 | a row exists exactly for each member whose key ends in "BTC", carrying that member's pings, volume, 60-minute net volume and 60-minute volume |
| VolumePings.CollectRows | webapp/src/app/binance-volume/binance-volume.component.ts:24-38 | the member loop skips non-BTC keys and pushes the rows of the others in response order |
| VolumePings.VolumeTableSorted | webapp/src/app/binance-volume/binance-volume.component.ts:39-41 | the table is a permutation of the collected rows, with pings non-increasing |
| VolumePings.BinanceVolumeComponent.constructor | webapp/src/app/binance-volume/binance-volume.component.ts:11 | the table starts empty |
| VolumePings.BinanceVolumeComponent.Refresh | webapp/src/app/binance-volume/binance-volume.component.ts:20-42 | after a refresh the table is the BTC rows sorted most pings first |
| NewVolume.Window | webapp/src/app/binance-newvolume/binance-newvolume.component.ts:145 | the slice from an index has `interval` values, cut short at the end of the histogram |
| NewVolume.Buckets | webapp/src/app/binance-newvolume/binance-newvolume.component.ts:141-153 | `bucket` yields one window sum per input value, so its output is as long as its input |
| NewVolume.SumOf | webapp/src/app/binance-newvolume/binance-newvolume.component.ts:146-149 | the inner loop yields the sum of the window |
| NewVolume.Bucket | webapp/src/app/binance-newvolume/binance-newvolume.component.ts:141-153 | the outer loop's output at every index is the sum of the window starting there |
| NewVolume.BucketsOfOne | webapp/src/app/binance-newvolume/binance-newvolume.component.ts:141-153 | with a 1-minute interval the smoothed histogram equals the input |
| NewVolume.ScorePings | webapp/src/app/binance-newvolume/binance-newvolume.component.ts:109-119 | the downward loop scores `60 - i` for a fall at index `i` and counts the falls |
| NewVolume.ScoreNeedsFall | webapp/src/app/binance-newvolume/binance-newvolume.component.ts:121-124 | a positive score implies at least one fall, so the average `pings / pingCount` never divides by zero |
| NewVolume.FallScores | webapp/src/app/binance-newvolume/binance-newvolume.component.ts:114-121 | on a histogram of at most 60 values the score is non-negative and positive exactly when there is a fall |
| NewVolume.NewVolumeRowsListed | webapp/src/app/binance-newvolume/binance-newvolume.component.ts:93-131 | a row exists exactly for each BTC member with a histogram, 24-hour volume not below the minimum and a positive score, and every row's average score is positive |
| NewVolume.CollectNewVolumeRows | webapp/src/app/binance-newvolume/binance-newvolume.component.ts:91-131 | the member loop with its three `continue` filters and the score test yields exactly those rows, in response order |
| NewVolume.NewVolumeTableSorted | webapp/src/app/binance-newvolume/binance-newvolume.component.ts:135-137 | the table is a permutation of the collected rows, with average score non-increasing |
| NewVolume.NewvolumeComponent.constructor | webapp/src/app/binance-newvolume/binance-newvolume.component.ts:13-19 | an empty table, minimum 24-hour volume 0 and a 5-minute interval |
| NewVolume.NewvolumeComponent.Refresh | webapp/src/app/binance-newvolume/binance-newvolume.component.ts:86-139 | the settings are unchanged and the table is the qualifying rows sorted by average score, highest first |
| NetVolumez.FullBucketsBelowShape | webapp/src/app/binance-netvolumez/binance-netvolumez.component.ts:110-125 | with a positive window size, the windows cut short by the end are skipped, and bucket `j` is the sum of the `interval` values starting at `j` |
| NetVolumez.FullBucketsShape | webapp/src/app/binance-netvolumez/binance-netvolumez.component.ts:110-125 | `bucket` returns `n - interval + 1` full-window sums (none when the histogram is shorter than a window) |
| NetVolumez.NetvolumezComponent.Bucket | webapp/src/app/binance-netvolumez/binance-netvolumez.component.ts:110-125 | the nested loops yield exactly the full-window sums at the page's interval |
| NetVolumez.FirstPongIsFirst | webapp/src/app/binance-netvolumez/binance-netvolumez.component.ts:73-81 | there are pongs exactly when a first pong exists, it is a pong with no pong before it, and the count is at most the number of minutes scanned |
| NetVolumez.ScanPongs | webapp/src/app/binance-netvolumez/binance-netvolumez.component.ts:73-81 | the loop over the volume histogram's minutes counts the minutes whose net volume exceeds 0.3 percent of the 24-hour volume, and stamps the first such minute `i` as `i` minutes before the clock |
| NetVolumez.NetRowOf | webapp/src/app/binance-netvolumez/binance-netvolumez.component.ts:78-97 | a shown member's row carries its symbol and pong count, and a timestamp a whole number of minutes, fewer than the histogram's length, before the clock read at its first pong |
| NetVolumez.NetRowsShown | webapp/src/app/binance-netvolumez/binance-netvolumez.component.ts:44-101 | a row exists exactly for each BTC member with enough volume, all three histograms and at least one pong, stamped with the clock read at that member |
| NetVolumez.PingUpdatesEffect | webapp/src/app/binance-netvolumez/binance-netvolumez.component.ts:82-86 | each scanned member's pong count, zero included, is recorded under its key; keys of members filtered out earlier keep their previous entry or stay absent |
| NetVolumez.CollectNetRows | webapp/src/app/binance-netvolumez/binance-netvolumez.component.ts:43-101 | the member loop yields exactly those rows, in response order, each with its own clock reading, and the updated ping map |
| NetVolumez.NetTableSorted | webapp/src/app/binance-netvolumez/binance-netvolumez.component.ts:104-106 | the table is a permutation of the rows, most recent first pong first, so a later clock reading sorts a same-minute pong first |
| NetVolumez.NetvolumezComponent.constructor | webapp/src/app/binance-netvolumez/binance-netvolumez.component.ts:12-37 | an empty table and ping map, a 1-minute interval, minimum volume 0 and ping buy-volume change 0 |
| NetVolumez.NetvolumezComponent.Refresh | webapp/src/app/binance-netvolumez/binance-netvolumez.component.ts:39-108 | the settings are unchanged, the ping map gets every scanned member's pongs, and the table is the rows, each stamped with the clock read at its first pong, sorted by first-pong time, latest first |
| Streams.Channel.constructor | go/binance/tradestream.go:64 | a channel with the given capacity |
| Streams.DeliverKeepsOrder | go/binance/tradestream.go:164-188 | one `Publish` for one subscriber reorders nothing: sent then still queued is the old backlog, plus the new item exactly when the backlog drained; exactly as many items are sent as the channel accepts, up to all of them |
| Streams.DeliverOne | go/binance/tradestream.go:167-186 | the drain loop sends the backlog front-first while the channel accepts; a blocked backlog drops the new trade, a drained one sends it or else queues it; also go/pkg/binance/tradestream.go:158-177: the same drain rule in the second server revision; also go/binance/tickerstream.go:65-81: the same drain rule for ticker batches; also pkg/binance/tickerstream.go:64-81: the same drain rule for common-ticker batches |
| Streams.NonEmptyHasChannel | go/binance/tradestream.go:167 | a non-empty subscriber set has a member to range over next |
| Streams.PublishAll | go/binance/tradestream.go:164-188 | every subscriber, in any map order, gets exactly the delivery rule applied to its own backlog and room; no subscriber is added or lost; also go/pkg/binance/tradestream.go:155-179: the same fan-out over all subscribers in the second server revision; also go/binance/tickerstream.go:62-83: the same fan-out for ticker batches; also pkg/binance/tickerstream.go:61-82: the same fan-out for common-ticker batches |
| Streams.ReplayInOrder | go/binance/tradestream.go:164-188 | over any run of publishes, what a subscriber was sent followed by what it still has queued is its old backlog followed by the kept items in publish order; a dropped item is never sent later; also go/pkg/binance/tradestream.go:155-179: per subscriber, delivered trades keep publish order in the second server revision |
| Streams.ReplayNoBacklog | go/binance/tradestream.go:180-184 | a subscriber with no backlog whose channel always accepts receives every item, in order, and never queues |
| Streams.ReplayBlocked | go/binance/tradestream.go:175-186 | a subscriber whose channel refuses everything while a backlog waits receives nothing, keeps its backlog and drops every new item |
| Streams.StreamNameShape | go/binance/tradestream.go:204-207 | a stream name ends in "@aggTrade" after the lower-cased symbol, and two symbols share a stream exactly when they agree case-insensitively |
| Streams.GetStreams | go/binance/tradestream.go:198-210 | one stream name per symbol, in order; a failed symbol request yields no streams and no error; also go/pkg/binance/tradestream.go:189-201: the same name mapping and swallowed error in the second server revision; also pkg/binance/tradestream.go:218-230: the same name mapping in the exchange-neutral package |
| Streams.LoadedRows | go/binance/tickerstream.go:125-136 | every reloaded batch is a decoded non-empty row, and every decoded non-empty row is reloaded |
| Streams.LoadedAppend | go/binance/tickerstream.go:125-136 | the rows are filtered one by one, so reloading the concatenation of two queries concatenates their batches, keeping query order |
| Streams.LoadCache | go/binance/tickerstream.go:108-140 | a failed query reloads nothing; otherwise the reloaded batches are exactly the filtered rows in query order; also pkg/binance/tickerstream.go:124-156: the same skip rules for the exchange-neutral package |
| GoTradeStream.TradeStream.constructor | go/binance/tradestream.go:47-59 | no subscribers |
| GoTradeStream.TradeStream.Subscribe | go/binance/tradestream.go:61-67 | a fresh channel of capacity 1024 registered with an empty backlog |
| GoTradeStream.TradeStream.Unsubscribe | go/binance/tradestream.go:69-73 | the channel and its backlog are removed |
| GoTradeStream.TradeStream.Publish | go/binance/tradestream.go:164-188 | every subscriber's new backlog and sent trades are those of the delivery rule |
| GoPkgTradeStream.TradeStream.constructor | go/pkg/binance/tradestream.go:38-50 | no subscribers |
| GoPkgTradeStream.TradeStream.Subscribe | go/pkg/binance/tradestream.go:52-58 | a fresh channel of capacity 1024 registered with an empty backlog |
| GoPkgTradeStream.TradeStream.Unsubscribe | go/pkg/binance/tradestream.go:60-64 | the channel and its backlog are removed |
| GoPkgTradeStream.TradeStream.Publish | go/pkg/binance/tradestream.go:155-179 | every subscriber's new backlog and sent trades are those of the delivery rule |
| GoTickerStream.TickerStream.constructor | go/binance/tickerstream.go:34-46 | no subscribers |
| GoTickerStream.TickerStream.Subscribe | go/binance/tickerstream.go:48-54 | a fresh unbuffered channel registered with an empty backlog |
| GoTickerStream.TickerStream.Unsubscribe | go/binance/tickerstream.go:56-60 | the channel and its backlog are removed |
| GoTickerStream.TickerStream.Publish | go/binance/tickerstream.go:62-83 | every subscriber's new backlog and sent batches are those of the delivery rule |
| PkgTickerStream.TransformTickers | pkg/binance/tickerstream.go:98-104 | one converted ticker per input ticker, in input order |
| PkgTickerStream.TickerStream.constructor | pkg/binance/tickerstream.go:33-45 | no subscribers |
| PkgTickerStream.TickerStream.Subscribe | pkg/binance/tickerstream.go:47-53 | a fresh unbuffered channel registered with an empty backlog |
| PkgTickerStream.TickerStream.Unsubscribe | pkg/binance/tickerstream.go:55-59 | the channel and its backlog are removed |
| PkgTickerStream.TickerStream.Publish | pkg/binance/tickerstream.go:61-82 | every subscriber's new backlog and sent batches are those of the delivery rule |
| PkgTradeStream.RunOrder | pkg/binance/tradestream.go:112-200 | with the sentinel last on the cache channel: the loop is past the cache exactly when the sentinel arrived; published then queued is all cached trades then all live trades; before the sentinel, only cached trades are published and every live trade waits in order |
| PkgTradeStream.TradeStream.constructor | pkg/binance/tradestream.go:34-45 | no subscribers |
| PkgTradeStream.TradeStream.Subscribe | pkg/binance/tradestream.go:47-53 | a fresh unbuffered channel is registered |
| PkgTradeStream.TradeStream.Unsubscribe | pkg/binance/tradestream.go:55-59 | the channel is removed |
| PkgTradeStream.TradeStream.Publish | pkg/binance/tradestream.go:202-208 | every registered subscriber receives the trade, and no other channel receives anything |
| PkgTradeStream.TradeStream.RestoreFromCache | pkg/binance/tradestream.go:61-110 | the nil sentinel is always sent, last, also when the query fails; before it come the decodable cached trades in query order |
| PkgTradeStream.TradeStream.Run | pkg/binance/tradestream.go:112-200 | the select loop's flag, queue and published trades are those of the step function: a cached trade is published at once, the sentinel only sets the flag, a live trade before it is queued, and the first live trade after it flushes the queue in order before itself |
| BinanceRunner.UnsubscribeEffect | go/server/binancerunner.go:54-60 | unsubscribing an unknown symbol or channel changes nothing; otherwise only that channel leaves, and every symbol keeps its entry, possibly empty |
| BinanceRunner.SubscribeUnsubscribe | go/server/binancerunner.go:42-60 | subscribing a fresh channel and unsubscribing it again restores the registry, except that the symbol's inner map now exists |
| BinanceRunner.IncludedExactly | go/server/binancerunner.go:137-142 | a tracker is in a round's broadcast exactly when its last update is not before the previous round, in map order |
| BinanceRunner.BinanceRunner.constructor | go/server/binancerunner.go:35-40 | no subscribers (the nil map reads as empty), with the round clock of `Run` starting at the given time |
| BinanceRunner.BinanceRunner.Subscribe | go/server/binancerunner.go:42-52 | a fresh unbuffered channel is added under the symbol, whose inner map is created when missing |
| BinanceRunner.BinanceRunner.Unsubscribe | go/server/binancerunner.go:54-60 | the registry becomes the unsubscribe function of the old one |
| BinanceRunner.BinanceRunner.TickerRound | go/server/binancerunner.go:121-186 | an empty batch does nothing; otherwise the broadcast lists the included trackers, exactly the ready subscribers of included symbols receive their update, blocked ones miss it, and the round clock moves to now |
| Live.AsNumber | webapp/src/app/live/live.component.ts:652-661 | null and "" give no number; any number returned is the parse of non-empty text |
| Live.Blacklist.constructor | webapp/src/app/live/live.component.ts:897-905 | the entries are the text split on whitespace and commas, empty pieces dropped |
| Live.Blacklist.Match | webapp/src/app/live/live.component.ts:907-914 | the loop finds a match iff some entry equals the item ignoring case |
| Live.Whitelist.constructor | webapp/src/app/live/live.component.ts:917-925 | the entries are the text split on whitespace and commas, empty pieces dropped |
| Live.Whitelist.Match | webapp/src/app/live/live.component.ts:927-937 | an empty list matches everything; otherwise the loop finds a match iff some entry equals the item ignoring case |
| Live.ListMatchIgnoresCase | webapp/src/app/live/live.component.ts:907-937 | black- and whitelist membership do not depend on the item's case, and an empty whitelist admits every symbol |
| Live.FilterTickersSelects | webapp/src/app/live/live.component.ts:701-771 | a ticker is kept iff it passes the black/white/base tests, is not the held symbol and passes every bound; a plucked ticker passes the list tests and is the held symbol; nothing is plucked only when no such ticker is held |
| Live.TickerOrderIsTotalPreorder | webapp/src/app/live/live.component.ts:842-858 | the `sortTickers` comparison is total and transitive for every sort key and order |
| Live.SortTickersOrders | webapp/src/app/live/live.component.ts:842-858 | sorting is a permutation; by symbol it is reverse lexicographic for "desc" and ascending otherwise; by a numeric field ascending for "asc" and descending otherwise |
| Live.WatchSplit | webapp/src/app/live/live.component.ts:775-781 | the watched and unwatched parts together are a permutation of the sorted tickers, split by membership in the watching set |
| Live.WatchOrderShape | webapp/src/app/live/live.component.ts:775-781 | the watching pass is a permutation that places exactly the watched tickers first |
| Live.MoveStep | webapp/src/app/live/live.component.ts:776-780 | one step of the loop moves a watched ticker to the front and leaves an unwatched one in place |
| Live.MoveWatchedFirst | webapp/src/app/live/live.component.ts:775-781 | the splice/unshift loop yields the watched tickers in reverse sorted order followed by the unwatched ones in sorted order |
| Live.Take | webapp/src/app/live/live.component.ts:783 | `slice(0, count)` keeps a prefix of at most `count` tickers |
| Live.InsertAt | webapp/src/app/live/live.component.ts:786-788 | the held ticker is inserted at the hovered index, or appended past the end; the result has exactly one more ticker |
| Live.PairedSellListsVolumePairs | webapp/src/app/live/live.component.ts:666-673 | the buy/sell pairing is exactly the six volume pairs |
| Live.WrapRow | webapp/src/app/live/live.component.ts:794-806 | every field of the ticker, and only those, gets a cell |
| Live.WrapRowColours | webapp/src/app/live/live.component.ts:794-819 | each cell holds the field's value; a buy volume above or below its sell volume is "lightgreen" or "orange"; otherwise the sort column is "gainsboro" and other cells are blank |
| Live.WrapRows | webapp/src/app/live/live.component.ts:794 | one wrapped row per ticker, in order |
| Live.PipelineRowsShape | webapp/src/app/live/live.component.ts:701-788 | every rendered ticker passes the list and base tests, every one not held passes the bounds, and there are at most `count` rows plus the re-inserted one |
| Live.BuildRows | webapp/src/app/live/live.component.ts:688-819 | filter, sort, watching pass, cut and re-insert compose to the render function |
| Live.HeldSymbolAsWrittenNeverPlucks | webapp/src/app/live/live.component.ts:677-720 | as written the hovered symbol is read from a wrapped cell and compares as "[object Object]", so no ticker is ever plucked; a row showing "ETHBTC" demonstrates it |
| Live.HeldRowStaysPut | webapp/src/app/live/live.component.ts:715-788 | with the hovered row's symbol read from the cell's value, a held ticker that passes the list tests is shown at the hovered row, or last when the table is shorter |
| Live.FlattenTickerFields | webapp/src/app/live/live.component.ts:822-833 | after `flattenTicker` each window's price and volume change is a top-level field named `price_change_pct_<window>` or `volume_change_pct_<window>`, the spread is `(ask - bid) / bid`, and every other field keeps its value |
| Live.MergeEffect | webapp/src/app/live/live.component.ts:608-619 | after a merge each symbol maps to the last incoming ticker with that symbol; a symbol not in the update keeps its entry or its absence |
| Live.ValuesHaveDistinctSymbols | webapp/src/app/live/live.component.ts:688-690 | the map's tickers have pairwise distinct symbols |
| Live.LiveComponent.constructor | webapp/src/app/live/live.component.ts:89-143 | the default settings (base "BTC", sort "price_change_pct15" descending, 25 rows), an empty map and table, no hovered row and no update yet |
| Live.LiveComponent.MouseEnter | webapp/src/app/live/live.component.ts:881-883 | only the hovered row changes |
| Live.LiveComponent.Render | webapp/src/app/live/live.component.ts:663-820 | the settings, map and hovered row are unchanged, the update time is the clock, and the table is the render function of the map's tickers |
| Live.LiveComponent.OnUpdate | webapp/src/app/live/live.component.ts:608-621 | a null update changes nothing; otherwise each incoming ticker is flattened and merged in order, and the table is re-rendered |
| Live.LiveComponent.ToggleSortOrder | webapp/src/app/live/live.component.ts:869-875 | "asc" becomes "desc" and anything else becomes "asc"; nothing else changes |
| Live.LiveComponent.SortBy | webapp/src/app/live/live.component.ts:860-867 | the current column toggles the order; another column switches the key and keeps the order; then the table is re-rendered |
| Live.ToggledTwice | webapp/src/app/live/live.component.ts:869-875 | toggling always yields "asc" or "desc", and toggling twice restores either of them |
| Monitor.MatchStart | webapp/src/app/monitor/monitor.component.ts:788 | the leftmost position from which `(\d+)(\w+)` can match: a digit followed by a word character, with no such position before it |
| Monitor.DigitRunEnd | webapp/src/app/monitor/monitor.component.ts:788 | the greedy `\d+` group ends at the first non-digit |
| Monitor.WordRunEnd | webapp/src/app/monitor/monitor.component.ts:788 | the greedy `\w+` group ends at the first non-word character |
| Monitor.IntervalParts | webapp/src/app/monitor/monitor.component.ts:788-793 | a match gives a non-empty digit group and a non-empty unit group |
| Monitor.IntervalStringToMillis | webapp/src/app/monitor/monitor.component.ts:787-803 | a string fails exactly when the pattern does not match, and any result is non-negative |
| Monitor.IntervalUnits | webapp/src/app/monitor/monitor.component.ts:794-802 | unit "m" gives the value times 60000, "h" times 3600000, and any other unit 0 |
| Monitor.IntervalPartsOfDigitsAndUnit | webapp/src/app/monitor/monitor.component.ts:788-793 | digits followed by one non-digit word character split into exactly those digits and that unit |
| Monitor.IntervalOfDigitsAndUnit | webapp/src/app/monitor/monitor.component.ts:787-803 | "<digits>m" is that many minutes and "<digits>h" that many hours, in milliseconds |
| Monitor.IntervalOfFifteenMinutes | webapp/src/app/monitor/monitor.component.ts:787-803 | the default alert window "15m" converts to 900000 ms |
| Monitor.IntervalOfOneHour | webapp/src/app/monitor/monitor.component.ts:787-803 | "1h" converts to 3600000 ms |
| Monitor.IntervalOfDays | webapp/src/app/monitor/monitor.component.ts:794-802 | "1d" has an unknown unit and gives 0 |
| Monitor.IntervalOfBareDigits | webapp/src/app/monitor/monitor.component.ts:788-802 | "123" splits as "12" and "3", so it gives 0 |
| Monitor.IntervalWithoutMatch | webapp/src/app/monitor/monitor.component.ts:788-789 | "m" and "5 m" do not match, and reading `parts.length` of the null match fails |
| Monitor.MergeOneKeeps | webapp/src/app/monitor/monitor.component.ts:465-486 | one incoming ticker keeps the map keyed by each ticker's own symbol |
| Monitor.MergeKeeps | webapp/src/app/monitor/monitor.component.ts:465-486 | the whole merge keeps the map keyed by each ticker's own symbol |
| Monitor.MergeOneGet | webapp/src/app/monitor/monitor.component.ts:466-485 | one incoming ticker changes only its own symbol's entry: skipped outside the base coin, deleted when blacklisted, stored otherwise |
| Monitor.MergeUntouched | webapp/src/app/monitor/monitor.component.ts:465-486 | a symbol outside the base coin, or absent from the update, keeps its entry or its absence |
| Monitor.MergeBlacklistedGone | webapp/src/app/monitor/monitor.component.ts:473-483 | an incoming blacklisted symbol of the base coin is deleted from the map |
| Monitor.MergeLastWins | webapp/src/app/monitor/monitor.component.ts:465-486 | any other incoming symbol of the base coin holds its last incoming ticker |
| Monitor.IsBlacklisted | webapp/src/app/monitor/monitor.component.ts:473-479 | the scan sets `skip` iff some blacklist entry equals the symbol ignoring case |
| Monitor.MergeTickers | webapp/src/app/monitor/monitor.component.ts:458-486 | the merge loop yields the merge function of the update |
| Monitor.Candidates | webapp/src/app/monitor/monitor.component.ts:570-574 | the board keeps exactly the candidates of the map: positive change for gainers, negative for losers, all for the volume board |
| Monitor.Metas | webapp/src/app/monitor/monitor.component.ts:581-586 | every shown ticker carries its window's price and volume change and, on the price boards, its 24-hour change |
| Monitor.First | webapp/src/app/monitor/monitor.component.ts:581 | `slice(0, 10)` keeps at most that many |
| Monitor.TickersOf | webapp/src/app/monitor/monitor.component.ts:581-590 | the tickers behind the board's rows, in order |
| Monitor.MetaOrderIsTotalPreorder | webapp/src/app/monitor/monitor.component.ts:770-783 | `symbolTrackerSortFunc` is total and transitive for every field and order: "asc" keeps the natural order and any other order reverses it |
| Monitor.RankOrderIsTotalPreorder | webapp/src/app/monitor/monitor.component.ts:575-578 | the ranking comparisons of the three boards are total and transitive |
| Monitor.FirstOfSorted | webapp/src/app/monitor/monitor.component.ts:581 | after a sort, every element cut off ranks no higher than every one kept |
| Monitor.BoardShape | webapp/src/app/monitor/monitor.component.ts:565-639 | a board shows at most 10 candidates of the map with their board fields, sorted for display, and every candidate left off ranks no higher than every one shown |
| Monitor.BoardMembers | webapp/src/app/monitor/monitor.component.ts:565-590 | a board shows at most 10 entries, each a candidate of the map with its board fields |
| Monitor.BoardLeftOffRanks | webapp/src/app/monitor/monitor.component.ts:565-590 | a candidate left off a board ranks no higher than a shown one |
| Monitor.BoardsRank | webapp/src/app/monitor/monitor.component.ts:565-639 | a candidate left off the gainers gained no more than any shown gainer; one left off the losers lost no more than any shown loser; one left off the volume board grew its volume no more than any shown ticker |
| Monitor.DropFires | webapp/src/app/monitor/monitor.component.ts:668-701 | a drop fires iff the price floor passes, the change is negative with magnitude at least the percent, and the 24h volume reaches the minimum; a missing change skips the change tests |
| Monitor.GainFires | webapp/src/app/monitor/monitor.component.ts:703-736 | a gain fires iff the price floor passes, the change is positive and at least the percent, and the 24h volume reaches the minimum; a missing change skips the change tests |
| Monitor.VolumeFires | webapp/src/app/monitor/monitor.component.ts:738-768 | a volume alert fires iff the price floor passes, the 24h volume reaches the minimum and the volume change is not below the percent |
| Monitor.DropAndGainExclusive | webapp/src/app/monitor/monitor.component.ts:679-716 | with a known change, one ticker never fires both a drop and a gain |
| Monitor.ExpireShape | webapp/src/app/monitor/monitor.component.ts:543-552 | expiry keeps a non-empty prefix of the feed, drops only alerts more than an hour old, and stops at the first fresh one from the tail |
| Monitor.CoolDownNotReset | webapp/src/app/monitor/monitor.component.ts:516-530 | a candidate within the window of the last fired alert of its type and symbol changes nothing; a later one at exactly the window fires, heads the feed and becomes the last alert |
| Monitor.CheckAllEffect | webapp/src/app/monitor/monitor.component.ts:641-666 | the checks never forget a cool-down; every new or replaced one fired at this update time; with every rule disabled nothing changes and nothing throws; when nothing fires, nothing changes |
| Monitor.Fire | webapp/src/app/monitor/monitor.component.ts:692-701 | building an alert formats the rule's change and converts its window: a change missing from the update (`toFixed` of undefined) or an unparsable window throws and changes nothing; otherwise the alert stamped at the update time goes through `addAlert` |
| Monitor.CheckAllThrows | webapp/src/app/monitor/monitor.component.ts:641-768 | the checks throw exactly when some ticker has an enabled rule that fires while its change is missing from the update or its window does not parse |
| Monitor.MissingChangeThrows | webapp/src/app/monitor/monitor.component.ts:668-701 | a drop rule on a window the update lacks ("2m"): a ticker past the price floor and volume minimum fires it and the check throws, recording nothing |
| Monitor.ThrowSticks | webapp/src/app/monitor/monitor.component.ts:651-665 | once the checks of a prefix of the tickers throw, the later tickers are never checked |
| Monitor.RemoveAt | webapp/src/app/monitor/monitor.component.ts:557-559 | `splice(index, 1)` removes exactly the entry at an index inside the feed and nothing past the end |
| Monitor.MonitorComponent.constructor | webapp/src/app/monitor/monitor.component.ts:89-221 | the default settings (BTC base, 15-minute windows, drop and gain at 3 percent, volume at 7 percent, minimum 24h volume 150), an empty map, boards, feed and cool-downs |
| Monitor.MonitorComponent.AddAlert | webapp/src/app/monitor/monitor.component.ts:514-555 | a suppressed candidate changes nothing; otherwise it becomes the last alert of its type and symbol, heads the feed, and the stale tail is expired |
| Monitor.MonitorComponent.RemoveAlert | webapp/src/app/monitor/monitor.component.ts:557-559 | only the feed changes, by removing the entry at the index; the cool-downs persist |
| Monitor.MonitorComponent.ClearAlerts | webapp/src/app/monitor/monitor.component.ts:561-563 | the feed is empty and the cool-downs persist |
| Monitor.MonitorComponent.FireAlert | webapp/src/app/monitor/monitor.component.ts:692-701 | the alert of a firing rule: a missing change or an unparsable window throws with nothing changed, otherwise `addAlert` runs on the alert stamped at the last update time |
| Monitor.MonitorComponent.CheckTickerAlerts | webapp/src/app/monitor/monitor.component.ts:654-664 | the enabled drop, gain and volume checks of one ticker, in that order, where a firing rule with a missing change or an unparsable window throws and skips the remaining checks |
| Monitor.MonitorComponent.UpdateAlerts | webapp/src/app/monitor/monitor.component.ts:641-666 | with no rule enabled nothing changes; otherwise every ticker of the map is checked in key order until a check throws (a firing rule with a missing change or an unparsable window), and the alerts raised before the throw stay |
| Monitor.MonitorComponent.UpdateGainers | webapp/src/app/monitor/monitor.component.ts:565-591 | the gainers board is recomputed from the map; nothing else changes |
| Monitor.MonitorComponent.UpdateLosers | webapp/src/app/monitor/monitor.component.ts:593-619 | the losers board is recomputed from the map; nothing else changes |
| Monitor.MonitorComponent.UpdateTopByVolume | webapp/src/app/monitor/monitor.component.ts:621-639 | the volume board is recomputed from the map; nothing else changes |
| Monitor.MonitorComponent.Render | webapp/src/app/monitor/monitor.component.ts:496-512 | the new-alert flag is cleared, the gainers and losers are recomputed and the alerts checked up to the first firing rule with a missing change or an unparsable window, reporting that throw |
| Monitor.MonitorComponent.OnUpdate | webapp/src/app/monitor/monitor.component.ts:436-494 | a null update only stamps the time; otherwise the map is the merge, the pair count is its size, all three boards are refreshed and the alerts are checked as far as the first throw (a firing rule with a missing change or an unparsable window) |
| Monitor.MonitorComponent.Refresh | webapp/src/app/monitor/monitor.component.ts:454-494 | once tickers arrived: the map becomes the merge, the pair count its size, the three boards are recomputed and the alerts checked as far as the first throw (a firing rule with a missing change or an unparsable window) |
| Monitor.MonitorComponent.SortBy | webapp/src/app/monitor/monitor.component.ts:271-296 | the named board's current column toggles its order and another column becomes its sort column, then the page is rendered, with the alert checks as far as the first throw; an unknown board changes nothing |
| Monitor.Toggled | webapp/src/app/monitor/monitor.component.ts:298-303 | the order is always "asc" or "desc", and "desc" exactly when it was "asc" |
| Monitor.Resorted | webapp/src/app/monitor/monitor.component.ts:288-292 | the window is kept; the current column toggles the order; another column switches the key and keeps the order |
| Monitor.ResortedTwice | webapp/src/app/monitor/monitor.component.ts:288-303 | clicking the same column twice restores an "asc" or "desc" setting |
| Sorting.Insert | webapp/src/app/live/live.component.ts:773 | inserting into a sorted sequence adds exactly one element and keeps it sorted under a total preorder |
| Sorting.Sort | webapp/src/app/live/live.component.ts:773 | `sort` with a comparator yields a permutation of its input, sorted whenever the comparator is a total preorder |
| Sorting.KeyOrdersArePreorders | webapp/src/app/binance-volume/binance-volume.component.ts:39-41 | comparators by the difference of a numeric key, either way round, are total preorders |
| Sorting.SortByKeyDesc | webapp/src/app/binance-volume/binance-volume.component.ts:39-41 | sorting with `key(b) - key(a)` is a permutation whose keys never increase |
| Sorting.SortByKeyAsc | webapp/src/app/monitor/monitor.component.ts:603-606 | sorting with `key(a) - key(b)` is a permutation whose keys never decrease |
| Sorting.DistinctPermutation | webapp/src/app/live/live.component.ts:773 | sorting tickers with distinct symbols leaves them distinct |
| Text.Lower | webapp/src/app/live/live.component.ts:909 | for ASCII letters: `toLowerCase` keeps the length and lowers each upper-case letter in place; every other character is kept |
| Text.Upper | webapp/src/app/live/live.component.ts:765 | for ASCII letters: `toUpperCase` keeps the length and raises each lower-case letter in place; every other character is kept |
| Text.SplitEntriesShape | webapp/src/app/live/live.component.ts:901-904 | splitting on whitespace and commas and dropping empty pieces yields non-empty, separator-free entries that together hold the input's other characters in order |
| Text.SplitEntriesRuns | webapp/src/app/live/live.component.ts:901-904 | the entries are the maximal separator-free runs: a non-empty run is a single entry, and a separator splits the input into two parts split independently |
| Text.LexLeTotal | webapp/src/app/monitor/monitor.component.ts:774-779 | any two symbols compare one way or the other |
| Text.LexLeTransitive | webapp/src/app/monitor/monitor.component.ts:774-779 | the string order is transitive |
| Text.LexLeAntisymmetric | webapp/src/app/monitor/monitor.component.ts:774-779 | two symbols neither of which is less than the other are equal, so only equal symbols tie |
| JsObject.Dict.Put | webapp/src/app/live/live.component.ts:618 | `obj[k] = v` sets the entry, keeps a present key in place and appends a new key last |
| JsObject.Dict.Remove | webapp/src/app/monitor/monitor.component.ts:481 | `delete obj[k]` removes the entry and its key, keeping the others |
| JsObject.Dict.Values | webapp/src/app/live/live.component.ts:688-690 | `Object.keys(obj).map(...)` lists one value per key, in key order |
| JsObject.EmptyDict | webapp/src/app/live/live.component.ts:120 | `{}` has no keys and no entries |
| JsObject.Without | webapp/src/app/monitor/monitor.component.ts:481 | the key list loses exactly the deleted key and keeps its other keys distinct |
| WebSocket.RemoteAddrChoice | go/server/websocket.go:103-113 | the forwarded-for header wins when set, then the real-ip header, then the peer address; an empty result means all three were empty |
| WebSocket.BeforeColonShape | go/server/websocket.go:115-118 | the remote host is the longest colon-free prefix of the remote address: a prefix, without ':', followed by ':' unless it is the whole address |
| WebSocket.AddKeepsLinked | go/server/websocket.go:59-70 | `Add` records the connection under the path and the path under the connection, and keeps the two maps views of one relation |
| WebSocket.DelKeepsLinked | go/server/websocket.go:72-82 | `Del` removes the pair from both maps, keeps them linked, and leaves both inner entries in place, possibly empty |
| WebSocket.WsConnectionTracker.constructor | go/server/websocket.go:52-57 | both maps start empty, which is linked |
| WebSocket.WsConnectionTracker.Add | go/server/websocket.go:59-70 | creates a missing inner map, records the pair in both, and preserves the link invariant |
| WebSocket.WsConnectionTracker.Del | go/server/websocket.go:72-82 | a missing inner map for the path or the connection panics, and then nothing has changed; otherwise the pair is removed from both maps and the link invariant is preserved |
| WebSocket.WsSourceCache.Subscribe | go/server/websocket.go:259-263 | registers a fresh channel with room for one message |
| WebSocket.WsSourceCache.Unsubscribe | go/server/websocket.go:265-267 | removes exactly that channel |
| WebSocket.LookupAll | go/server/websocket.go:319-335 | reading metrics through `tracker.Metrics[b]` succeeds exactly when every bucket read is present, and then yields each bucket's metrics in order; otherwise it is a nil dereference |
| WebSocket.Ticked | go/server/websocket.go:306-309 | the trackers that yield an entry are those with a last tick |
| WebSocket.MessageFails | go/server/websocket.go:293-430 | as written, a build succeeds exactly when every tracker with a tick has metrics for every bucket read, 4 minutes included |
| WebSocket.ServerTrackerMessagePanics | go/server/websocket.go:334-418 | a tracker made by `NewTickerTracker` of the same server (no 4-minute metrics) makes both builders panic once it has a tick; with the eight buckets of the later revision they succeed |
| WebSocket.MessagePanicSticks | go/server/websocket.go:293-430 | once one tracker's entry panics, the whole build fails |
| WebSocket.MessageFilledEntries | go/server/websocket.go:293-427 | the corrected builder emits exactly one entry per tracker with a tick, in map order, with that tracker's symbol, close and timestamp |
| WebSocket.MessageAgrees | go/server/websocket.go:293-430 | where the as-written build succeeds it equals the corrected one |
| WebSocket.BuildMessage | go/server/websocket.go:293-430 | the builder loop over the trackers, in the order the map is ranged, returns the message function's result, panicking on the first tracker with a missing bucket |
| WebSocket.DecimalDigits | go/server/websocket.go:168 | every natural number's decimal form is a non-empty digit string whose value is the number (the partner of the parser) |
| WebSocket.UpdateIntervalOfDecimal | go/server/websocket.go:168-171 | an interval written in decimal and within int64 reads back as itself; a value with a stray character reads as 0 |
| WebSocket.ThresholdExact | go/server/websocket.go:207 | for intervals that fit, the threshold is the interval in nanoseconds, without wrap-around |
| WebSocket.Written | go/server/websocket.go:207-217 | one write decision per broadcast |
| WebSocket.HandleBroadcasts | go/server/websocket.go:168-221 | the loop of the broadcast branch writes exactly the messages the throttle function selects, starting from the zero last-write time |
| WebSocket.FirstWritten | go/server/websocket.go:172-207 | the first broadcast is always written, whatever the interval |
| WebSocket.WrittenAfter | go/server/websocket.go:207-217 | after a write at time l, every later write comes at least the threshold after l |
| WebSocket.WritesSpacedFrom | go/server/websocket.go:207-217 | with broadcasts in time order, any two writes are at least the threshold apart |
| WebSocket.WritesSpaced | go/server/websocket.go:172-217 | from a new connection, any two writes are at least `updateInterval` seconds apart (as wrapped to 64 bits) |
| GoTime.Wrap64 | go/server/websocket.go:207 | the 64-bit product lies in the int64 range, is congruent to the exact product, and equals it when it fits |
| GoTime.Saturate64 | go/server/websocket.go:207 | a `time.Time` difference is clamped to the int64 range and exact inside it |
| WebSocket.WebSocketClient.constructor | go/server/websocket.go:95-101 | the client keeps the request it connected with |
| WebSocket.WsSourceCache.constructor | go/server/websocket.go:251-257 | no subscribers |
| ApiProxy.UpstreamUrl | go/binance/apiproxy.go:68-69 | a request URI shorter than the prefix panics; otherwise the URL is the upstream host followed by the rest of the URI |
| ApiProxy.UpstreamUrlOfProxied | go/binance/apiproxy.go:68-69 | a URI under "/api/1/binance/proxy" maps to the same rest on the upstream host, and two such URIs share a cache key exactly when their rests agree |
| ApiProxy.FreshWithinSecond | go/binance/apiproxy.go:73 | with the saturating difference, an entry is fresh exactly when it is at most one second old, inclusive |
| ApiProxy.ServeCases | go/binance/apiproxy.go:71-103 | a fresh cached entry is served with no fetch and no cache change; otherwise a failed fetch leaves the cache and sends nothing, and a fetch of any status replaces the entry of that URL only |
| ApiProxy.ServeNeverEvicts | go/binance/apiproxy.go:55-102 | no request removes a key, and with a monotone clock no entry gets older |
| ApiProxy.RepeatWithinSecond | go/binance/apiproxy.go:71-102 | a request repeated within a second of a successful fetch is served from the cache with the fetched body, whatever the upstream would say |
| ApiProxy.ApiProxy.constructor | go/binance/apiproxy.go:49-53 | an empty cache |
| ApiProxy.ApiProxy.AddToCache | go/binance/apiproxy.go:55-59 | stores the entry under its key and leaves every other key alone |
| ApiProxy.ApiProxy.GetFromCache | go/binance/apiproxy.go:61-65 | the entry under the key, none for a missing key |
| ApiProxy.ApiProxy.ServeHTTP | go/binance/apiproxy.go:67-104 | replies and updates the cache as the request-outcome function says |

## Left out

- Network I/O, goroutines, locks and timers. Each stream, runner, proxy and websocket handler is modelled as the state change of one call. Clock readings are parameters.
- Channel readiness: whether a send would block is a per-subscriber `room` parameter. A count of successful sends captures every schedule.
- Go map iteration order is a parameter, given as a sequence of the keys.
- Floating point: prices, volumes and percentages are reals, so rounding and NaN are not modelled. A division 0 / 0 is `None` where the model needs it.
- The 64-bit wrap-around of the histogram's `uint64` trade counts is not modelled; the counts are unbounded naturals.
- JavaScript sort comparators reading a missing or NaN field are modelled as reading 0.
- Text.Lower / Text.Upper: non-ASCII letters are left unchanged. JavaScript `toLowerCase`/`toUpperCase` and Go `strings.ToLower` map every Unicode letter, and may change the length (`"ß".toUpperCase()` is "SS"). Blacklist, whitelist and symbol matching is therefore modelled only for ASCII text.
- Live.SortTickersOrders: symbols are ordered by code unit where the source uses `localeCompare`, a locale collation. The two orders agree on symbols made of upper-case ASCII letters and digits, which is what the exchange lists; they differ on lower-case letters and punctuation such as `_`.
- `\s` in the client's split pattern is reduced to the ASCII whitespace characters. Unicode spaces are not modelled.
- Object keys of numeric prices are reals, not the strings JavaScript makes of them. The source coerces each wire string with `+` first, so one number is one key.
- Shared ticker metadata objects and Angular change detection are not modelled. Each render builds its rows afresh.
- Notifications, sounds, toasts, route parameters and local storage are not modelled. The monitor's configuration is a field.
- `time.Time` locations and monotonic readings are not modelled. Times are integers in milliseconds or nanoseconds, as the source compares them.
- CalculateTrades, the RSI, the volume-weighted price and the other derived metrics are not modelled. A new tracker's metrics are the zeroed records the trackers create. The websocket message entry fields that carry them (the 24-hour range, the volume-weighted prices, total volumes, net/buy/sell volumes and RSI values) are left out of `WebSocket.Entry`. Leaving them out hides no panic: the 24-hour metrics are a struct value and the ranged metrics are non-nil.
- The `PruneTrades` call inside CalculateTrades is not modelled. `PruneTrades` itself is.
- WebSocket.WsSourceCache's `Run` loop and updateTrackers, which rebuild and broadcast the prepared message, are not modelled. Subscribe and Unsubscribe are.
- WebSocket.HandleBroadcasts: one clock reading per broadcast message. A nil broadcast ends the connection. Write errors and the symbol-specific branch of the handler are not modelled.
- ApiProxy.ApiProxy.ServeHTTP: the upstream answer is one parameter; its absence is `NoReply`. It stands for two outcomes. When sending the request fails, the handler returns without a reply. When building the request fails (a request URI such as "/api/1/binance/proxy:x" makes an invalid port), the nil request passed to `Do` panics and net/http recovers it. Either way nothing is sent and the cache is unchanged. Headers are reduced to the content type. The access-control header is not modelled.
- WebSocket.WebSocketClient.GetRemoteHost: IPv6 addresses are cut at their first ':' as the source does. Bracketed hosts are not treated specially.
- VolumeHistogram.VolumeHistogramCalculator.AddTrade: times are whole milliseconds. A trade less than a millisecond short of one minute in the future, which Go truncates to bucket 0, gets bucket −1 in the model and panics.
- A nil outer map in the server is modelled as an empty map.
- Live.LiveComponent.OnUpdate: the spread `flattenTicker` sets is `(ask - bid) / bid` as a real. A missing ask or bid, or a zero bid, which give NaN or an infinity in JavaScript, leave the spread field absent.
- NewVolume.Bucket: the window length is a natural number. The page only calls it with positive constants.

## Findings

| source | as written | input that shows it | evidently intended | confidence | as-written member | corrected member |
|---|---|---|---|---|---|---|
| webapp/src/app/binance/symbol/orderbook/orderbook.component.ts:52-56 | the averaging loop stops at `length - 1` but divides by `length` | one level of amount 5 averages to 0 | the mean of all shown levels, 5 | not executed | OrderBookView.AverageAsWrittenDropsLastLevel | OrderBookView.MeanWithinBounds |
| webapp/src/app/live/live.component.ts:677-720 | the hovered row's symbol is read from a wrapped `{value, background_color}` cell, so it compares as "[object Object]" | any hovered row whose ticker is still in the map | the hovered ticker is plucked out and put back at the hovered row | not executed | Live.HeldSymbolAsWrittenNeverPlucks | Live.HeldRowStaysPut |
| go/server/tickertracker.go:398-419 | the gap-filling candles are appended to a stale copy of the series and then discarded | one candle at minute 0, then a trade at minute 3 | one candle per minute with no gaps | not executed | Tracking.MinuteStepLosesGapCandles | Tracking.MinuteStepFilledContiguous |
| go/server/websocket.go:334-418 | the message builders read `Metrics[4]`, which this server's trackers never create, and dereference the nil result | any tracker made by `NewTickerTracker` once it has a tick | entries built from the buckets the tracker has | not executed | WebSocket.ServerTrackerMessagePanics | WebSocket.MessageFilledEntries |
