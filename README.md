# k-line candle engine, modelled in Dafny

The model covers the core of k-line, a Rust service that turns a stream of token trades into OHLCV candles ("K-lines") at five granularities (1s, 1m, 5m, 15m, 1h). The service answers range, latest and current-candle queries. It also pushes trades and candles to WebSocket clients according to their subscriptions. The model covers these parts:

- **the interval calendar**: wire names, parsing, durations and bucket alignment;
- **the candle record**: creation, update and close;
- **`KLineService`**: the nested `token → interval → bucket start → candle` store, its update path and its queries;
- **the WebSocket registry**: the subscription table in `WsManager`, the broadcast filters, and the per-session subscribe, unsubscribe and dispatch handlers;
- **configuration**: merge, validation, token lookups and defaults.

Representation choices:

- An instant is an integer count of nanoseconds since the Unix epoch.
- Prices and volumes are exact `real`s.
- `DashMap` and `HashMap` become Dafny maps, updated sequentially.
- Objects whose fields the source mutates are classes. These are `KLineService`, `WsManager` and `WsSession`. Two exceptions: the candle record, whose `&mut self` methods are functions returning the new candle (see Left out), and the configuration merge, which consumes its `Config` by value and is a method over values.
- Loops in the source are methods with loops, proved against value-level specification functions.
- Pure code is functions and lemmas.

Files:

| file | module | models |
|---|---|---|
| `wrappers.dfy` | `Wrappers` | `Option`, `Result` |
| `sets.dfy` | `Sets` | picking an element of a set of keys |
| `time_interval.dfy` | `TimeIntervals` | src/models/time_interval.rs |
| `transaction.dfy` | `TransactionModel` | the `Transaction` record of src/models/transaction.rs |
| `kline.dfy` | `KLineModel` | src/models/kline.rs |
| `calendar.dfy` | `Calendar` | `get_interval_start` and the chrono field arithmetic it relies on |
| `kline_store.dfy` | `KLineStore` | the rest of src/services/kline.rs |
| `websocket.dfy` | `WebSocket` | src/api/websocket.rs (subscription logic) |
| `config.dfy` | `AppConfig` | src/config.rs (merge, validate, lookups, default) |
| `stream_history.dfy` | `StreamHistory` | what a stream holds after a whole time-ordered sequence of trades (src/services/kline.rs:22-81) |

## Model

| member | source | states |
|---|---|---|
| TimeIntervals.AsStr | src/models/time_interval.rs:8-17 | each interval's name equals the serde rename on its variant, and every name has at least two characters |
| TimeIntervals.FromStr | src/models/time_interval.rs:23-32 | parsing succeeds exactly on "1s", "1m", "5m", "15m" and "1h"; a parsed value prints back as the input; any other string yields `Err("Invalid time interval: " + s)` |
| TimeIntervals.ParseAsStrRoundTrip | src/models/time_interval.rs:23-45 | `from_str(as_str(i)) == Ok(i)` for every interval |
| TimeIntervals.AsStrInjective | src/models/time_interval.rs:37-45 | distinct intervals have distinct names |
| TimeIntervals.DurationSeconds | src/models/time_interval.rs:48-56 | every duration is positive and divides 3600 |
| TimeIntervals.DurationsIncreasing | src/models/time_interval.rs:48-56 | durations strictly increase in declaration order |
| TimeIntervals.AllIntervalsComplete | src/services/kline.rs:24-30 | the interval list `process_transaction` walks holds every interval exactly once |
| Calendar.DurationNanos | src/services/kline.rs:72 | an interval lasts a positive number of nanoseconds |
| Calendar.Nanosecond | src/services/kline.rs:92 | the nanosecond field of an instant lies in [0, 10⁹) |
| Calendar.Second | src/services/kline.rs:97 | the second field lies in [0, 60) |
| Calendar.Minute | src/services/kline.rs:103 | the minute field lies in [0, 60) |
| Calendar.WithNanosecond | src/services/kline.rs:92 | the setter succeeds exactly for a value in [0, 10⁹); the result has that nanosecond and lies in the same second |
| Calendar.NanosecondReplaced | src/services/kline.rs:92 | replacing the nanosecond field by `n` in [0, 10⁹) gives an instant whose nanosecond is `n`, in the same second |
| Calendar.WithSecond | src/services/kline.rs:97 | the setter succeeds exactly for a value in [0, 60); the result has that second, the same nanosecond, and lies in the same minute |
| Calendar.SecondReplaced | src/services/kline.rs:97 | replacing the second field by `s` in [0, 60) gives second `s`, keeps the nanosecond, and stays in the same minute |
| Calendar.WithMinute | src/services/kline.rs:106 | the setter succeeds exactly for a value in [0, 60); the result has that minute, the same second and nanosecond, and lies in the same hour |
| Calendar.MinuteReplaced | src/services/kline.rs:103-109 | replacing the minute field by `m` in [0, 60) gives minute `m`, keeps the second and nanosecond, and stays in the same hour |
| Calendar.GetIntervalStart | src/services/kline.rs:84-130 | `get_interval_start` field by field for each interval, with the `unwrap_or(timestamp)` fallbacks as written; what it computes is stated by IntervalStartIsFloor (`t - t mod d`), IntervalStartContains and IntervalStartMonotonic |
| Calendar.ClearChain | src/services/kline.rs:105-109 | the `with_minute(m).and_then(with_second(0)).and_then(with_nanosecond(0)).unwrap_or(t)` chain never falls back for a minute in [0, 60): it moves the instant to minute `m` of its hour with zero seconds and nanoseconds |
| Calendar.ClearBelowMinutes | src/services/kline.rs:102-109 | setting the minute to `(minute / step) * step` and clearing below it, for a step dividing 60, is `t - t mod (step minutes)` |
| Calendar.FloorContains | src/services/kline.rs:84-130 | `t - t mod d` is a multiple of `d` with `t - t mod d ≤ t < t - t mod d + d` |
| Calendar.FloorSteps | src/services/kline.rs:84-130 | flooring to a multiple of `d` is monotonic, and two instants share a floor exactly when the later one is before the earlier floor plus `d` |
| Calendar.IntervalStartIsFloor | src/services/kline.rs:84-130 | field-by-field alignment, with the `unwrap_or` fallbacks as written, equals `t - t mod d` for the interval's duration `d` in nanoseconds, because every duration divides the hour |
| Calendar.IntervalStartContains | src/services/kline.rs:84-130 | `start ≤ t < start + d`, and `start` is a multiple of `d` |
| Calendar.IntervalStartIdempotent | src/services/kline.rs:84-130 | aligning an aligned instant returns it unchanged |
| Calendar.AlignedIffMultiple | src/services/kline.rs:84-130 | an instant is its own bucket start iff it is a multiple of the duration |
| Calendar.IntervalStartMonotonic | src/services/kline.rs:84-130 | alignment is monotonic; a later instant at or past a bucket's end aligns to a later bucket; one before the end aligns to the same bucket |
| Calendar.IntervalStartOf | src/services/kline.rs:84-130 | for `t = d·q + r` with `0 ≤ r < d`, the bucket start is `t - r` |
| Calendar.AlignmentExamples | tests/time_interval_tests.rs:9-202 | for 14:35:42.123456789: 1h gives 14:00, 1m gives 14:35, 1s gives 14:35:42; for 14:37:42.123456789: 5m gives 14:35, 15m gives 14:30 |
| KLineModel.Max | src/models/kline.rs:53 | `f64::max` without NaN: the result is one of the two arguments and at least both |
| KLineModel.Min | src/models/kline.rs:54 | `f64::min` without NaN: the result is one of the two arguments and at most both |
| KLineModel.New | src/models/kline.rs:30-48 | open = high = low = close = price, volume as given, not closed, identity fields as given, OHLC invariant holds |
| KLineModel.Update | src/models/kline.rs:51-58 | identity fields, open and `is_closed` never change; a closed candle is returned unchanged; on an open one close = price, volume grows by the trade's volume, high/low become max/min with the price; the OHLC invariant is preserved |
| KLineModel.Close | src/models/kline.rs:61-63 | the result is closed and differs from the input in nothing else; the OHLC invariant is preserved |
| KLineModel.CloseIdempotent | src/models/kline.rs:61-63 | closing twice equals closing once; closing a closed candle changes nothing |
| KLineModel.PriceExtremes | src/models/kline.rs:53-54 | the running maximum and minimum bound every trade price and are attained by some trade |
| KLineModel.Aggregate | src/models/kline.rs:30-58 | the candle built by `new` with the first trade and `update` with the rest keeps the given token, bucket start and interval |
| KLineModel.AggregateIsOhlcv | src/models/kline.rs:30-58 | after `new` with the first trade and `update` with the rest: open = first price, close = last, high = max, low = min, volume = sum, still open and valid |
| KLineModel.ThreeTradeExample | tests/kline_tests.rs:80-103 | trades 0.15/100, 0.16/50, 0.14/75 give open 0.15, high 0.16, low 0.14, close 0.14, volume 225 |
| KLineStore.SweepExpired | src/services/kline.rs:66-81 | the sweep keeps every key and replaces a candle by its closed form exactly when `timestamp + duration ≤ current start` |
| KLineStore.Upsert | src/services/kline.rs:49-62 | the bucket key is added, and every other candle is untouched |
| KLineStore.IntervalStep | src/services/kline.rs:36-81 | one stream's part of `update_kline_for_interval`: align the trade, sweep, then get-or-create-or-update; its effect is stated by IntervalStepEffect |
| KLineStore.StoreAfterInterval | src/services/kline.rs:36-63 | `update_kline_for_interval` on the whole store, `or_default` levels included; its effect is stated by StoreAfterIntervalShape and StoreAfterIntervalWellFormed |
| KLineStore.StoreAfterIntervals | src/services/kline.rs:23-31 | the updates for a list of intervals, in order; stated by AfterIntervalsOtherTokens and AfterIntervalsStreams |
| KLineStore.Processed | src/services/kline.rs:22-33 | `process_transaction`: the update for all five intervals; stated by ProcessedEffect, ProcessedStream and ProcessedWellFormed |
| KLineStore.Replay | src/services/kline.rs:22-33 | a sequence of `process_transaction` calls in order; stated by ReplayTokens, SameBucketReplay and StreamHistory.LazyClosing |
| KLineStore.IntervalStepEffect | src/services/kline.rs:36-81 | one stream update: the keys become the old keys plus the aligned start; that bucket becomes `new` (absent) or `update` (present); every other candle is closed exactly when its bucket ended at or before the start, and left alone otherwise; the stream invariant is kept |
| KLineStore.SweepThenUpsert | src/services/kline.rs:36-81 | for an aligned bucket start, sweeping then get-or-create-or-update has the effect listed for IntervalStepEffect, and an aligned stream's own bucket is never closed by the sweep |
| KLineStore.StoreAfterIntervalShape | src/services/kline.rs:36-43 | one stream update on the whole store leaves other tokens and the token's other streams unchanged, and creates the token's entry and the stream when missing (the `or_default` levels) |
| KLineStore.StoreAfterIntervalWellFormed | src/services/kline.rs:36-62 | the store invariant survives one stream update: each candle sits under its own start, token and interval, is aligned and satisfies OHLC |
| KLineStore.AfterIntervalsOtherTokens | src/services/kline.rs:22-33 | updating any list of intervals leaves every other token's entry unchanged, present or absent |
| KLineStore.AfterIntervalsStreams | src/services/kline.rs:22-33 | updating a list of distinct intervals creates each listed stream of the trade's token and applies the one-stream update to it exactly once; unlisted streams are unchanged |
| KLineStore.ProcessedEffect | src/services/kline.rs:22-33 | `process_transaction` leaves other tokens unchanged, gives the trade's token all five streams and applies the one-stream update to each |
| KLineStore.ProcessedStream | src/services/kline.rs:22-33 | after processing, each stream of the trade's token is the one-stream update of its former contents |
| KLineStore.ProcessedWellFormed | src/services/kline.rs:22-62 | `process_transaction` keeps the store invariant |
| KLineStore.ProcessedTokens | src/services/kline.rs:40 | the store's tokens after processing are the old ones plus the trade's token |
| KLineStore.ReplayTokens | src/services/kline.rs:183-188 | starting from an empty service, the token set is exactly the set of tokens of the trades processed |
| KLineStore.ReplayFirst | src/services/kline.rs:22-62 | from an empty service, one trade leaves its stream holding only the candle `new` builds at the trade's bucket start |
| KLineStore.StepOnEmpty | src/services/kline.rs:54-62 | the first trade of a stream creates its bucket's candle with `new` |
| KLineStore.StepInSameBucket | src/services/kline.rs:46-53 | a trade in the bucket of a stream's only candle updates that candle; the sweep leaves it as it was |
| KLineStore.ReplayInSameBucket | src/services/kline.rs:22-62 | replaying one more trade in the bucket of a stream's only candle updates that candle |
| KLineStore.StepIntoNextBucket | src/services/kline.rs:36-81 | a trade in the bucket right after that of a stream's only candle closes that candle and opens the trade's bucket with `new` at the trade's price and volume |
| KLineStore.ReplayIntoNextBucket | src/services/kline.rs:22-81 | replaying one more trade in the bucket after a stream's only candle closes that candle and opens the next bucket |
| KLineStore.SameBucketReplay | src/services/kline.rs:22-62 | from an empty service, trades of one token that all align to one bucket leave exactly one candle in that stream, equal to `new` followed by the `update`s, i.e. the OHLCV of the trades |
| KLineStore.SameBucketStep | src/services/kline.rs:22-62 | one more trade of the same token in the same bucket turns the single candle of the earlier trades into the aggregate of all of them |
| KLineStore.AggregateStep | src/models/kline.rs:51-58 | aggregating one more trade is `update` on the aggregate of the earlier trades |
| KLineStore.AggregateLastTrade | src/models/kline.rs:51-58 | the aggregate of the trades of some transactions is `update` with the last transaction's price and volume on the aggregate of the others |
| KLineStore.SameHourAligned | tests/time_interval_tests.rs:206-252 | 14:05, 14:25 and 14:45 all align to the 14:00 hour |
| KLineStore.SameHourAggregate | tests/time_interval_tests.rs:206-252 | the trades 0.15/100, 0.16/200 and 0.14/150 aggregate to open 0.15, high 0.16, low 0.14, close 0.14, volume 450 |
| KLineStore.SameHourExample | tests/time_interval_tests.rs:206-252 | trades at 14:05, 14:25 and 14:45 produce one hourly candle at 14:00: open 0.15, high 0.16, low 0.14, close 0.14, volume 450 |
| KLineStore.InsertByTimestamp | src/services/kline.rs:155 | insertion holds the same elements plus the new one, one longer, headed by the new element or the old head |
| KLineStore.InsertKeepsSorted | src/services/kline.rs:155 | inserting into a list sorted by timestamp keeps it sorted |
| KLineStore.InsertKeepsStrict | src/services/kline.rs:155 | inserting a fresh timestamp into a strictly increasing list keeps it strictly increasing |
| KLineStore.LastTimestampFresh | src/services/kline.rs:155 | with distinct timestamps, the last candle's timestamp appears nowhere in a permutation of the others |
| KLineStore.SortByTimestamp | src/services/kline.rs:155 | the result is a permutation of the input, of the same length, sorted by timestamp |
| KLineStore.SortStrict | src/services/kline.rs:155 | with distinct timestamps the sorted result is strictly increasing |
| KLineStore.SortKeepsElements | src/services/kline.rs:155 | sorting keeps exactly the same candles |
| KLineStore.Truncated | src/services/kline.rs:158-160 | `truncate(limit)`: the first `min(limit, length)` candles, all of them without a limit |
| KLineStore.TruncatedPrefix | src/services/kline.rs:158-160 | truncation yields `min(limit, length)` elements, a prefix, still increasing, with every dropped candle after every kept one |
| KLineStore.CollectOne | src/services/kline.rs:145-150 | pushing the candle of one more key keeps the collected list a one-per-key record of exactly the visited keys, with distinct timestamps |
| KLineStore.RangeQueryResult | src/services/kline.rs:141-162 | the collected in-range candles, sorted and truncated, are the earliest `min(limit, count)` in-range candles in strictly increasing order |
| KLineStore.OpenCandles | src/services/kline.rs:198 | exactly the candles that are not closed, unchanged |
| KLineStore.LatestAmong | src/services/kline.rs:170-173 | `None` iff there are no keys; otherwise a candle under one of the keys whose timestamp is at least every other's |
| KLineStore.KLineService.constructor | src/services/kline.rs:15-19 | a new service stores no candles and is well formed |
| KLineStore.KLineService.ProcessTransaction | src/services/kline.rs:22-33 | the loop over the five intervals leaves the store equal to `Processed(old store, trade)` and keeps the invariant |
| KLineStore.KLineService.UpdateKLineForInterval | src/services/kline.rs:36-63 | the store becomes `StoreAfterInterval(old, trade, interval)` (see IntervalStepEffect), keeping the invariant |
| KLineStore.KLineService.CloseExpiredKLines | src/services/kline.rs:66-81 | the loop over the stream's candles yields exactly `SweepExpired` |
| KLineStore.KLineService.CollectInRange | src/services/kline.rs:141-152 | the filtering loop collects each candle with `start ≤ bucket ≤ end` once and nothing else |
| KLineStore.KLineService.GetKLines | src/services/kline.rs:133-163 | the result is strictly increasing by timestamp; it holds only in-range candles of the stream and has length `min(limit, in-range count)`; no in-range candle before a returned one is missing; it is empty for an unknown token or interval |
| KLineStore.KLineService.GetLatestKLine | src/services/kline.rs:166-180 | `None` iff the stream is absent or empty; otherwise a stored candle of maximal timestamp |
| KLineStore.KLineService.GetCurrentKLine | src/services/kline.rs:191-206 | `None` iff the stream has no open candle; otherwise an open stored candle whose timestamp is maximal among the open ones |
| KLineStore.KLineService.GetAvailableTokens | src/services/kline.rs:183-188 | exactly the tokens that have an entry |
| WebSocket.SubscriptionMatches | src/api/websocket.rs:383-396 | true iff the two subscriptions are equal: same variant, same token list in the same order, same token and interval |
| WebSocket.Retained | src/api/websocket.rs:329-333 | `retain` never lengthens the list |
| WebSocket.RetainedElements | src/api/websocket.rs:331 | retaining removes every copy of the subscription and keeps every other entry with its multiplicity |
| WebSocket.RetainedAppend | src/api/websocket.rs:331 | retaining distributes over concatenation, so the kept entries keep their order |
| WebSocket.RetainedIdempotent | src/api/websocket.rs:331 | retaining twice equals retaining once |
| WebSocket.TransactionTarget | src/api/websocket.rs:339-343 | one arm of the transaction filter's match: `AllTransactions` always, `Transactions` when its tokens contain the trade's, `KLines` never |
| WebSocket.KLineTarget | src/api/websocket.rs:356-361 | one arm of the K-line filter's match: only a `KLines` entry with the candle's token and interval name |
| WebSocket.ShouldSendTransaction | src/api/websocket.rs:339-343 | the `any` over the session's list in `broadcast_transaction`; stated by ShouldSendTransactionIff and HandlerAgreesWithBroadcast |
| WebSocket.ShouldSendKLine | src/api/websocket.rs:356-361 | the `any` over the session's list in `broadcast_kline`; stated by ShouldSendKLineIff and HandlerAgreesWithBroadcast |
| WebSocket.ShouldSendTransactionIff | src/api/websocket.rs:339-343 | a trade is wanted iff the list holds `AllTransactions` or a `Transactions` whose tokens contain the trade's token |
| WebSocket.ShouldSendKLineIff | src/api/websocket.rs:356-361 | a candle is wanted iff the list holds exactly `KLines{token, as_str(interval)}` for it |
| WebSocket.TransactionSubscriptionsGetNoKLines | src/api/websocket.rs:356-361 | a list with no K-line subscription never receives a candle |
| WebSocket.UnparsableIntervalGetsNoKLines | src/api/websocket.rs:356-361 | a K-line subscription whose interval does not parse never matches any candle |
| WebSocket.HandlerAgreesWithBroadcast | src/api/websocket.rs:248-285 | the manager's `any` filters agree with "some entry matches", the condition the session handlers scan for |
| WebSocket.WsManager.constructor | src/api/websocket.rs:298-303 | a new manager has no sessions and no lists |
| WebSocket.WsManager.AddSession | src/api/websocket.rs:306-308 | the session's list becomes empty, replacing any old one; nothing else changes |
| WebSocket.WsManager.RemoveSession | src/api/websocket.rs:311-314 | both the session's address and its list are removed; nothing else changes |
| WebSocket.WsManager.SetSessionAddr | src/api/websocket.rs:317-319 | the session gains an address; the lists are unchanged |
| WebSocket.WsManager.AddSubscription | src/api/websocket.rs:322-326 | appends at the end for a known session, duplicates kept; no-op for an unknown one |
| WebSocket.WsManager.RemoveSubscription | src/api/websocket.rs:329-333 | a known session's list becomes its retained form; no-op for an unknown one |
| WebSocket.WsManager.BroadcastTransaction | src/api/websocket.rs:336-350 | the sessions sent the trade are exactly those with an address and a list whose transaction filter holds |
| WebSocket.WsManager.BroadcastKLine | src/api/websocket.rs:353-368 | the sessions sent the candle are exactly those with an address and a list whose K-line filter holds |
| WebSocket.WsManager.SessionCount | src/api/websocket.rs:371-373 | the count is zero iff no session has an address |
| WebSocket.WsSession.constructor | src/api/websocket.rs:85-99 | a new session has an empty list and registers its id with the manager (an empty list there), in sync |
| WebSocket.WsSession.Started | src/api/websocket.rs:165-174 | the `started` hook gives the session an address in the manager; the lists are unchanged and stay in sync exactly when they were |
| WebSocket.WsSession.Stopped | src/api/websocket.rs:176-182 | the `stopped` hook removes the session's address and list from the manager; nothing else changes |
| WebSocket.WsSession.HandleSubscribe | src/api/websocket.rs:121-145 | a K-line subscription with an unparseable interval gets `Error("Invalid interval: …")` and changes nothing; any other subscription is appended to the session's list and the manager's and confirmed with `Subscribed`; the two lists stay in sync, and every stored K-line subscription has a valid interval |
| WebSocket.WsSession.HandleUnsubscribe | src/api/websocket.rs:148-159 | both lists drop every matching entry, stay in sync, and `Unsubscribed` is sent |
| WebSocket.WsSession.HandleBroadcastTransaction | src/api/websocket.rs:248-267 | exactly one `Transaction` message if some entry wants the trade, even if several do, and none otherwise |
| WebSocket.WsSession.HandleBroadcastKLine | src/api/websocket.rs:273-285 | exactly one `KLine` message if some entry is the candle's token and interval, and none otherwise |
| StreamHistory.TokenTrades | src/services/kline.rs:22-33 | the trades that reach a token's streams are trades of the sequence, all of that token |
| StreamHistory.BucketTrades | src/services/kline.rs:84-130 | the trades assigned to a bucket all align to its start, and the list is non-empty exactly for a touched bucket |
| StreamHistory.LazyClosing | src/services/kline.rs:22-81 | from an empty service, after trades with non-decreasing timestamps, each stream's keys are exactly the buckets its token's trades touched; each candle is the OHLCV aggregate of its bucket's trades (`new`, then `update`s); it is closed exactly when a later trade of that token fell in a bucket starting at or after its end |
| StreamHistory.SameTokenStep | src/services/kline.rs:22-81 | one more trade of the stream's token, no earlier than its earlier trades, keeps the stream as LazyClosing describes |
| StreamHistory.StreamStep | src/services/kline.rs:36-81 | one stream update by a trade no earlier than the stream's trades keeps the stream equal to the expected candles of all its trades |
| StreamHistory.TradesBeforeLast | src/services/kline.rs:22-33 | in time order, every earlier trade of a token is no later than the last trade |
| StreamHistory.OtherTokenStream | src/services/kline.rs:22-43 | processing a trade of another token leaves a stream unchanged |
| StreamHistory.ReplayWellFormed | src/services/kline.rs:22-62 | from an empty service, replaying any trades keeps the store invariant |
| StreamHistory.BucketsAppend | src/services/kline.rs:44-62 | one more trade adds exactly its own bucket to the touched ones |
| StreamHistory.EarlierBuckets | src/services/kline.rs:44 | an earlier trade aligns to a bucket no later than a later trade's |
| StreamHistory.AppendTrade | src/services/kline.rs:44-81 | one more trade joins only its own bucket's trades, and a bucket becomes passed exactly when it was or the trade's bucket starts at or after its end |
| StreamHistory.UpdatedBucket | src/services/kline.rs:46-53 | when the trade's bucket already has trades, `update` of the expected candle is the expected candle with the trade added |
| StreamHistory.CreatedBucket | src/services/kline.rs:54-62 | when the trade's bucket has no trades yet, the candle `new` builds is the expected candle |
| StreamHistory.OnlyTradeOfBucket | src/services/kline.rs:54-62 | a trade whose bucket no earlier trade touched is the only trade of that bucket |
| StreamHistory.NotYetPassed | src/services/kline.rs:66-81 | a trade whose bucket is no earlier than any earlier trade's leaves its own bucket unpassed, so the new candle is open |
| StreamHistory.EarlierBucket | src/services/kline.rs:66-81 | any other bucket's expected candle is closed by the sweep exactly when it ends at or before the trade's bucket start, and otherwise left as it was |
| StreamHistory.NextBucketCloses | src/services/kline.rs:22-81 | a trade in bucket N, then one of the same token in bucket N+1, from an empty service: the stream holds N's candle closed and a new open candle for N+1 at the second trade's price and volume |
| AppConfig.MergeWith | src/config.rs:117-139 | host and port come from `other`; workers from `other` when set, else kept; tokens from `other` when its list is non-empty, else kept; logging, performance and data generation always from `other`; so the merge validates exactly as `other` does |
| AppConfig.Validate | src/config.rs:142-156 | error iff port = 0, volatility outside [0, 1], or volume minimum ≥ maximum; the checks apply in that order and the first failure's message is returned |
| AppConfig.Symbols | src/config.rs:159-165 | same length as the token list, the i-th symbol at index i |
| AppConfig.GetSupportedTokens | src/config.rs:159-165 | the configured symbols, in configured order, same length |
| AppConfig.Find | src/config.rs:168-173 | `None` iff no entry has the symbol; otherwise the first entry with it |
| AppConfig.GetTokenInfo | src/config.rs:168-173 | `None` iff the symbol is not among the supported tokens; otherwise the first entry with that symbol |
| AppConfig.DefaultConfig | src/config.rs:176-222 | `Config::default`: host 127.0.0.1, port 8080, no worker count, DOGE/SHIB/PEPE, log level info, the performance and data-generation defaults; stated by DefaultValidates and DefaultTokens |
| AppConfig.DefaultValidates | src/config.rs:239-247 | the default configuration validates, and with port 0 it fails with the port message |
| AppConfig.DefaultTokens | src/config.rs:249-260 | the default symbols are DOGE, SHIB, PEPE in order; DOGE's entry has base price 0.15 |

## Left out

- Actor runtime and transport: the heartbeat, frame handling (ping/pong, binary, close) and the `/ws` route. Of the `Actor` start/stop hooks only the manager updates are modelled, as `WsSession.Started` and `WsSession.Stopped`. The heartbeat `started` launches and the log lines are not.
- JSON encoding and decoding (serde, TOML) and `send_message`. Messages a handler sends are returned as values.
- Concurrency. `DashMap` and `Arc<RwLock<WsManager>>` are modelled as plain sequential state. Lock poisoning (a failed `write()`, after which the source skips the manager update) is not modelled.
- `Config::load` and `load_from_file`, which read files and the environment. Also left out: the REST handlers (src/api/rest.rs), bootstrap (src/main.rs), mock data generation, and `Transaction::new`'s clock read. A trade's timestamp is an explicit field.
- IEEE-754 behaviour: prices and volumes are exact reals, so NaN and rounding in `max`, `min` and `+=` are not modelled.
- AppConfig.Validate: the `f64` comparisons at src/config.rs:147 and src/config.rs:151 are over exact reals. A NaN volatility or a NaN volume bound makes every comparison false, so the source accepts it; the model has no NaN and does not capture this.
- chrono's leap-second representation: the model's nanosecond field lies in [0, 10⁹), so `with_nanosecond` values of 10⁹ or more (leap seconds) are not represented.
- Integer widths: bucket counts and timestamps are unbounded; `usize` and `u64` config fields are `nat`. `u16` ports keep their range.
- Session UUIDs are integers, and `Uuid::new_v4` randomness is a constructor parameter. A session's actor address is modelled only as its presence in the manager's address set.
- KLineModel.Update and KLineModel.Close: `update(&mut self)` and `close(&mut self)` are functions returning the new candle, and the store writes it back into its map. A candle is owned by its map entry, so no aliasing is lost.
- KLineStore.KLineService.GetLatestKLine and KLineStore.KLineService.GetCurrentKLine are ghost functions choosing one candle of maximal timestamp. Which of several equal-timestamp candles `max_by_key` returns is not specified. Under the store invariant, timestamps within a stream are distinct keys, so no ties arise.
- KLineStore.KLineService.GetAvailableTokens returns a set rather than a `Vec`, whose order follows `DashMap` iteration and is unspecified.
- KLineStore.KLineService.CloseExpiredKLines, CollectInRange and the broadcast loops visit map keys in an unspecified order, as `DashMap` and `HashMap` iteration do.
- The unused `kline_retention_hours` setting: nothing evicts candles.
