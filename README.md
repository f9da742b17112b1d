# Orderbook-3D-Visualizer — verified model of the order-book pipeline

This project models, in Dafny, the data logic behind the 3-D order-book
visualiser: how the `Orderbook3D` component turns each Binance depth message
into the displayed, venue-merged book, and the stateful helpers of
`src/lib/enhancedWebSocket.ts` and `src/lib/mockVenueData.ts`.

- **Merge** (`orderbook_view.dfy`): Binance's levels are tagged with venue and
  time and followed by the levels of each *enabled* simulated venue (OKX,
  Bybit, Deribit, in that order). Nothing changes unless Binance sent at least
  one bid and one ask.
- **Ranking** (`ranking.dfy`): bids best (highest) first, asks best (lowest)
  first, with the stable ordering of JavaScript's `sort`. The in-place array
  sort is proved to compute a stable insertion sort, which is proved sorted, a
  permutation of its input and stable.
- **Cumulative depth** (`depth.dfy`): a running total written into each entry.
- **Display** (`display.dfy`): the venue / quantity / price-range filter, the cut
  to `MAX_ORDERS` (20), and the 60-snapshot history.
- **Pressure zones** (`pressure_zones.dfy`) and **statistics** (`stats.dfy`).
- **Mock ladders** (`mock_ladder.dfy`, `mock_venue_data.dfy`).
- **Reconnecting socket client** (`enhanced_websocket.dfy`), **multi-venue
  aggregator** (`venue_aggregator.dfy`), **performance monitor**
  (`performance_monitor.dfy`).

Prices and quantities are `real`. JavaScript `Math.round` is `(x + 0.5).Floor`.
`Math.random()`, `Date.now()` and `performance.now()` are parameters: a
`draws: seq<real>` whose k-th element is the k-th random value in call order,
and `now` / `timestamp` values. Socket and timer events (open, close, error,
message, the reconnect timer firing) are methods the environment calls one at
a time. What the client reports to its callbacks is recorded in append-only
log fields.

In `src/components/Orderbook3D.tsx:314-315` Binance's entries are always
merged; only the display filter (lines 356-378) checks whether Binance is
enabled. So with Binance disabled its quantity still counts in the cumulative
depth of the mock venues' displayed entries.
`OrderbookView.OrderbookView.OnBinanceUpdate` states exactly this behaviour.

## Model

| member | source | states |
|---|---|---|
| OrderbookTypes.Round | src/components/Orderbook3D.tsx:402 | `Math.round`: the result is the integer nearest to x, with halves going up |
| OrderbookTypes.MinReal | src/components/Orderbook3D.tsx:418 | `Math.min`: no larger than either argument, and equal to one of them |
| MockLadder.GenerateMockVenueData | src/components/Orderbook3D.tsx:67-82 | one entry per simulated venue, in the order OKX, Bybit, Deribit |
| MockLadder.MockLadderShape | src/components/Orderbook3D.tsx:67-82 | each venue quotes 15 levels a side; bids start at basePrice − spread/2 and fall strictly; asks start at basePrice + spread/2 and rise strictly; with spread ≥ 0 every mock bid is ≤ every mock ask; every quantity lies in [0.1, 3.1) |
| OrderbookView.Tag | src/components/Orderbook3D.tsx:290-306 | tagging keeps one entry per level |
| OrderbookView.MockEntriesFromEnabledVenues | src/components/Orderbook3D.tsx:317-337 | every merged mock entry comes from an enabled venue of the ladder, carries the update's timestamp and has no cumulative quantity yet |
| OrderbookView.MockEntriesCount | src/components/Orderbook3D.tsx:317-337 | each enabled mock venue contributes exactly its 15 levels per side; a disabled one contributes none |
| OrderbookView.Merge | src/components/Orderbook3D.tsx:314-337 | the merged side is Binance's entries followed by the enabled mock venues' entries, in venue order |
| OrderbookView.DisplayedSideWellFormed | src/components/Orderbook3D.tsx:340-378 | a displayed side is ranked for its side, holds at most 20 entries, and every entry passes the filters |
| OrderbookView.RankAndDisplay | src/components/Orderbook3D.tsx:340-378 | sorting an array in place, writing running totals in place, then filtering and truncating yields the reference pipeline `Displayed(Accumulate(SortBy(...)))` |
| OrderbookView.Rebuild | src/components/Orderbook3D.tsx:309-378 | the ladders are generated around Binance's mid price and spread, and each side becomes the ranked, accumulated, filtered and truncated merge of Binance's entries and the enabled mock venues' entries |
| OrderbookView.OrderbookView.constructor | src/components/Orderbook3D.tsx:229-280 | the view starts with empty sides and empty histories, and satisfies its invariant |
| OrderbookView.OrderbookView.OnBinanceUpdate | src/components/Orderbook3D.tsx:286-388 | with an empty Binance side nothing changes; otherwise the ladders are generated around Binance's mid price and spread, each side becomes the ranked, accumulated, filtered and truncated merge, and the histories grow by these snapshots; the invariant (ranked, ≤ 20, all passing, ≤ 60 snapshots) is kept |
| Ranking.SortByCorrect | src/components/Orderbook3D.tsx:340-341 | the sorted side is ordered (bid prices never rise, ask prices never fall) and is a permutation of the merged side |
| Ranking.SortByStable | src/components/Orderbook3D.tsx:340-341 | entries of equal price keep their merge order, as JavaScript's stable sort guarantees |
| Ranking.InsertInPlace | src/components/Orderbook3D.tsx:340-341 | one insertion step places the element where the stable insertion puts it and leaves the rest of the array unchanged |
| Ranking.SortInPlace | src/components/Orderbook3D.tsx:340-341 | the array sort computes the stable sort of the array's old contents |
| Depth.Accumulate | src/components/Orderbook3D.tsx:343-353 | the depth pass keeps the side's length |
| Depth.FillCumulative | src/components/Orderbook3D.tsx:343-353 | the in-place `forEach` pass writes exactly the reference running totals |
| Depth.AccumulateKeepsLevels | src/components/Orderbook3D.tsx:343-353 | the depth pass changes only `cumulativeQuantity`: every entry keeps its price, quantity, venue and timestamp; the last entry carries the side's total quantity |
| Depth.CumulativeNonDecreasing | src/components/Orderbook3D.tsx:343-353 | with non-negative quantities the cumulative quantity never decreases along a side |
| Display.KeepPassing | src/components/Orderbook3D.tsx:356-365 | an entry is kept exactly when it is in the input and has an enabled venue, quantity ≥ threshold, and price within each non-zero bound |
| Display.Displayed | src/components/Orderbook3D.tsx:356-378 | the displayed side is the first min(20, passing) passing entries |
| Display.KeepPassingIsSubsequence | src/components/Orderbook3D.tsx:356-365 | the filtered list is an order-preserving subsequence of its input |
| Display.DisplayedIsSubsequence | src/components/Orderbook3D.tsx:356-378 | the displayed list is an order-preserving subsequence of the ranked list |
| Display.DisplayedKeepsRanking | src/components/Orderbook3D.tsx:356-378 | filtering and truncation keep a ranked side ranked, and each entry, with its pre-filter cumulative quantity, is an entry of the ranked side |
| Display.AppendSnapshot | src/components/Orderbook3D.tsx:384-387 | the new snapshot is last, and the history is the latest ≤ 60 items of the old history followed by the snapshot |
| Display.HistoryKeepsLatest | src/components/Orderbook3D.tsx:384-387 | after any run of updates the history is exactly the latest ≤ 60 snapshots, oldest first |
| PressureZones.DistinctVenues | src/components/Orderbook3D.tsx:417 | a zone's venue list has no duplicates and holds exactly the venues present in the bucket |
| PressureZones.Intensity | src/components/Orderbook3D.tsx:418 | intensity is at most 3 and at most total / 2.0, and equals one of them, so it is min(total / 2.0, 3); it is at least 1 for a qualifying total |
| PressureZones.GroupByRoundedPrice | src/components/Orderbook3D.tsx:400-405 | each rounded price that occurs maps to its orders in list order; the keys are distinct; absent keys have empty buckets |
| PressureZones.DetectPressureZones | src/components/Orderbook3D.tsx:395-424 | every zone reports a bucket whose total is ≥ 2.0, with that total, its distinct venues and its intensity; every such bucket is reported; no bucket is reported twice |
| Stats.ComputeStats | src/components/Orderbook3D.tsx:427-440 | volumes are the displayed quantities summed; spread is best ask − best bid, or 0 if either side is empty; the ratio satisfies ratio × askVolume = bidVolume when askVolume > 0 and is 0 otherwise; the zone count is passed through |
| Stats.DisplayedVolumeWithinDepth | src/components/Orderbook3D.tsx:343-378 | with non-negative quantities the displayed volume of a side never exceeds the cumulative quantity on its last displayed entry |
| MockVenueData.GenerateMockVenueData | src/lib/mockVenueData.ts:9-33 | the venue loop with its nested level loop produces the 30-bid, 30-ask book level by level |
| MockVenueData.MockBookAt | src/lib/mockVenueData.ts:13-29 | position j holds level j mod 10 of venue j / 10 (Binance, OKX, Bybit), bid priced 29000 + 10·i + idx, ask 30000 + 10·i + idx, quantities 4 × the level's two draws |
| MockVenueData.MockBookSeparated | src/lib/mockVenueData.ts:20-25 | every bid is ≤ 29092 and every ask ≥ 30000, so every bid is below every ask; each ask is exactly 1000 above the bid at its position |
| MockVenueData.MockBidsRiseWithinVenue | src/lib/mockVenueData.ts:18-21 | within one venue bid prices strictly increase, so bids are not listed best-first |
| MockVenueData.MockQuantitiesBounded | src/lib/mockVenueData.ts:21-26 | with random values in [0, 1) every quantity lies in [0, 4) |
| EnhancedSocket.ConnectionStatus | src/lib/enhancedWebSocket.ts:113-126 | each of the four ready states has its own label, and exactly the other values give "Unknown" |
| EnhancedSocket.EnhancedWebSocket.constructor | src/lib/enhancedWebSocket.ts:21-24 | the client stores its configuration, starts with no attempts and no handlers, and dials at once |
| EnhancedSocket.EnhancedWebSocket.Connect | src/lib/enhancedWebSocket.ts:26-34 | a created socket starts connecting; a failed creation schedules a reconnect, or reports the give-up when the cap is reached |
| EnhancedSocket.EnhancedWebSocket.ScheduleReconnect | src/lib/enhancedWebSocket.ts:69-83 | a reconnect is armed only while attempts < cap; at the cap the give-up is reported and nothing is armed |
| EnhancedSocket.EnhancedWebSocket.OnOpen | src/lib/enhancedWebSocket.ts:39-43 | opening resets the attempt counter to 0 and reports `onConnect` |
| EnhancedSocket.EnhancedWebSocket.OnClose | src/lib/enhancedWebSocket.ts:54-61 | a close reports `onDisconnect` and schedules a reconnect exactly when the close was not requested and attempts < cap |
| EnhancedSocket.EnhancedWebSocket.OnError | src/lib/enhancedWebSocket.ts:63-66 | an error only reports `onError`; it schedules nothing |
| EnhancedSocket.EnhancedWebSocket.OnReconnectTimer | src/lib/enhancedWebSocket.ts:75-82 | the counter rises by exactly 1 and stays ≤ cap; `onReconnect` receives the new value before the dial |
| EnhancedSocket.EnhancedWebSocket.Close | src/lib/enhancedWebSocket.ts:101-107 | close marks the client as intentionally closed and clears any pending reconnect; a later close event then schedules nothing |
| EnhancedSocket.EnhancedWebSocket.GetReadyState | src/lib/enhancedWebSocket.ts:109-111 | the socket's state, or CLOSED when there is no socket |
| EnhancedSocket.EnhancedWebSocket.AddMessageHandler | src/lib/enhancedWebSocket.ts:85-87 | a new id is appended; an existing id keeps its place and gets the new handler |
| EnhancedSocket.EnhancedWebSocket.RemoveMessageHandler | src/lib/enhancedWebSocket.ts:89-91 | only that id is deleted, and the others keep their order |
| EnhancedSocket.Without | src/lib/enhancedWebSocket.ts:89-91 | the id list without `id` holds every other id and nothing else |
| EnhancedSocket.EnhancedWebSocket.OnMessage | src/lib/enhancedWebSocket.ts:45-52 | a parsed message reaches every registered handler once, in registration order; an unparsable one reaches none and changes nothing |
| EnhancedSocket.OrderbookUpdate | src/lib/enhancedWebSocket.ts:151-166 | `onUpdate` is called exactly when the data is an object whose `bids` and `asks` are arrays, with the first min(20, n) levels of each, in order |
| EnhancedSocket.CreateEnhancedBinanceConnection | src/lib/enhancedWebSocket.ts:130-169 | the Binance client uses the depth-stream URL, a 3000 ms interval and a cap of 10, and has only the "orderbook" handler |
| VenueAggregator.KeepPairs | src/lib/enhancedWebSocket.ts:194-199 | a Binance level is kept exactly when its length is 2, in order |
| VenueAggregator.MockSide | src/lib/enhancedWebSocket.ts:215-222 | a simulated side has the requested number of levels, each a price/quantity pair |
| VenueAggregator.OkxSnapshot | src/lib/enhancedWebSocket.ts:209-226 | 15 levels a side, touch prices 49995 and 50005, quantities from the first draws, latency from the 31st draw |
| VenueAggregator.BybitSnapshot | src/lib/enhancedWebSocket.ts:229-246 | 12 levels a side, touch prices 49999 and 50011, quantities from the first draws, latency from the 25th draw |
| VenueAggregator.RemoveFirst | src/lib/enhancedWebSocket.ts:259-264 | an absent callback leaves the list unchanged; otherwise exactly one occurrence goes |
| VenueAggregator.UnsubscribeTwiceHarmless | src/lib/enhancedWebSocket.ts:259-264 | for a callback subscribed at most once, calling its unsubscribe function again changes nothing |
| VenueAggregator.IndexOf | src/lib/enhancedWebSocket.ts:260 | `indexOf` gives -1 exactly for an absent callback, otherwise its first position |
| VenueAggregator.MultiVenueAggregator.constructor | src/lib/enhancedWebSocket.ts:180-188 | no venues or subscribers yet; the Binance, OKX and Bybit connections are registered in that order |
| VenueAggregator.MultiVenueAggregator.UpdateVenueData | src/lib/enhancedWebSocket.ts:252-255 | the venue's entry is replaced wholesale, other venues are untouched, a new venue joins the key order last, and every current subscriber receives the new table, in order |
| VenueAggregator.MultiVenueAggregator.OnBinanceUpdate | src/lib/enhancedWebSocket.ts:190-205 | a `null` level makes the length test throw, so nothing is stored and no subscriber is called; otherwise the Binance snapshot keeps only levels of length 2, carries the time and no latency, Binance joins the key order if new, and every current subscriber receives the new table, in order |
| VenueAggregator.MultiVenueAggregator.OnOkxTick | src/lib/enhancedWebSocket.ts:209-226 | the OKX timer stores the OKX snapshot, OKX joins the key order if new, and every current subscriber receives the new table, in order, after the earlier calls |
| VenueAggregator.MultiVenueAggregator.OnBybitTick | src/lib/enhancedWebSocket.ts:229-246 | the Bybit timer stores the Bybit snapshot, Bybit joins the key order if new, and every current subscriber receives the new table, in order, after the earlier calls |
| VenueAggregator.MultiVenueAggregator.Subscribe | src/lib/enhancedWebSocket.ts:257-258 | the callback is appended |
| VenueAggregator.MultiVenueAggregator.Unsubscribe | src/lib/enhancedWebSocket.ts:259-264 | only the callback's first occurrence is removed |
| VenueAggregator.MultiVenueAggregator.GetVenueData | src/lib/enhancedWebSocket.ts:267-269 | present exactly for venues that have reported, with their latest snapshot |
| VenueAggregator.MultiVenueAggregator.GetAllVenues | src/lib/enhancedWebSocket.ts:271-273 | each reporting venue once, and nothing else |
| VenueAggregator.MultiVenueAggregator.GetLatency | src/lib/enhancedWebSocket.ts:275-277 | none for an unknown venue, otherwise the stored latency |
| VenueAggregator.MultiVenueAggregator.Close | src/lib/enhancedWebSocket.ts:279-284 | every cleanup runs once, in order; then connections, venues and subscribers are empty |
| Performance.Record | src/lib/enhancedWebSocket.ts:306-311 | the new sample is last, and the window is the latest ≤ 100 items of the old window followed by the sample |
| Performance.WindowKeepsLatest | src/lib/enhancedWebSocket.ts:296-317 | after any run of samples a window holds exactly the latest ≤ 100 of them, oldest first |
| Performance.MeanWithinRange | src/lib/enhancedWebSocket.ts:319-326 | the average of a window lies between its smallest and largest sample |
| Performance.PerformanceMonitor.constructor | src/lib/enhancedWebSocket.ts:288-290 | no samples and no running timers |
| Performance.PerformanceMonitor.StartTimer | src/lib/enhancedWebSocket.ts:292-294 | the label's timer (re)starts at `now` |
| Performance.PerformanceMonitor.EndTimer | src/lib/enhancedWebSocket.ts:296-317 | a missing start, or a start of 0, returns 0 and changes nothing; otherwise the elapsed time is recorded in the label's window, the start is removed and the elapsed time returned |
| Performance.PerformanceMonitor.GetAverageTime | src/lib/enhancedWebSocket.ts:319-326 | 0 for an unknown label, otherwise the window's mean |
| Performance.PerformanceMonitor.GetMetrics | src/lib/enhancedWebSocket.ts:328-346 | one summary per label with its mean, sample count and latest sample |
| Performance.PerformanceMonitor.Reset | src/lib/enhancedWebSocket.ts:348-351 | all samples and timers are forgotten |

## Left out

- 3-D rendering and the control panel (`AnimatedBar`, the grid, camera, canvas, bar colours and positions, the pressure-zone highlight): presentation only.
- `connectToBinanceOrderBook`, `new WebSocket`, `setTimeout`, `setInterval`, `clearTimeout` and `send`: socket and timer plumbing. Events are methods instead, and a created-or-thrown socket is a `created` flag.
- Floating point, `JSON.parse` and `toFixed`: numbers are exact reals, and a message is given already parsed (`Option<Json>`, `None` when parsing threw).
- The view's string coercion: the exchange sends decimal strings that are stored in `price`/`quantity` unconverted. So the mid price at src/components/Orderbook3D.tsx:310, the running totals at lines 345 and 351, the zone totals at lines 409-412 and the volume sums at lines 428-429 are string concatenations. The model takes the levels as numbers.
- React lifecycle (`useState`, `useEffect` re-subscription, `useMemo`, `viewMode`, `timeRange`): the view's venue toggles and filters are fixed for the life of an `OrderbookView` object.
- PressureZones.DetectPressureZones: emits zones in order of first occurrence of each rounded price, whereas `Object.entries` lists the non-negative integer keys in ascending order and then the others (negative rounded prices) in insertion order; only the set of zones and their number are used afterwards.
- EnhancedSocket.EnhancedWebSocket.OnMessage: handlers are values without effects. In the source a handler that throws stops the fan-out, and `forEach` runs over the live Map, so a handler added during delivery is also called and one deleted during delivery is skipped; the model delivers to exactly the handlers registered when the message arrives.
- EnhancedSocket.EnhancedWebSocket.ScheduleReconnect: a second call while a timer is pending overwrites the timer handle in the source, leaving the first timer live; the model keeps a single pending flag.
- The status strings passed to `onConnectionChange` ("Connected", "Reconnecting (n)", ...) are recorded as `Notice` values, not as text.
- VenueAggregator.MultiVenueAggregator.OnBinanceUpdate: the Binance connection is a separate client; its socket state machine is `EnhancedSocket.EnhancedWebSocket` and is not composed into the aggregator.
- VenueAggregator.MultiVenueAggregator.UpdateVenueData: subscribers are values without effects and receive a copy of the table as a value. In the source a subscriber that throws stops the fan-out, and `forEach` runs over the live array, so a subscriber that unsubscribes during a publish (`splice`) makes the next subscriber miss that update; the model calls exactly the subscribers present when the update arrives.
- VenueAggregator.KeepPairs: the length of a string level is counted in Unicode scalar values, whereas JavaScript counts UTF-16 code units (a string of one astral character has length 2 there). Numbers, booleans and objects without a `length` field are dropped, as `undefined === 2` is false.
- Performance.PerformanceMonitor.EndTimer: a start time of NaN is also falsy in the source; reals have no NaN.
- src/lib/binanaceSocket.ts, src/hooks/useOrderbook.ts, src/lib/mockOkxSocket.ts, src/lib/mockOrderbook.ts and the pages are not part of this model: thin socket wrappers, a React hook, random arrays and framework glue.
