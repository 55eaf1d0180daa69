# c2c_monitor in Dafny

A model of the sequential core of c2c_monitor, a service that watches
peer-to-peer (C2C) USDT/CNY offers on Binance and OKX. It compares them with
the USD/CNY exchange rate and sends an e-mail when the spread opens. It also
serves a dashboard page that charts the price history. The model covers:

- **Best-offer selection** (`Exchange`). Binance and OKX answers are checked
  for HTTP status and API code. Offers with a non-positive price are dropped;
  OKX also drops offers outside the amount window. What is left is sorted by
  side, ranked 1..n and cut to the single best offer. The ranking loop and
  the sort work in place on an `array`.
- **The monitor service** (`Monitor`), as a class whose fields are the
  service's maps. It covers:
  - per-service OK/Error health, with one "service down" e-mail per outage;
  - the dynamic alert threshold: an initial alert once the spread reaches
    the threshold, subject to a 30-minute cooldown; after that, only a
    strictly lower price alerts;
  - resetting one market;
  - the forex update with its fallback to the newest stored rate;
  - the C2C check over the configured exchanges and amount tiers.

  Each step is first a pure function over a value. The methods are proved
  to update the fields exactly as those functions say.
- **The MySQL repository** (`Repository`), as a class whose fields are the
  tables. It covers:
  - hour and day buckets;
  - the table names;
  - the raw price insert with its hourly and daily "keep the least price"
    upserts;
  - the forex insert with its "last write wins" upserts;
  - the history query: optional filters, ascending order, limit, and the
    merchant join;
  - the newest forex rate;
  - the alert-state table.

  A failing database statement is an input (`engineFails`). A failed
  transaction leaves every table unchanged.
- **The HTTP handlers** (`Api`): amount validation, the range window, the
  fixed chart filter, and the three-series reply. A successful query with
  no rows gives `null`; a failed query keeps its empty list.
- **The dashboard page** (`Client`), as a class `ViewState` holding the
  page's state. It covers:
  - config reconciliation (PascalCase or snake_case fields, optional `data`
    envelope, defaults);
  - the amount tags;
  - keeping the selected amount listed;
  - series normalisation to milliseconds;
  - the tooltip spread and its defaults;
  - alert-key parsing;
  - the health indicator.

  JavaScript values are modelled by `JsValue`, with the language's
  truthiness and `||`.
- **End to end** (`EndToEnd`): the configuration the server sends as the
  page reads it, the alert key the service builds as the page splits it, and
  a history series as the chart receives it.

`Numbers` models Go's `%.0f` and `strconv.ParseFloat` and JavaScript's
`parseFloat` on plain decimal text, and JavaScript's `parseInt` with no
radix, including its `0x` prefix and the white space it skips. `Sorting` holds a stable
insertion sort (JavaScript's array sort on numbers, and SQL `ORDER BY`) and
an in-place selection sort (Go's `sort.Slice`).

Times are Unix seconds. Go's zero `time.Time` is `Domain.ZeroTime`. Floating
point numbers are modelled as reals.

The model follows the code at these points, where its behaviour is easy to
misread:

- When the selected amount disappears from the list, `renderConfigUI` picks
  `target_amounts[0]`, the first amount in stored order. It does not pick
  the smallest one (`Client.AmountAfterRenderListed`).
- Reconciling the object `saveConfig` builds gives the configuration back
  only when both intervals are truthy. A `0` or `NaN` interval
  (`parseInt` of an empty input) falls back to its default
  (`Client.SavedConfigReconciles`).
- `GET /api/config` returns the configuration with no `data` envelope
  (`Api.Handler.GetConfig`).
- The history handler sends only `t` and `v`, so the tooltip always shows
  the defaults "Unknown", 0 and "-" (`EndToEnd.HistoryReachesChart`).
- The history query orders ascending and then applies its limit, so a limit
  keeps the oldest rows (`Repository.LimitKeepsOldest`).
- The router registers only `/api/v1/history` and `/api/config`. The page's
  alert-table, alert-reset and status requests therefore reach no handler of
  this server. The model treats their answers as inputs.
- On start-up with a non-empty amount list, the first chart request is sent
  twice: once from `renderConfigUI` and once from the start-up callback
  (`Client.ViewState.Start`).
- The amount selector reads its option back through `parseInt`, which drops
  the fractional part of a fractional amount (`Client.ViewState.SelectAmount`).
- A negative amount tier prints under `%.0f` with a leading '-', so its
  market key (for example `Binance-BUY--5`) splits into four parts and
  `resetAlert` returns without sending a request
  (`EndToEnd.NegativeTierCannotReset`).

## Model

| member | source | states |
|---|---|---|
| Numbers.RoundHalfEven | internal/service/monitor_service.go:297 | the integer `%.0f` prints lies within 0.5 of the amount; it is non-negative for a non-negative amount |
| Numbers.FormatFixed0ParsesBack | internal/service/monitor_service.go:297 | the text `%.0f` prints for a non-negative amount reads back, with both `parseFloat` and `strconv.ParseFloat`, as the rounded amount |
| Numbers.FormatFixed0OfRounded | internal/service/monitor_service.go:297 | a non-negative amount and its rounded value print the same text, so they address the same market key |
| Numbers.JsParseIntDigits | frontend/js/app.js:524 | the decimal digits of a whole number, with or without a minus sign, read back through `parseInt` as that number |
| Numbers.JsParseIntHex | frontend/js/app.js:524 | after an optional minus sign, `0x` followed by hexadecimal digits reads as their base-16 value, negated under the sign |
| Numbers.JsParseIntSkipsSpace | frontend/js/app.js:524 | leading JavaScript white space (including vertical tab, form feed, no-break space, the Unicode spaces and the byte order mark) does not change what `parseInt` reads |
| Sorting.SortBy | frontend/js/app.js:437 | the result is a permutation of the input, ascending by the key |
| Sorting.InsertSorted | frontend/js/app.js:437 | inserting into an ascending sequence keeps it ascending |
| Sorting.SortInPlace | internal/infrastructure/exchange/binance.go:162-170 | the array ends ascending by the key and holds a permutation of its old contents |
| Exchange.PayMethodsText | internal/infrastructure/exchange/binance.go:129-138 | cutting the brackets off the `%v` rendering leaves the method names separated by single spaces, and "" when there are none |
| Exchange.AssignRanks | internal/infrastructure/exchange/binance.go:173-175 | every point keeps all its fields except its rank, which becomes its position plus one |
| Exchange.RankAndTruncate | internal/infrastructure/exchange/binance.go:162-180 | at most one point; none exactly when there are no candidates; otherwise a candidate with the best price for the side, re-ranked 1 |
| Exchange.CollectBinance | internal/infrastructure/exchange/binance.go:116-159 | the append loop yields one point per positive-price ad, in answer order |
| Exchange.BinanceCandidatesAre | internal/infrastructure/exchange/binance.go:141-157 | every candidate comes from an ad with a positive price and carries "Binance" and the requested side and amount; every positive-price ad yields a candidate |
| Exchange.BinanceTopPrices | internal/infrastructure/exchange/binance.go:101-182 | a non-200 status or a code other than "000000" is an error; otherwise the best positive-price offer, ranked 1, or nothing |
| Exchange.BinanceTopIsBest | internal/infrastructure/exchange/binance.go:141-180 | no result exactly when no ad has a positive price; the result is rank 1 with exchange "Binance" and the requested side and amount; it has the lowest positive price for a user BUY and the highest for SELL |
| Exchange.CollectOkx | internal/infrastructure/exchange/okx.go:97-135 | the append loop keeps exactly the positive-price ads inside the amount window, in answer order |
| Exchange.OkxCandidatesAre | internal/infrastructure/exchange/okx.go:109-133 | every candidate comes from an ad with a positive price inside the window (no window for amount 0) and carries "OKX" and the request; every such ad yields a candidate |
| Exchange.OkxTopPrices | internal/infrastructure/exchange/okx.go:49-159 | a side other than BUY or SELL is an "invalid side" error; then non-200 status and non-zero code are errors; otherwise the best offer is taken from the sell ads for BUY and from the buy ads for SELL |
| Exchange.OkxTopIsBest | internal/infrastructure/exchange/okx.go:127-157 | no result exactly when no ad passes the price and window filter; the result is rank 1 "OKX"; it has the minimum kept price for BUY and the maximum for SELL |
| Repository.BucketTime | internal/infrastructure/persistence/mysql/repository.go:170-179 | the bucket is never after the time; hour buckets are whole hours less than an hour back; day buckets are local midnights less than a day back; other granularities leave the time unchanged |
| Repository.BucketTimeIdempotent | internal/infrastructure/persistence/mysql/repository.go:170-179 | bucketing a bucket changes nothing |
| Repository.C2CTableByGranularity | internal/infrastructure/persistence/mysql/repository.go:181-190 | the hourly table exactly for hour, the daily table exactly for day, the raw table exactly for anything else |
| Repository.ForexTableByGranularity | internal/infrastructure/persistence/mysql/repository.go:192-201 | the same three-way choice for the forex tables |
| Repository.UpsertLeast | internal/infrastructure/persistence/mysql/repository.go:246-306 | adds the point's 7-part key; a new key stores the price and the bucket time; an existing key keeps the lesser price and its creation time; every other key is unchanged |
| Repository.AggregateKeepsMinimum | internal/infrastructure/persistence/mysql/repository.go:233-240 | after a batch, a key is present iff it was or some point maps to it; its price is at most the old price and at most every point's price; it equals one of them |
| Repository.UpsertLatest | internal/infrastructure/persistence/mysql/repository.go:511-555 | the (bucket, pair) key takes the new rate and source (last write wins) and keeps its creation time; every other key is unchanged |
| Repository.FilterPrices | internal/infrastructure/persistence/mysql/repository.go:347-370 | the result is a sub-multiset of the rows and contains exactly the rows that match every set filter field |
| Repository.SelectedPricesMatch | internal/infrastructure/persistence/mysql/repository.go:347-378 | every returned row matches the filter and is the stored row with its own id |
| Repository.SelectedPricesAscending | internal/infrastructure/persistence/mysql/repository.go:372 | returned rows ascend by creation time |
| Repository.SelectedPricesComplete | internal/infrastructure/persistence/mysql/repository.go:374-376 | a positive limit returns exactly the smaller of the limit and the number of matching rows; with no limit, or when no more rows match than the limit, every matching row of the table is returned |
| Repository.LimitKeepsOldest | internal/infrastructure/persistence/mysql/repository.go:372-376 | no matching row that is left out is older than a returned row |
| Repository.TakeOfSortedKeepsSmallest | internal/infrastructure/persistence/mysql/repository.go:374-376 | a limit on an ascending sequence keeps elements no larger than those it drops |
| Repository.FilterForex | internal/infrastructure/persistence/mysql/repository.go:483-490 | exactly the rows of the pair inside the inclusive, optional window |
| Repository.SelectForexSpec | internal/infrastructure/persistence/mysql/repository.go:473-509 | the forex history is exactly the pair's rows inside the window, with their ids, ascending by time |
| Repository.LatestIndexIsNewest | internal/infrastructure/persistence/mysql/repository.go:446-454 | there is a latest row iff some row has the pair; it is not older than any row of the pair, and earlier rows of the pair are strictly older |
| Repository.JoinNicknames | internal/infrastructure/persistence/mysql/repository.go:382-401 | one record per row, in order, with the nickname from the (exchange, merchant id) join, or "" |
| Repository.MySqlRepository.UpsertC2CAggregate | internal/infrastructure/persistence/mysql/repository.go:246-306 | hour and day upsert their table with the least price; any other granularity changes nothing |
| Repository.MySqlRepository.SavePricePoints | internal/infrastructure/persistence/mysql/repository.go:205-244 | an empty batch writes nothing and succeeds; a failing engine writes nothing and errs; otherwise one raw row per point plus both aggregate upserts per point |
| Repository.MySqlRepository.GetPriceHistory | internal/infrastructure/persistence/mysql/repository.go:308-310 | the selected raw rows with nicknames joined in, or the engine error |
| Repository.MySqlRepository.SaveMerchant | internal/infrastructure/persistence/mysql/repository.go:407-421 | upserts the nickname on (exchange, merchant id), or errs and changes nothing |
| Repository.MySqlRepository.SaveForexRate | internal/infrastructure/persistence/mysql/repository.go:425-444 | in one transaction, the raw row plus the hourly and daily last-write-wins upserts; a failure changes nothing |
| Repository.MySqlRepository.GetLatestForexRate | internal/infrastructure/persistence/mysql/repository.go:446-462 | the newest row of the pair, no rate and no error when there is none, or the engine error |
| Repository.MySqlRepository.GetForexHistory | internal/infrastructure/persistence/mysql/repository.go:464-466 | the pair's rows in the window, ascending, or the engine error |
| Repository.MySqlRepository.UpsertAlertState | internal/infrastructure/persistence/mysql/repository.go:559-576 | the (exchange, side, amount) key takes the new trigger price and alert time; nothing else changes |
| Repository.MySqlRepository.DeleteAlertState | internal/infrastructure/persistence/mysql/repository.go:578-582 | removes that key's row, if any; nothing else changes |
| Repository.MySqlRepository.GetAlertStates | internal/infrastructure/persistence/mysql/repository.go:584-605 | every stored alert state |
| Monitor.NextC2CDelay | internal/service/monitor_service.go:100-109 | the delay lies between the base (the configured minutes if positive, else 3) and the base plus 60 seconds |
| Monitor.EqualFoldIsEquivalence | internal/service/monitor_service.go:197 | the case-insensitive name match is reflexive, symmetric and transitive |
| Monitor.StatusStep | internal/service/monitor_service.go:50-79 | the service's entry exists with the check time; it is "Error" with the error text iff there was an error, and "OK" with an empty message otherwise; other entries are unchanged; an e-mail is queued only on entry into Error |
| Monitor.OneNoticePerOutage | internal/service/monitor_service.go:63-71 | over any run of checks, the service-down e-mails equal the outages (failures not preceded by a failure), and the final state is Error iff the last check failed |
| Monitor.AlertStepLowersThreshold | internal/service/monitor_service.go:363-367 | a recorded low is never raised or dropped; an e-mail is queued iff an alert fires, with the market key and the alert kind; no alert changes nothing; an alert records the alerted price as the market's low and now as its last alert time |
| Monitor.AlertNeedsOpportunity | internal/service/monitor_service.go:292-326 | an initial alert fires exactly when the price is positive, the market has no recorded low, the spread reaches the threshold and the last alert is at least 30 minutes old; a lower alert fires exactly when the market has a recorded low and the price is positive and strictly below it, whatever the spread and the last alert time |
| Monitor.NoRepeatAlert | internal/service/monitor_service.go:307-312 | the same offer never alerts twice in a row, whatever the forex rate, threshold or time of the second check |
| Monitor.ResetRearmsThreshold | internal/service/monitor_service.go:372-378 | after a reset, the market alerts again exactly when the spread reaches the threshold and the cooldown has passed |
| Monitor.AmountStepGrows | internal/service/monitor_service.go:209-266 | one amount tier only appends stored prices and e-mails, never forgets a service or a triggered market, never raises a low, and leaves the forex and alert-state tables alone |
| Monitor.RunAmountsGrows | internal/service/monitor_service.go:209-266 | the same for all amount tiers of an exchange |
| Monitor.RunExchangesGrows | internal/service/monitor_service.go:190-268 | the same for a whole C2C check |
| Monitor.UnconfiguredSkipped | internal/service/monitor_service.go:195-206 | an exchange that matches no configured name is never fetched: the check is as if it were not registered |
| Monitor.MonitorService.UpdateServiceStatus | internal/service/monitor_service.go:50-79 | the status map and the e-mail outbox become `StatusStep` of the old ones; alert state and configuration are untouched |
| Monitor.MonitorService.CheckAlert | internal/service/monitor_service.go:288-369 | the alert caches and the outbox become `AlertStep` of the old ones; the health board is untouched |
| Monitor.MonitorService.RecordPrices | internal/service/monitor_service.go:233-261 | one merchant upsert per point that names a merchant, then the batch save; failures are only logged |
| Monitor.MonitorService.IsConfigured | internal/service/monitor_service.go:194-206 | true iff the name matches a configured exchange case-insensitively |
| Monitor.MonitorService.CheckAmount | internal/service/monitor_service.go:210-265 | one amount tier is exactly `AmountStep`: a failed fetch only marks the exchange down; a success marks it OK; a non-empty answer is also stored and its rank-1 point checked for an alert; the configuration and the forex rate stay |
| Monitor.MonitorService.CheckExchange | internal/service/monitor_service.go:208-266 | every amount tier in order: a failed fetch marks the exchange down; a non-empty answer is stored and its first point is checked for an alert |
| Monitor.MonitorService.CheckC2C | internal/service/monitor_service.go:190-268 | nothing at all while no forex rate is known; otherwise every registered and configured exchange in iteration order |
| Monitor.MonitorService.UpdateForex | internal/service/monitor_service.go:154-188 | a fetched rate becomes current and is stored; after a failed fetch the newest stored USDCNY rate is used if the database has one; the forex service's health follows the fetch |
| Monitor.MonitorService.ResetAlertState | internal/service/monitor_service.go:372-378 | removes only that market's recorded low; its last alert time, other markets and the health board stay |
| Monitor.MonitorService.GetAlertStates | internal/service/monitor_service.go:381-390 | a copy equal to the recorded lows |
| Monitor.MonitorService.GetServiceStatuses | internal/service/monitor_service.go:271-286 | a copy equal to the status map |
| Monitor.MonitorService.GetPriceHistory | internal/service/monitor_service.go:394-396 | the repository's price history |
| Monitor.MonitorService.GetForexHistory | internal/service/monitor_service.go:398-400 | the repository's forex history |
| Monitor.MonitorService.GetConfig | internal/service/monitor_service.go:402-404 | the current configuration |
| Monitor.MonitorService.UpdateConfig | internal/service/monitor_service.go:406-410 | replaces the configuration and nothing else |
| Api.RangeStart | internal/api/handlers.go:42-51 | 7 days back for "7d", 30 days back for "30d", one day back for anything else; always within the last 30 days |
| Api.RateSamples | internal/api/handlers.go:78-82 | `null` iff there are no rates; otherwise one `{t, v}` per rate, in order |
| Api.PriceSamples | internal/api/handlers.go:89-93 | `null` iff there are no prices; otherwise one `{t, v}` per price, in order |
| Api.CollectRates | internal/api/handlers.go:78-82 | the append loop over a forex answer builds that list |
| Api.CollectPrices | internal/api/handlers.go:89-93 | the append loop over a price answer builds that list |
| Api.HistoryRowsAreChartRows | internal/api/handlers.go:55-64 | every selected row is a stored rank-1 USDT/CNY BUY row of the exchange, for exactly the amount, inside the window |
| Api.ExchangeSeriesOrdered | internal/api/handlers.go:55-64 | an exchange series has at most 5000 samples, ascending in time |
| Api.ExchangeSeriesIsRankOneHistory | internal/api/handlers.go:85-105 | sample k of an exchange series is the time and price of the stored row whose id the k-th selected row carries, and that row is such a chart row; samples ascend and number at most 5000 |
| Api.Handler.GetHistory | internal/api/handlers.go:23-108 | a missing amount is 400 "amount parameter is required"; an unparsable one is 400 "invalid amount"; otherwise forex, Binance and OKX series for the range, where a failed query keeps its empty list |
| Api.Handler.GetConfig | internal/api/handlers.go:110-112 | the service's configuration itself |
| Api.Handler.UpdateConfig | internal/api/handlers.go:114-123 | a body that fails to bind is 400 and changes nothing; otherwise the configuration is replaced and nothing else changes |
| Client.ReconcilePrecedence | frontend/js/app.js:234-241 | each field takes a truthy PascalCase value, else a truthy snake_case value, else 3 / 1 / []: for the amounts, the numbers of `TargetAmounts` when it is truthy, else those of `target_amounts` when that is truthy, else none; both intervals always come out truthy |
| Client.ReconcileEnvelope | frontend/js/app.js:234 | a truthy `data` member is read instead of the body |
| Client.SavedConfigReconciles | frontend/js/app.js:398-402 | reconciling the object `saveConfig` builds always succeeds and keeps the amounts; it gives the object back exactly when both intervals are truthy |
| Client.AddAmountSpec | frontend/js/app.js:524-527 | the list changes iff `parseInt` (with its `0x` prefix and white-space rules) gives a non-negative integer not yet listed, and then only by appending it; no duplicate is ever added |
| Client.RemoveAmountSpec | frontend/js/app.js:533 | every occurrence goes, every other amount stays, the length drops by the multiplicity, and removing an absent amount changes nothing |
| Client.Truncate | frontend/js/app.js:194 | the result is a whole number: the largest one not above a non-negative amount, the smallest one not below a negative amount |
| Client.SortedAmounts | frontend/js/app.js:437 | the tags and options are the amounts, ascending |
| Client.AmountAfterRenderListed | frontend/js/app.js:465-469 | with a non-empty list the selection ends up listed; a listed selection never moves; a replaced one becomes the first stored amount |
| Client.ProcessData | frontend/js/app.js:474-485 | an absent list gives no points; otherwise one point per item, in order, with the time in milliseconds and the fields copied by position |
| Client.ForexData | frontend/js/app.js:490 | an absent list gives no points; otherwise `[time in ms, value]` per item, in order |
| Client.TooltipLines | frontend/js/app.js:122-152 | one line per hovered series |
| Client.ForexValueIsHovered | frontend/js/app.js:113-120 | the forex value used is `null` or the value of a hovered forex item |
| Client.TooltipSpreadGuarded | frontend/js/app.js:113-143 | a forex line exactly for the forex series; details exactly for a truthy price; a spread only with a non-zero hovered forex value, equal to (forex − price)/forex·100; missing details default to "Unknown", 0 and "-" |
| Client.Split | frontend/js/app.js:264 | at least one part, and no part contains the separator |
| Client.SplitJoin | frontend/js/app.js:264 | joining the parts with the separator gives the text back |
| Client.SplitThree | frontend/js/app.js:264-265 | three separator-free parts joined by the separator split back into those three parts |
| Client.ParseAlertKey | frontend/js/app.js:264-271 | a payload exactly when the key splits into three parts; the key is then exchange, "-", side, "-", amount text |
| Client.AlertTableOf | frontend/js/app.js:296-311 | the placeholder exactly for absent or empty states; otherwise one row per entry |
| Client.HealthSummary | frontend/js/app.js:355-391 | loading ("Waiting for data...") and no details for an absent or empty map; otherwise "All Systems Operational" iff every entry is "OK", else "System Issues Detected", with one detail per entry giving its name, whether it is "OK", its message and its check time |
| Client.ViewState.constructor | frontend/js/app.js:2-11 | the initial state: intervals 3 and 1, no amounts, no selection, range "1d", no requests |
| Client.ViewState.LoadChartData | frontend/js/app.js:314-319 | no request without a selected amount; otherwise one history request for the amount and range, with the loading mask shown |
| Client.ViewState.ShowHistory | frontend/js/app.js:473-519 | the three series become the normalised lists and the loading mask is hidden; nothing else changes |
| Client.ViewState.HistoryFailed | frontend/js/app.js:327-330 | only the loading mask is hidden; nothing else changes |
| Client.ViewState.KeepSelectionListed | frontend/js/app.js:465-469 | the selection becomes `AmountAfterRender` of the old one; exactly when it changes one chart request goes out and the loading mask shows; nothing else changes |
| Client.ViewState.RenderConfigUI | frontend/js/app.js:427-471 | the inputs show the intervals, the amounts are shown ascending, and the selection stays listed, with one reload and the loading mask when it moves; nothing else changes |
| Client.ViewState.LoadConfig | frontend/js/app.js:228-247 | a failed or unreadable answer changes nothing at all; otherwise the reconciled configuration is adopted and rendered: interval inputs, ascending amounts, selection kept listed with one reload when it moves |
| Client.ViewState.Start | frontend/js/app.js:41-49 | the configuration is the reconciled answer, or the old one on failure; with listed amounts the first one is selected, otherwise the selection stays; the chart requests are the render's reload, if any, then the start-up one, so a fresh page sends the same request twice; alerts and status load once; the range stays |
| Client.ViewState.SelectAmount | frontend/js/app.js:193-196 | the selection becomes the chosen option's integer part, one chart request follows with the loading mask; nothing else changes |
| Client.ViewState.Refresh | frontend/js/app.js:211-215 | one chart request and the loading mask if an amount is selected, plus one alert load and one status load; nothing else changes |
| Client.ViewState.ShowTab | frontend/js/app.js:95-98 | the alert table and status reload exactly when the dashboard is shown |
| Client.ViewState.SelectRange | frontend/js/app.js:201-206 | the range changes and one chart request follows, with the loading mask, if an amount is selected; nothing else changes |
| Client.ViewState.AddAmountTag | frontend/js/app.js:522-530 | the list becomes `AddAmount` of the old one; if it is unchanged nothing else changes; otherwise the input clears and the page re-renders, with one chart reload when the selection moves; no duplicate appears |
| Client.ViewState.RemoveAmountTag | frontend/js/app.js:532-535 | the amount is gone from the list, the rest stays, and the page re-renders, reloading the chart once when the selection was the removed amount |
| Client.ViewState.SaveConfig | frontend/js/app.js:396-424 | posts the typed intervals with the current amounts; the status text follows the outcome; an ok answer adopts them and re-renders (inputs, amounts, selection kept listed with one reload when it moves); any other outcome leaves the configuration, the inputs, the selection and the chart alone |
| Client.ViewState.ResetAlert | frontend/js/app.js:260-288 | nothing unless confirmed and the key has three parts; then one reset request; the alert table reloads only after an ok answer, and an error answer shows "Failed to reset alert"; nothing else changes |
| Client.ViewState.RenderActiveAlerts | frontend/js/app.js:290-312 | the table is `AlertTableOf` the answer; nothing else changes |
| Client.ViewState.UpdateSystemStatusUI | frontend/js/app.js:350-394 | the indicator and details are what `HealthSummary` promises: "Waiting for data..." and none for no data, else "All Systems Operational" iff every service is "OK" or "System Issues Detected", one detail per service; nothing else changes |
| Client.ViewState.LoadSystemStatus | frontend/js/app.js:333-348 | a failed request shows "Connection Error" as a failure and keeps the details; an answer is shown as `UpdateSystemStatusUI` shows it; nothing else changes |
| EndToEnd.ConfigJsonReads | internal/api/handlers.go:110-112 | the configuration body has no `data` member and carries the PascalCase fields the page reads first |
| EndToEnd.ServerConfigReconciles | frontend/js/app.js:234-241 | the page reads the server's configuration faithfully, except that a zero interval shows as its default; the amounts always come through |
| EndToEnd.AlertKeyRoundTrip | internal/service/monitor_service.go:297 | the market key splits on the page into exchange, side and rounded amount, and that amount rebuilds the same key, as long as the names contain no '-' and the amount is non-negative |
| EndToEnd.NegativeTierCannotReset | frontend/js/app.js:260-265 | the key of a negative amount tier splits on '-' into four parts, so the page parses no reset request from it |
| EndToEnd.HistoryReachesChart | frontend/js/app.js:474-488 | a handler series reaches the chart as at most 5000 points ascending in time (none for `null`), with no merchant or pay-method data |

## Left out

- HTTP, JSON encoding and decoding, the network and the clock are left out. Exchange answers, database failures, fetch outcomes, page responses, `time.Now()` and the random jitter are inputs.
- The Yahoo forex client, the SMTP notifier, configuration loading, `main.go`, the router setup and the test programs are not part of this model. E-mails are entries appended to an outbox, without subject or body text.
- The service's ticker loop, goroutines and mutex are left out. Each operation is modelled as one sequential step.
- The page's DOM, ECharts, `setTimeout`, `alert` and `confirm` are left out. `confirm` is a boolean input.
- The page's overlapping asynchronous requests are left out: each request is followed by its own response. The stale-response race is not modelled.
- Binding the snake_case keys the page posts to the untagged Go configuration struct is `encoding/json` behaviour and is not modelled. `Api.Handler.UpdateConfig` receives the bind result as an input.
- Repository.MySqlRepository: `GetPriceHistoryByGranularity` and `GetForexHistoryByGranularity` are not modelled. No modelled caller reads the hourly and daily tables, and those tables are kept as maps.
- Repository.MySqlRepository.UpsertAlertState: engine errors are not modelled for the alert-state table. The same holds for `DeleteAlertState` and `GetAlertStates`; in the model these operations always succeed.
- Repository.SelectPrices: rows with equal creation times come back in id order. SQL leaves their order open.
- Repository.BucketTime: day buckets use a fixed zone offset, so daylight-saving changes are not modelled.
- Repository.MySqlRepository.SavePricePoints: the `updated_at` columns are not modelled.
- Monitor.MonitorService.CheckC2C: one failure flag stands for every database statement of a check, and the exchange iteration order is an input.
- Monitor.EqualFold: only ASCII case folding is modelled. Unicode folding is not.
- Monitor.Decide: prices and rates are exact reals, with no rounding, NaN or infinity.
- Exchange: request building, `Sscanf`/`ParseFloat` of the ad fields and the pay-method list are inputs; an ad's numeric fields hold what parsing produced.
- Exchange.RankAndTruncate: Go's unstable `sort.Slice` is modelled by a selection sort. Among offers with the same best price, the contract only says that the survivor has that price.
- Numbers.GoParseFloat: only plain decimal text is read. Exponents, hexadecimal, underscores, "Inf" and "NaN", which Go accepts, count as invalid.
- Numbers.JsParseFloat: exponents and "Infinity" are not read. Leading white space is the full JavaScript set.
- Numbers.JsParseInt: results are exact integers. JavaScript numbers lose precision beyond 2^53, and the model does not round them.
- Client.Truncate: the option's text is taken to be the amount in plain decimal notation. JavaScript prints amounts of 1e21 and above, or below 1e-6, in exponent form, and `parseInt` reads only the digits before the exponent.
- Client.ViewState.SaveConfig: the `setTimeout` that clears "Config Saved!" after three seconds and the red colour of "Save Failed" are not modelled.
- Client.Reconcile: an amount list that is not an array of numbers counts as a failed load, and the configuration is left as it was. The page would store such a value as it is.
- Client.SpreadOf: the spread is computed only for numeric values, with no string coercion. `toFixed(2)` rounding is not modelled.
- Client.TooltipLines: the HTML text, markers and number formatting are not modelled; the contract gives one line per item, and `Client.TooltipSpreadGuarded` states the content.
- Client.HealthSummary: the time formatting and HTML are not modelled. The map's entry order is the given sequence.
- EndToEnd.ConfigJson: an empty Go slice is treated as nil, which encodes as `null`. A configuration holding NaN, which Go cannot encode, is not modelled.
- Integers are unbounded: Unix seconds, ranks and ids do not overflow.
