# hitpoint-terminal market dashboard: the decision logic, modelled in Dafny

hitpoint-terminal is a one-page crypto market dashboard. A set of widgets poll public
market APIs or a WebSocket feed and write what they get into a shared client-side store.
Two server routes relay CoinGecko data behind a per-client rate limit. This project models
the logic underneath the rendering and proves properties of it:

- the store and its bounded liquidation feed;
- the seven payload schemas and `safeValidate`;
- the BTC ticker's WebSocket state machine, with its switch to REST polling;
- the guard chains that decide when each widget writes to the store, and what it writes;
- the colour bands and labels the widgets derive from stored values;
- the two proxy routes and the fail-open rate limiter;
- the economic calendar's countdown arithmetic.

Network calls, sockets and timers are not executed. Their outcomes are inputs: an `Http.Reply`,
a `Proxy.Upstream`, a `RateLimit.Check`, a socket `Event`. A state-machine transition reports the
sockets, timers and fetches it would start as a list of `Action`s. Number parsing and
formatting are parameters: `parse: string -> Option<real>` for `parseFloat` (None stands for
NaN), `parseInt: string -> Option<int>`, and `fmt: (real, nat) -> string` for `toFixed`.

Files, one module per source file plus shared helpers:

| file | models |
|---|---|
| `wrappers.dfy` | `Option` and `Result` |
| `json.dfy` | parsed JSON values, optional chaining and JavaScript truthiness (`Json`); fetch outcomes (`Http`) |
| `strings.dfy` | `indexOf`/`includes`/`replace` on strings and decimal rendering of integers |
| `validation.dfy` | lib/validation.ts |
| `store.dfy` | store/useMarketStore.ts |
| `ratelimit.dfy` | lib/ratelimit.ts |
| `proxy.dfy` | app/api/coingecko/markets/route.ts and app/api/coingecko/global/route.ts |
| `btc_ticker.dfy` | components/BTCPriceTicker.tsx |
| `funding_rates.dfy` | components/FundingRates.tsx |
| `fear_greed.dfy` | components/FearGreedIndex.tsx |
| `long_short.dfy` | components/LongShortRatio.tsx |
| `market_heatmap.dfy` | components/MarketHeatmap.tsx |
| `market_dominance.dfy` | components/MarketDominance.tsx |
| `economic_calendar.dfy` | components/EconomicCalendar.tsx |

Design choices:

- **Validation.** Every schema is a value of one small `Shape` language: string, number, array
  with a minimum length, and object with required or optional fields. `Parse` interprets a
  shape the way zod does. An object keeps only its declared keys, and the first problem found
  is reported. `Conforms` is an independent reading of what each shape accepts. The lemmas
  relate the two.
- **Proxy routes.** Both route files are the same early-return chain. They differ only in the
  limiter key prefix, the schema and the fallback payload, so one `Proxy.Get` serves both,
  taking a `Route` value.
- **BTC ticker.** The connection logic is a pure transition function `BtcTicker.Step`, and the
  properties are proved about it. The class `BtcPriceTicker` carries the same state in mutable
  fields. Each event handler of the class is proved to make exactly the transition that
  `Step` describes.

## Model

| member | source | states |
|---|---|---|
| Validation.SafeValidate | lib/validation.ts:84-97 | never fails to answer; succeeds exactly when the data conforms to the schema; a failure carries a non-empty message; for a well-formed schema a success holds the data itself with every object cut down to its declared keys (`Restricts`), which conforms and validates to itself |
| Validation.ParseIffConforms | lib/validation.ts:86-89 | a schema's parse succeeds exactly on the values the schema accepts (by induction over the shape, together with ParseItemsIffConform and ParseFieldsIffConform) |
| Validation.ParseItemsIffConform | lib/validation.ts:86-89 | an array's elements parse exactly when every element conforms |
| Validation.ParseFieldsIffConform | lib/validation.ts:86-89 | an object's declared fields parse exactly when each present field conforms and each absent field is optional |
| Validation.ParseRestricts | lib/validation.ts:86-89 | a successful parse returns its input with exactly the undeclared keys dropped: leaves unchanged, arrays element by element, objects keeping the declared keys the input has |
| Validation.ParseFieldsRestrict | lib/validation.ts:86-89 | a parsed object's keys are exactly the input's keys that the schema declares, each value restricted by its field's shape |
| Validation.ParseIsNormalising | lib/validation.ts:88-89 | parsing the parsed value gives the same result again: dropping unknown keys is idempotent |
| Validation.RevalidationIsIdentity | lib/validation.ts:88-90 | validating a successful result again succeeds with the same value |
| Validation.FailureMessageNonEmpty | lib/validation.ts:91-93 | every rejection comes with a non-empty error message |
| Validation.SchemasWellFormed | lib/validation.ts:4-79 | no schema declares a key twice |
| Validation.BTCTickerSchemaAccepts | lib/validation.ts:4-8 | accepts exactly objects whose `c`, `p` and `P` are strings; the validated value keeps those three keys and nothing else |
| Validation.BinanceTickerSchemaAccepts | lib/validation.ts:13-17 | accepts exactly objects whose `lastPrice`, `priceChange` and `priceChangePercent` are strings; the result keeps only them |
| Validation.FearGreedSchemaAccepts | lib/validation.ts:22-29 | accepts exactly a `data` array with at least one entry, each with string `value` and `value_classification`; an empty array is rejected |
| Validation.FearGreedFirstEntry | lib/validation.ts:22-29 | the validated first entry holds the raw entry's two strings |
| Validation.MarketRecordSchemaAccepts | lib/validation.ts:34-41 | a market record needs string `id` and `symbol` and numeric `current_price` and `price_change_percentage_24h`; `name` and `market_cap` may be absent |
| Validation.MarketRecordRestricted | lib/validation.ts:34-41 | a validated market record is the raw record cut down to the six declared keys, every kept value unchanged |
| Validation.GlobalRestricted | lib/validation.ts:48-55 | a validated global payload carries the raw payload's own btc and eth shares |
| Validation.MarketsSchemaAccepts | lib/validation.ts:43 | accepts exactly arrays of market records, the empty array included |
| Validation.GlobalSchemaAccepts | lib/validation.ts:48-55 | accepts exactly payloads with numeric `btc` and `eth` under `data.market_cap_percentage` |
| Validation.BybitRatioSchemaAccepts | lib/validation.ts:60-70 | accepts exactly a numeric `retCode` and a `result.list` of entries with string `buyRatio` and `sellRatio` |
| Validation.FundingRateSchemaAccepts | lib/validation.ts:75-79 | accepts exactly arrays of entries with a string `fundingRate`, the empty array included; validation keeps the length and the first entry's rate |
| Store.MarketStore.constructor | store/useMarketStore.ts:71-113 | every slice starts empty: null ticker, index, label, ratio and dominance; empty liquidations, funding rates and market data; the feed invariant `Valid` (at most 50 entries) holds |
| Store.LastN | store/useMarketStore.ts:83 | `slice(-n)` for n > 0 yields the last min(n, length) elements as a suffix |
| Store.WithLiquidation | store/useMarketStore.ts:81-84 | after an add the feed holds at most 50 entries and ends with the new one; below 50 it is the old feed plus the new entry, otherwise the newest 49 old entries plus the new one |
| Store.WithAllKeepsLatest | store/useMarketStore.ts:81-84 | after any number of adds the feed is exactly the last 50 of everything added, in arrival order |
| Store.LastNSuffix | store/useMarketStore.ts:83 | trimming before appending more does not change the last n of the whole |
| Store.WithoutId | store/useMarketStore.ts:85-88 | removal keeps exactly the entries whose id differs |
| Store.WithoutIdConcat | store/useMarketStore.ts:85-88 | removal distributes over concatenation, so survivors keep their order |
| Store.WithoutAbsentId | store/useMarketStore.ts:85-88 | removing an id no entry carries leaves the feed unchanged |
| Store.WithoutIdIdempotent | store/useMarketStore.ts:85-88 | removing the same id twice equals removing it once |
| Store.MarketStore.SetBtcTicker | store/useMarketStore.ts:75-77 | a value replaces the ticker; an updater is applied to the current ticker; nothing else changes, and the feed invariant is kept |
| Store.MarketStore.AddLiquidation | store/useMarketStore.ts:81-84 | the feed becomes `WithLiquidation` of the old feed and stays within 50; nothing else changes |
| Store.MarketStore.RemoveLiquidation | store/useMarketStore.ts:85-88 | the feed becomes `WithoutId` of the old feed; nothing else changes, and the feed invariant is kept |
| Store.MarketStore.SetFearGreed | store/useMarketStore.ts:93-94 | index and label are written together; nothing else changes, and the feed invariant is kept |
| Store.MarketStore.SetLongShortRatio | store/useMarketStore.ts:98-99 | the ratio is exactly the two arguments; nothing else changes, and the feed invariant is kept |
| Store.MarketStore.SetFundingRates | store/useMarketStore.ts:102-103 | the list is replaced whole, not merged; nothing else changes, and the feed invariant is kept |
| Store.MarketStore.SetMarketData | store/useMarketStore.ts:106-107 | the list is replaced whole; nothing else changes, and the feed invariant is kept |
| Store.MarketStore.SetDominance | store/useMarketStore.ts:110-112 | the three shares are exactly the arguments; nothing else changes, and the feed invariant is kept |
| RateLimit.RateLimiter.constructor | lib/ratelimit.ts:6-25 | a limiter (10 requests per 10-second sliding window) exists exactly when both Upstash variables are non-empty and construction did not throw |
| RateLimit.RateLimiter.CheckRateLimit | lib/ratelimit.ts:27-51 | without a limiter every call succeeds with limit 10, remaining 10 and reset now + 10000 ms; with one, the limiter's answer is passed through unchanged |
| Proxy.DeniedRequestSkipsUpstream | app/api/coingecko/markets/route.ts:26-38 | a denied request gets 429, `{error: "Too many requests"}` and the limit/remaining/reset headers, whatever the upstream would have answered |
| Proxy.Identity | app/api/coingecko/markets/route.ts:23 | the client is `x-forwarded-for` when that header is present (even empty), else `x-real-ip`, else `anonymous` |
| Proxy.Get | app/api/coingecko/markets/route.ts:20-81 | the GET handler of both routes answers 200 or 429; 429 exactly when the limiter answered and refused; without rate-limit headers the response is the fallback |
| Proxy.LimiterAskedOnlyAboutIdentityKey | app/api/coingecko/markets/route.ts:23-24 | the only limiter answer that matters is the one for the route prefix followed by the identity |
| Proxy.AllowedRequestOutcome | app/api/coingecko/markets/route.ts:40-76 | once allowed, the validated upstream data is served with quota headers exactly when the upstream replied ok, with a JSON content type, a parseable body and a conforming payload, and what is served is the upstream payload cut down to the schema's keys; every other outcome serves the fallback |
| Proxy.RejectedLimiterServesFallback | app/api/coingecko/markets/route.ts:77-80 | a limiter call that throws is caught and the fallback served |
| Proxy.HeadersOnlyWithQuotaDecisions | app/api/coingecko/global/route.ts:22-72 | rate-limit headers appear on a 429 and on live data, never with the fallback |
| Proxy.UnconfiguredLimiterNeverDenies | lib/ratelimit.ts:34-41 | without a limiter no request is refused |
| Proxy.MarketsFallbackValid | app/api/coingecko/markets/route.ts:7-18 | the markets fallback has ten records, each a valid market record |
| Proxy.GlobalFallbackValid | app/api/coingecko/global/route.ts:7-14 | the global fallback is a valid payload with btc 56.8 and eth 12.4 |
| Proxy.MarketsResponsesConform | app/api/coingecko/markets/route.ts:20-81 | every 200 response of the markets route is a valid list of market records |
| Proxy.ResponsesConform | app/api/coingecko/markets/route.ts:20-81 | on a route whose fallback is valid, every 200 response conforms to the route's schema |
| Proxy.LiveDataRestrictsUpstream | app/api/coingecko/markets/route.ts:61-76 | live data (a 200 with quota headers) comes from an ok JSON reply whose payload conforms, and is that payload cut down to the schema's keys |
| Proxy.LiveMarketsAreUpstreamRecords | app/api/coingecko/markets/route.ts:64-76 | live markets data is the upstream list record for record, each record cut down to the six declared keys with its values unchanged |
| Proxy.LiveGlobalSharesAreUpstreamShares | app/api/coingecko/global/route.ts:60-72 | live global data carries the upstream's own btc and eth shares |
| Proxy.GlobalResponsesConform | app/api/coingecko/global/route.ts:16-77 | every 200 response of the global route carries numeric btc and eth shares |
| BtcTicker.SwitchToRest | components/BTCPriceTicker.tsx:57-59 | setting the REST flag on a mounted widget clears the reconnect, leaves no live socket, then fetches once and polls every 3000 ms; otherwise nothing happens |
| BtcTicker.SwitchTearsDownWebSocket | components/BTCPriceTicker.tsx:82-91 | the switch cancels exactly a pending timer and closes exactly a live socket, and never opens or schedules a socket |
| BtcTicker.Connect | components/BTCPriceTicker.tsx:21-78 | a constructed socket is recorded as CONNECTING; a throwing constructor adds one failure, then schedules a reconnect in 5000 ms below 3 failures, or switches to REST at 3 |
| BtcTicker.Mount | components/BTCPriceTicker.tsx:15-80 | the effect starts mounted in WebSocket mode: a connecting socket with no failures, or one failure and a pending retry |
| BtcTicker.OnOpen | components/BTCPriceTicker.tsx:26-29 | an opening socket becomes OPEN and the failure count returns to 0; otherwise nothing changes |
| BtcTicker.OnError | components/BTCPriceTicker.tsx:54-60 | an error on a live socket adds one failure and leaves no live socket; the widget switches to REST exactly when the count reaches 3; no socket is created |
| BtcTicker.OnCloseAsWritten | components/BTCPriceTicker.tsx:62-68 | as written: the socket ref is cleared and a reconnect in 5000 ms is scheduled exactly when the count is below 3, whether or not the widget is mounted |
| BtcTicker.OnClose | components/BTCPriceTicker.tsx:62-68 | corrected: the socket ref is cleared and a reconnect is scheduled exactly when the widget is mounted and the count is below 3 |
| BtcTicker.OnReconnectTimer | components/BTCPriceTicker.tsx:62-78 | a pending timer runs `connectWebSocket`: a socket is created exactly when construction succeeds, and a failure adds one to the count; a cleared timer does nothing |
| BtcTicker.OnUnmount | components/BTCPriceTicker.tsx:82-91 | teardown unmounts; in REST mode it stops polling, otherwise it leaves no pending timer and no live socket; it never creates or schedules a socket |
| BtcTicker.Step | components/BTCPriceTicker.tsx:15-92 | only teardown unmounts, REST mode is never left, and the failure count drops only on an open, and then to 0 |
| BtcTicker.StepAsWritten | components/BTCPriceTicker.tsx:15-92 | the same three properties for the code as written, whose close handler reconnects below 3 failures whether or not the widget is mounted |
| BtcTicker.MountEstablishesInv | components/BTCPriceTicker.tsx:15-20 | the first connection attempt creates a socket, or schedules a retry when construction throws, and the state satisfies the invariant |
| BtcTicker.StepPreservesInv | components/BTCPriceTicker.tsx:21-78 | every event preserves the invariant: a pending timer has no socket; REST mode has at least 3 failures and no live socket; polling runs exactly in mounted REST mode; a mounted widget at 3 failures is in REST mode |
| BtcTicker.RunPreservesInv | components/BTCPriceTicker.tsx:21-78 | the invariant holds after any series of events |
| BtcTicker.OpenResetsFailureCount | components/BTCPriceTicker.tsx:26-29 | an open resets the counter to 0; no other event lowers it |
| BtcTicker.ErrorCountsFailure | components/BTCPriceTicker.tsx:54-60 | an error adds one failure and switches to REST exactly when a mounted widget reaches 3 |
| BtcTicker.CloseReconnectsBelowLimit | components/BTCPriceTicker.tsx:62-68 | on close the socket reference is cleared and a reconnect in 5000 ms is scheduled iff the counter is below 3 (and, as corrected, the widget is mounted) |
| BtcTicker.FailedConstructionCounts | components/BTCPriceTicker.tsx:69-77 | a throwing constructor adds one failure, then switches to REST at 3 or retries in 5000 ms |
| BtcTicker.SwitchOnlyAtLimit | components/BTCPriceTicker.tsx:57-58 | REST mode is entered only by an error or a failed reconnect that brings the count to 3, and ends with an immediate fetch and a 3000 ms poll |
| BtcTicker.RestModeIsPermanent | components/BTCPriceTicker.tsx:12-16 | once in REST mode the flag stays set and no socket is ever created again |
| BtcTicker.TeardownGuardsClose | components/BTCPriceTicker.tsx:82-90 | teardown cancels exactly a pending timer, closes only an OPEN or CONNECTING socket, and stops polling in REST mode |
| BtcTicker.NothingAfterUnmount | components/BTCPriceTicker.tsx:62-68 | with the corrected close handler, no socket is created and no reconnect scheduled after teardown |
| BtcTicker.OnCloseAgreesWhileMounted | components/BTCPriceTicker.tsx:62-68 | the close handler as written and the corrected one agree on every mounted state |
| BtcTicker.StepWhileMounted | components/BTCPriceTicker.tsx:21-78 | only teardown unmounts, and while mounted the machine as written (`StepAsWritten`) takes the same step as `Step` |
| BtcTicker.AsWrittenAgreesUntilUnmount | components/BTCPriceTicker.tsx:21-78 | from a mounted state, any series of events without teardown runs identically under the code as written and the corrected machine |
| BtcTicker.AsWrittenPreservesInvUntilUnmount | components/BTCPriceTicker.tsx:21-78 | the invariant holds of the code as written for as long as the widget stays mounted |
| BtcTicker.ScenariosHoldAsWritten | components/BTCPriceTicker.tsx:54-68 | the three-failures and open-between-failures scenarios run identically under the code as written |
| BtcTicker.OnCloseAsWrittenReconnectsAfterUnmount | components/BTCPriceTicker.tsx:62-68 | with the close handler as written, a socket closed by teardown schedules a reconnect that opens a new socket for the unmounted widget |
| BtcTicker.RunSplit | components/BTCPriceTicker.tsx:21-78 | running two series of events in turn equals running their concatenation |
| BtcTicker.FailedAttemptCounts | components/BTCPriceTicker.tsx:54-68 | error, close and reconnect on a connecting socket add one failure and leave a new socket connecting |
| BtcTicker.ThreeFailuresSwitchToRest | components/BTCPriceTicker.tsx:54-60 | three consecutive failed sockets switch to REST polling with an immediate fetch and a 3000 ms poll |
| BtcTicker.OpenBetweenFailuresKeepsWebSocket | components/BTCPriceTicker.tsx:26-29 | a socket that opens between failures restarts the count, so the widget stays on the WebSocket |
| BtcTicker.NextTicker | components/BTCPriceTicker.tsx:43-48 | price, change and percent are the formatted raw values ("NaN" when unparsable); the previous price is the prior ticker's price when that is non-empty (`prev?.price || data.c`), and the raw new price otherwise |
| BtcTicker.PrevPriceCarriesForward | components/BTCPriceTicker.tsx:47 | each tick's previous price is the price stored by the tick before it |
| BtcTicker.FirstTickUsesRawPrice | components/BTCPriceTicker.tsx:121 | with no prior ticker, the previous price is the new tick's raw, unformatted price |
| BtcTicker.StreamQuote | components/BTCPriceTicker.tsx:33-42 | a message yields a quote exactly when `c`, `p` and `P` are strings, and the quote holds those strings |
| BtcTicker.RestQuote | components/BTCPriceTicker.tsx:101-116 | a REST reply yields a quote exactly when it is ok, parses, and has string `lastPrice`, `priceChange` and `priceChangePercent` |
| BtcTicker.BtcPriceTicker.constructor | components/BTCPriceTicker.tsx:8-12 | a rendered widget is mounted, in WebSocket mode, with no socket, timer or failures |
| BtcTicker.BtcPriceTicker.SwitchToRestApi | components/BTCPriceTicker.tsx:58 | the field updates make exactly the `SwitchToRest` transition |
| BtcTicker.BtcPriceTicker.ConnectWebSocket | components/BTCPriceTicker.tsx:21-78 | the field updates make exactly the `Connect` transition |
| BtcTicker.BtcPriceTicker.HandleOpen | components/BTCPriceTicker.tsx:26-29 | the field updates make exactly the `Step` transition for an open |
| BtcTicker.BtcPriceTicker.HandleError | components/BTCPriceTicker.tsx:54-60 | the field updates make exactly the `Step` transition for an error |
| BtcTicker.BtcPriceTicker.HandleClose | components/BTCPriceTicker.tsx:62-68 | the field updates make exactly the `Step` transition for a close (the corrected handler) |
| BtcTicker.BtcPriceTicker.HandleReconnectTimer | components/BTCPriceTicker.tsx:66 | the field updates make exactly the `Step` transition for the reconnect timer |
| BtcTicker.BtcPriceTicker.Unmount | components/BTCPriceTicker.tsx:82-90 | the field updates make exactly the `Step` transition for teardown |
| BtcTicker.BtcPriceTicker.HandleMessage | components/BTCPriceTicker.tsx:31-52 | an invalid message leaves the store unchanged; a valid one sets the ticker to `NextTicker` of the previous one |
| BtcTicker.BtcPriceTicker.FetchPrice | components/BTCPriceTicker.tsx:99-126 | a failed or invalid poll leaves the store unchanged; a valid one sets the ticker to `NextTicker` of the previous one |
| FundingRates.Classify | components/FundingRates.tsx:41 | BULLISH iff the rate in percent is above 0.01, BEARISH iff below 0, NEUTRAL iff in [0, 0.01] |
| FundingRates.ClassifyMonotone | components/FundingRates.tsx:41 | a higher rate never yields a more bearish bias |
| FundingRates.BiasLabelInjective | components/FundingRates.tsx:41 | the three biases have distinct labels |
| FundingRates.SymbolLabelOfPair | components/FundingRates.tsx:44 | removing the first "USDT" from a base (without the letter U) followed by "USDT" gives the base |
| FundingRates.SymbolLabel | components/FundingRates.tsx:44 | a symbol without "USDT" is its own label; otherwise the label is four characters shorter |
| FundingRates.SymbolLabels | components/FundingRates.tsx:14 | the four symbols are labelled BTC, ETH, SOL, XRP |
| FundingRates.RateFor | components/FundingRates.tsx:17-55 | a symbol yields an entry exactly when the reply is ok, validates, is non-empty and its first rate parses; the entry holds the label, the percent rate with 4 decimals and "%", and the bias of that percentage |
| FundingRates.Present | components/FundingRates.tsx:58 | the filter keeps exactly the present results |
| FundingRates.PresentConcat | components/FundingRates.tsx:58 | the filter distributes over concatenation, so order is kept |
| FundingRates.PresentSkipsNone | components/FundingRates.tsx:58 | the filter drops failed entries |
| FundingRates.PresentKeeps | components/FundingRates.tsx:58 | the filter keeps a successful entry ahead of everything after it |
| FundingRates.PresentExactlyTwo | components/FundingRates.tsx:58 | with exactly two entries present, the filter yields those two in their original order |
| FundingRates.PresentAllSome | components/FundingRates.tsx:58 | when all results are present the filter keeps all of them, in order |
| FundingRates.Results | components/FundingRates.tsx:17-57 | one result per symbol, in symbol order |
| FundingRates.Collected | components/FundingRates.tsx:57-58 | the non-null handler results, filtered in symbol order (BTC, ETH, SOL, XRP); at most four, each from a symbol that succeeded |
| FundingRates.TwoSucceedInOrder | components/FundingRates.tsx:57-58 | when two of the four symbols fail, exactly the two successful entries are written, in symbol order and with their labels |
| FundingRates.CollectedNonEmptyIff | components/FundingRates.tsx:60-62 | the list is non-empty exactly when at least one symbol succeeded |
| FundingRates.AllSymbolsInOrder | components/FundingRates.tsx:14 | when all symbols succeed the list is BTC, ETH, SOL, XRP in that order |
| FundingRates.FetchFundingRates | components/FundingRates.tsx:13-66 | the list is replaced when some symbol succeeded; otherwise the store is unchanged |
| FearGreed.Reading | components/FearGreedIndex.tsx:14-41 | a write happens exactly when the reply is ok and valid, and the first entry's value parses to an integer in [0, 100]; it writes that integer and the first entry's classification |
| FearGreed.OnlyFirstEntryCounts | components/FearGreedIndex.tsx:32-33 | replies that agree on their first entry lead to the same write |
| FearGreed.FetchFearGreed | components/FearGreedIndex.tsx:14-41 | the store changes only when `Reading` yields a value, and then gets exactly that index and label |
| FearGreed.GetColor | components/FearGreedIndex.tsx:49-56 | gray exactly without a reading; otherwise red up to 25, orange up to 45, yellow up to 55, green up to 75, purple above |
| FearGreed.GetColorAsWrittenHidesZero | components/FearGreedIndex.tsx:50 | the code as written agrees with `GetColor` except on a reading of 0, which it shows gray instead of red |
| FearGreed.GetColorAsWritten | components/FearGreedIndex.tsx:49-56 | as written: gray for no reading and for a reading of 0; otherwise the same band as `GetColor` |
| FearGreed.IndexTextAsWritten | components/FearGreedIndex.tsx:95 | as written: "--" for no reading and for a reading of 0; otherwise the number |
| FearGreed.IndexText | components/FearGreedIndex.tsx:95 | "--" without a reading, the number otherwise |
| FearGreed.IndexTextAsWrittenHidesZero | components/FearGreedIndex.tsx:95 | as written, a reading of 0 is shown as "--" |
| FearGreed.LabelText | components/FearGreedIndex.tsx:102 | "Loading..." exactly when there is no label, the label is empty, or it is "Loading..." itself |
| FearGreed.StoredReadingIsColoured | components/FearGreedIndex.tsx:35-56 | every value the poll can store is drawn in a colour band, never gray |
| LongShort.ParseFloatJson | components/LongShortRatio.tsx:27-28 | a string is parsed, a number reads as itself, and anything else is NaN |
| LongShort.Latest | components/LongShortRatio.tsx:23-24 | the first list entry exactly when `retCode` is the number 0 and `result.list` is a non-empty array |
| LongShort.RatioFromBody | components/LongShortRatio.tsx:23-31 | a ratio exactly when the latest entry's two ratios are truthy and parse; the stored values are both ratios times 100 |
| LongShort.ReadRatio | components/LongShortRatio.tsx:11-38 | a failed request or unparsable body gives nothing; otherwise the body's ratio |
| LongShort.TypicalReply | components/LongShortRatio.tsx:27-31 | "0.65" and "0.35" are stored as 65 and 35 |
| LongShort.GuardRejects | components/LongShortRatio.tsx:23 | a non-zero `retCode` or an empty list writes nothing |
| LongShort.FetchRatio | components/LongShortRatio.tsx:11-38 | the ratio is written exactly when `ReadRatio` yields one; otherwise the store is unchanged |
| LongShort.OrFifty | components/LongShortRatio.tsx:46-47 | a missing or zero percentage displays as 50 |
| LongShort.DisplayPercents | components/MarketHeatmap.tsx:73-74 | both widgets display 50/50 without a reading, and each side with the 50 default otherwise |
| LongShort.SentimentOf | components/LongShortRatio.tsx:89 | bullish iff long > 60; bearish iff long <= 60 and short > 60; balanced otherwise (same line in components/MarketHeatmap.tsx:156) |
| LongShort.NoReadingIsBalanced | components/LongShortRatio.tsx:46-47 | before any reading the widget shows a balanced market |
| LongShort.PrecedenceIrrelevantForSplits | components/LongShortRatio.tsx:89 | when the sides add up to 100 at most one exceeds 60, so the long-first precedence hides nothing |
| MarketHeatmap.MarketDataToWrite | components/MarketHeatmap.tsx:17-25 | a write exactly when the reply is ok, parses, and is a non-empty array, which is written as is |
| MarketHeatmap.FetchMarketData | components/MarketHeatmap.tsx:13-29 | the market list is replaced exactly when `MarketDataToWrite` yields a list; otherwise the store is unchanged |
| MarketHeatmap.FetchRatio | components/MarketHeatmap.tsx:38-65 | the duplicated ratio poll makes exactly the same write as the ratio widget's |
| MarketHeatmap.BandOf | components/MarketHeatmap.tsx:76-83 | six exclusive and exhaustive bands at the thresholds 5, 2, 0, -2 and -5 |
| MarketHeatmap.ColorClass | components/MarketHeatmap.tsx:76-83 | the tile is lime (`bg-[#c4f82e`) exactly for a positive change and red (`bg-[#ff4757`) exactly for zero or a loss; the rest of the classes are those of the change's band (`BandOf`), so each of the six thresholds picks its own opacity, border, text and shadow |
| MarketHeatmap.BandMonotone | components/MarketHeatmap.tsx:76-83 | a larger change never lands in a lower band |
| MarketHeatmap.ChangePrefix | components/MarketHeatmap.tsx:109 | "+" iff the change is at least 0 |
| MarketHeatmap.ZeroChangeIsPlusButRed | components/MarketHeatmap.tsx:79-80 | an unchanged price gets a plus sign but a red band |
| MarketDominance.DominanceFromBody | components/MarketDominance.tsx:21-26 | a write exactly when btc and eth are non-zero numbers; the three shares then add up to 100 in exact arithmetic |
| MarketDominance.ReadDominance | components/MarketDominance.tsx:11-31 | a failed request writes nothing; otherwise the body's dominance |
| MarketDominance.FetchDominance | components/MarketDominance.tsx:11-31 | the three shares are written together exactly when `ReadDominance` yields them |
| MarketDominance.FallbackDominance | app/api/coingecko/global/route.ts:7-14 | the proxy's fallback is written as btc 56.8, eth 12.4 and, in exact arithmetic, others 30.8 |
| MarketDominance.AsReply | components/MarketDominance.tsx:13-19 | the widget sees a proxy response as ok exactly for a 2xx status, with its JSON body |
| MarketDominance.ProxyResponsesAccepted | components/MarketDominance.tsx:13-26 | every 200 from the global route is written exactly when both shares are non-zero; a 429 fails the `ok` check, so nothing is read or written |
| EconomicCalendar.CountdownOf | components/EconomicCalendar.tsx:26-34 | LIVE iff the difference is not positive; otherwise hours < 24 and days·86400000 + hours·3600000 <= diff < days·86400000 + (hours+1)·3600000 |
| EconomicCalendar.CountdownUnique | components/EconomicCalendar.tsx:29-30 | that bound determines days and hours uniquely |
| EconomicCalendar.LiveIffReached | components/EconomicCalendar.tsx:28-33 | the text is "LIVE" exactly when the event time has been reached |
| EconomicCalendar.CountdownText | components/EconomicCalendar.tsx:28-34 | "LIVE" for a reached event; otherwise `${days}d ${hours}h`: two digit strings that read back as the countdown's days and hours |
| EconomicCalendar.CountdownExample | components/EconomicCalendar.tsx:31 | one day, one hour and a millisecond read "1d 1h" |
| EconomicCalendar.Calendar.UpdateCountdown | components/EconomicCalendar.tsx:23-35 | the displayed text becomes the countdown text of the difference |
| EconomicCalendar.ImpactColor | components/EconomicCalendar.tsx:43-47 | red iff HIGH, yellow iff MEDIUM, gray otherwise |
| EconomicCalendar.ListedEventsAreColoured | components/EconomicCalendar.tsx:12-18 | every listed event is drawn red or yellow |
| Strings.IndexOfFrom | components/FundingRates.tsx:44 | the first occurrence at or after a position, or none |
| Strings.IncludesIffOccurs | app/api/coingecko/markets/route.ts:56 | `includes` holds iff the pattern occurs somewhere |
| Strings.ReplaceFirst | components/FundingRates.tsx:44 | `replace` with a string pattern: no occurrence leaves the string unchanged; otherwise exactly the first occurrence is replaced |
| Strings.NatToStringRoundTrip | components/EconomicCalendar.tsx:31 | the decimal rendering of a natural number reads back as that number |
| Http.OkBody | components/FearGreedIndex.tsx:18-22 | the body is inspected only for an ok reply whose JSON parsed |

## Left out

- Network, WebSocket, timers and React scheduling are not executed. Their outcomes are inputs,
  and the effects a transition would start are reported as actions. The interval constants
  (3000 ms, 5000 ms, 60 s, 5 min, 8 h) are recorded as constants.
- `parseFloat`, `parseInt`, `toFixed` and `toLocaleString` are parameters. Decimal rounding,
  Infinity from an overflowing parse, and number-to-string conversion are not modelled.
- Number display on the widgets (JSX, CSS, `toFixed(1)` percentages) is not modelled.
- Zod internals: the model reports the first problem found, while zod collects every issue
  into its message. Only the fact that the message is non-empty is stated.
- The "Unknown validation error" branch of `safeValidate` is not modelled. Schema parsing
  throws only zod errors, since none of the seven schemas has a refinement or transform.
- Upstash's sliding-window algorithm, analytics and Redis client are not modelled. The limiter
  is an oracle from limiter and key to a decision or a rejection.
- Next.js `revalidate` caching of upstream fetches is not modelled. The Accept header and the
  upstream URLs are not modelled either.
- The response headers are stored as numbers. The `toString` calls are not modelled.
- LongShort.ParseFloatJson: `parseFloat` of an array or of `true` goes through string
  conversion in JavaScript. Here an array gives NaN, which differs for one-element arrays
  such as `["0.6"]`.
- LongShort.Latest: a non-array `result.list` with a numeric `length` field is treated as
  absent. A non-empty string list passes the length check in the source but fails the next
  guard, so the outcome (no write) is the same.
- Numbers are exact reals. JavaScript's double-precision rounding in `100 - btc - eth`
  (components/MarketDominance.tsx:24) and in the `* 100` scalings of the funding-rate and
  long/short widgets is not modelled, so sums and products are stated over exact values.
- MarketDominance.FallbackDominance: the "others" share is stated as the exact 30.8. The
  browser stores the double 30.800000000000004, which the widget displays as 30.8 but uses
  unrounded for the bar width.
- MarketDominance.DominanceFromBody: the three shares add up to exactly 100 only in real
  arithmetic, for the reason above. Truthy shares that are not numbers (for example strings)
  are rejected. The source would coerce them in `100 - btc - eth` and store mixed values.
- MarketHeatmap.MarketDataToWrite: the records are stored without checking them, as the
  source does. Store.Snapshot keeps them as JSON values.
- The economic calendar's event time `2025-12-06T00:00:00` is read in the browser's local
  time zone. It is a parameter of `UpdateCountdown`, as is the clock.
- Logging (lib/logger.ts), the liquidation iframe widget, the page layout and next.config.ts
  are not part of this model.
- BtcTicker.StepPreservesInv, RunPreservesInv, RestModeIsPermanent and the scenario lemmas
  are stated for the corrected machine `Step`. They carry over to the code as written
  (`StepAsWritten`) only until teardown, by AsWrittenAgreesUntilUnmount. After teardown the
  code as written can reconnect (see Findings).
- The BTC ticker's `wsRef` is shared with the teardown only. Events from a socket other than
  the current one are not modelled, and neither is an error on a socket that teardown is
  already closing.

## Findings

| source | as written | input that shows it | evidently intended | confidence | as-written member | corrected member |
|---|---|---|---|---|---|---|
| components/BTCPriceTicker.tsx:62-68 | `onclose` schedules a reconnect whenever the failure count is below 3, also after the effect's teardown has run | mount; the socket opens; unmount (teardown closes it); the close event schedules a reconnect that the teardown can no longer clear, and 5 s later a new socket opens for the unmounted widget | a torn-down widget does not reconnect | high; not executed | BtcTicker.OnCloseAsWrittenReconnectsAfterUnmount | BtcTicker.NothingAfterUnmount |
| components/FearGreedIndex.tsx:50, 95 | `!index` treats a stored index of 0 as no reading | the API reports value "0" ("Extreme Fear"); it passes the [0, 100] check and is stored; the dial shows "--" in gray | 0 is shown as 0, in the red band | medium; not executed | FearGreed.GetColorAsWrittenHidesZero | FearGreed.StoredReadingIsColoured |
