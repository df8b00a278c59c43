# Grid back-testing of a Binance pair, modelled in Dafny

The system back-tests a threshold ("grid") strategy on Binance candles. It
starts with a USDT balance and uses the first close as the reference price.
On each candle:

- It buys a fixed USDT amount of the coin when the close falls a threshold
  below the reference price.
- For each buy it queues a sell task one threshold above the buy price.
- It sells every queued task whose target the close reaches.
- When nothing is queued it raises the reference price with the market.

The result is a trade log with zero-padded order ids (`BUY_0001`,
`SELL_0002`, …), a summary (final value, realised profit, ROI, open
positions) and chart series.

The strategy exists in three copies. All three are modelled against one
functional specification, `Strategy.Step` folded over the history by
`Strategy.RunFrom`. Each copy's imperative loop is proved to compute it:

- the synchronous service;
- the asynchronous service, which adds a day counter;
- the copy written inline in `backend/main.py`, which updates the balances
  before building each record.

Preserved invariants and lemmas about that specification state what the
strategy promises:

- ids are unique;
- every sale closes exactly one earlier buy;
- coins held equal the open positions' coins;
- cash plus open cost equals the initial balance plus realised profit;
- the summary's ROI is the relative gain.

Around the strategy, the model covers:

- the Binance repositories: kline parsing, the sequential pagination loop,
  the chunked parallel fetch with its merge and sort, the interval table,
  the 24-hour statistics and the two symbol lists;
- the request model and its `set_timestamps`;
- the single-file backend's `/analyze` and `/symbols` endpoints;
- the frontend's pure logic: the API base URL, the per-row market deltas of
  the trade table, the market indicator, the currency selector's search and
  labels, and the analysis form's state transformations.

The model has these conventions:

- Money and prices are exact `real`s.
- The strategy is modelled for a positive trade amount, a threshold in
  (0, 1), a commission in [0, 1) and positive closes.
- HTTP responses, parsed JSON numbers, clocks and formatted dates are
  parameters.
- JavaScript numbers are `JsNumber.Num`, which carries the infinities and
  NaN that division by zero produces.
- `backend/main.py`'s `get_price` and `get_historical_price` are the same
  code as the repository's `get_price_data` and `get_historical_price_data`.
  They are modelled once, by `BinanceRepository.GetPriceData` and
  `BinanceRepository.GetHistoricalPriceData`, and `MainApp` calls those.
- The older frontend/src/components/InvestmentForm.jsx has the same initial
  state (lines 8-17) and the same `handleInputChange` (41-47) and
  `handleSubmit` (49-59) as the newer form. `InvestmentForm` models both.

## Model

| member | source | states |
|---|---|---|
| InvestmentModels.InvestmentParams.constructor | backend/app/models/investment_models.py:6-17 | A request giving only the two dates gets the defaults 10000, 1000, 0.05, 0.00075, "ETHUSDT" and "1h", and both timestamps start unset |
| InvestmentModels.InvestmentParams.WithFields | backend/app/models/investment_models.py:6-17 | Every given field is stored; the timestamps start unset |
| InvestmentModels.InvestmentParams.SetTimestamps | backend/app/models/investment_models.py:19-21 | Sets exactly the two timestamps; every other field is unchanged |
| AnalysisService.ProcessCandle | backend/app/services/investment_analysis_service.py:51-107 | The loop body on local variables (minimum tracking, buy branch, sell pass over a copy of the queue with `list.remove`, ratchet) yields exactly `Strategy.Step` |
| AnalysisService.RunFromUnfold | backend/app/services/investment_analysis_service.py:51-107 | One loop iteration advances the specification fold by one candle |
| AnalysisService.ExecuteStrategyAnalysis | backend/app/services/investment_analysis_service.py:37-112 | The loop over the whole history, then summary and chart data, equals `Strategy.StrategyAnalysis` |
| AnalysisService.AnalyzeInvestmentStrategy | backend/app/services/investment_analysis_service.py:14-35 | An empty history is `HttpError(400, "No data available for the specified period")` and the strategy is not run; otherwise the result is the analysis of the fetched history |
| AnalysisService.DayChangesBounds | backend/app/services/async_investment_analysis_service.py:65-77 | A non-empty history has at least one day, and never more days than candles |
| AnalysisService.AsyncExecuteStrategyAnalysis | backend/app/services/async_investment_analysis_service.py:44-166 | The asynchronous loop returns exactly `Strategy.StrategyAnalysis`, the reference definition of the synchronous loop, summary and chart; its day counter equals the number of calendar-day changes along the history |
| AnalysisService.AsyncAnalyzeInvestmentStrategy | backend/app/services/async_investment_analysis_service.py:14-42 | An empty history is the same 400; otherwise the result is the analysis of the parallel-fetched history |
| StrategyProperties.InitialInv | backend/app/services/investment_analysis_service.py:38-49 | The starting state satisfies the strategy invariant `Inv` for valid parameters |
| StrategyProperties.BuyKeepsLog | backend/app/services/investment_analysis_service.py:58-76 | A buy keeps the log numbered by the order counter, the BUY count equal to sales plus open positions, and the BUY-id bag equal to open ids plus sold ids |
| StrategyProperties.BuyKeepsQueue | backend/app/services/investment_analysis_service.py:58-76 | A buy's task has target = price·(1+threshold), positive coins and cost = trade amount, and the coin balance stays the sum of queued coins |
| StrategyProperties.BuyKeepsMoney | backend/app/services/investment_analysis_service.py:58-76 | After a buy, cash plus the cost of open positions still equals initial balance plus realised profit; balance and minimum stay non-negative |
| StrategyProperties.BuyPreservesInv | backend/app/services/investment_analysis_service.py:58-76 | A buy preserves `Inv` |
| StrategyProperties.QueuedMeansTraded | backend/app/services/investment_analysis_service.py:58-76 | A non-empty queue implies a non-empty log |
| StrategyProperties.RemoveFacts | backend/app/services/investment_analysis_service.py:104 | `list.remove` of a queued task shortens the queue by one and takes away exactly that task's coins, cost and buy id |
| StrategyProperties.RemoveSkipsKept | backend/app/services/investment_analysis_service.py:78-104 | Removing a task that no earlier queued task equals removes it at its own position, keeping the order of the rest |
| StrategyProperties.SellKeepsLog | backend/app/services/investment_analysis_service.py:78-104 | A sale appends a SELL numbered by the counter and moves its buy id from the open bag to the sold bag |
| StrategyProperties.SellKeepsQueue | backend/app/services/investment_analysis_service.py:78-104 | Removing the sold task keeps the coin balance equal to the sum of queued coins |
| StrategyProperties.SellKeepsMoney | backend/app/services/investment_analysis_service.py:78-104 | A sale adds its profit to total profit and keeps the cash equation and non-negativity |
| StrategyProperties.SellPreservesInv | backend/app/services/investment_analysis_service.py:78-104 | A sale of a queued task preserves `Inv` |
| StrategyProperties.ScanQueue | backend/app/services/investment_analysis_service.py:78-104 | The sell pass over the snapshot leaves queued exactly the unsold tasks, in queue order |
| StrategyProperties.ScanLog | backend/app/services/investment_analysis_service.py:78-104 | The sell pass adds exactly the matured tasks' ids to the sold bag and adds no BUY |
| StrategyProperties.ScanPreservesInv | backend/app/services/investment_analysis_service.py:78-104 | The whole sell pass preserves `Inv` |
| StrategyProperties.TrackMinPreservesInv | backend/app/services/investment_analysis_service.py:55-56 | Minimum tracking preserves `Inv` |
| StrategyProperties.StepPreservesInv | backend/app/services/investment_analysis_service.py:51-107 | One candle preserves `Inv` |
| StrategyProperties.RunFromPreservesInv | backend/app/services/investment_analysis_service.py:51-107 | The loop over any remaining history preserves `Inv` |
| StrategyProperties.FinalInv | backend/app/services/investment_analysis_service.py:37-112 | `Inv` holds after the whole history |
| StrategyProperties.UnsoldMembers | backend/app/services/investment_analysis_service.py:78-84 | A task stays queued iff it was queued and the price is below its target |
| StrategyProperties.MaturedMembers | backend/app/services/investment_analysis_service.py:78-84 | A task is sold iff it was queued and the price reaches its target |
| StrategyProperties.StepBuysIff | backend/app/services/investment_analysis_service.py:58-59 | A candle adds one BUY iff balance ≥ trade amount and price ≤ reference·(1−threshold), otherwise none |
| StrategyProperties.StepSellsMatured | backend/app/services/investment_analysis_service.py:78-104 | After the buy, the candle's queue is exactly the unsold tasks, the sold bag grows by exactly the matured ids, and every remaining task's target is above the close |
| StrategyProperties.StepRatchet | backend/app/services/investment_analysis_service.py:106-107 | With nothing queued after a candle, the reference price is at least its close |
| StrategyProperties.BuyRecordAndTask | backend/app/services/investment_analysis_service.py:114-145 | A buy appends one OPEN BUY record `BUY_n` at the price for the trade amount and one task whose `buy_id` is that id, whose target is price·(1+threshold) and whose coins are the record's; cash falls by the trade amount, coins rise by the bought coins, the price becomes the reference, the counter steps, and profit, sales and minimum are unchanged |
| StrategyProperties.SaleRecord | backend/app/services/investment_analysis_service.py:147-172 | A sale appends one CLOSED SELL record `SELL_n` naming the task's buy, with net proceeds coins·price·(1−commission) and profit = net − cost, which is also the change in total profit; cash rises by the net, the task's coins leave, the price becomes the reference, the counter and the sale count step, and the queue is the old one with the task removed by `list.remove` |
| StrategyProperties.OrderIdInjective | backend/app/services/investment_analysis_service.py:120-159 | `BUY_`/`SELL_` ids with `:04d` counters are equal only for the same prefix and counter |
| StrategyProperties.NumberedPrefix | backend/app/services/investment_analysis_service.py:76 | Every prefix of a numbered log is numbered |
| StrategyProperties.OrderIdsDistinct | backend/app/services/investment_analysis_service.py:76 | No two records of the log share an order id |
| StrategyProperties.BuyIdInBag | backend/app/services/investment_analysis_service.py:120 | Every id in the BUY-id bag is the id of a BUY record |
| StrategyProperties.BuyIdsUnique | backend/app/services/investment_analysis_service.py:120 | Each BUY id occurs once |
| StrategyProperties.BuysAndSellsCoverLog | backend/app/services/investment_analysis_service.py:58-104 | Every record is a BUY or a SELL |
| StrategyProperties.FinalHoldings | backend/app/services/investment_analysis_service.py:37-112 | At the end: coins = sum of open tasks' coins; cash + trade amount·open positions = initial + total profit; total profit = sum of record profits; every open task has positive coins and target above a positive buy price |
| StrategyProperties.CostOfTasks | backend/app/services/investment_analysis_service.py:65-69 | Open positions tie up exactly trade amount × their number |
| StrategyProperties.FinalLog | backend/app/services/investment_analysis_service.py:37-112 | At the end: counter = trades + 1; BUYs = total_trades + pending; SELLs = total_trades; trades = 2·total_trades + pending; ids distinct; no buy both open and sold, none sold twice |
| StrategyProperties.SummaryFacts | backend/app/services/investment_analysis_service.py:174-187 | The summary fails iff the initial balance is 0; otherwise initial + initial·ROI/100 = final value, and the counts and totals are the state's |
| StrategyProperties.ChartPrefix | backend/app/services/investment_analysis_service.py:189-195 | Chart series of a log prefix are the prefix of the series |
| StrategyProperties.ChartDataFacts | backend/app/services/investment_analysis_service.py:189-195 | Four series with one entry per trade, aligned by index; absent profits are 0; the profit series sums to the records' profits |
| StrategyProperties.AnalysisFacts | backend/app/services/investment_analysis_service.py:14-112 | The analysis fails iff the initial balance is 0; otherwise it returns the final log, a summary agreeing with it, and chart profits summing to the total profit |
| MainApp.InlineBuy | backend/main.py:135-171 | The inline buy branch, which updates the balances first and records the updated values, is exactly the shared buy |
| MainApp.InlineSell | backend/main.py:176-210 | The inline sale, which also updates the balances before building the record, is exactly the shared sale |
| MainApp.InlineProcessCandle | backend/main.py:128-213 | The inline loop body is exactly `Strategy.Step` |
| MainApp.RunFromUnfold | backend/main.py:128-213 | One loop iteration advances the specification fold by one candle |
| MainApp.InlineChartData | backend/main.py:215-220 | The inline `chart_data` is the shared chart data |
| MainApp.InlineSummary | backend/main.py:222-230 | The inline summary, with the final balance written out twice, is the shared summary, including the division error at initial balance 0 |
| MainApp.InlineStrategyAnalysis | backend/main.py:115-232 | The inline loop, chart and summary together equal `Strategy.StrategyAnalysis` |
| MainApp.AnalyzeInvestmentStrategy | backend/main.py:106-232 | An unparsable date is `HttpError(400, "Invalid date format…")`; an empty paginated history is the no-data 400; otherwise the result is the analysis of the paginated history |
| MainApp.AnalyzeInvestmentsAsWritten | backend/main.py:242-248 | The endpoint as written turns every failure, the analysis' own 400s included, into a 500 |
| MainApp.NoDataBecomesServerError | backend/main.py:242-248 | The no-data 400 reaches the client as a 500 |
| MainApp.AnalyzeInvestments | backend/main.py:242-248 | Corrected endpoint: HTTP errors pass through unchanged, other failures become 500 |
| MainApp.ClientErrorsPreserved | backend/main.py:242-248 | Under the corrected endpoint a 400 reaches the client as that 400, and the zero-balance division error as a 500 |
| MainApp.SymbolsRouteFacts | backend/main.py:250-259 | `/symbols` returns min(50, n) names, the first ones in exchange order of the TRADING entries, each naming a TRADING entry; a failed request is a 500 |
| BinanceRepository.ParseKline | backend/app/repositories/binance_repository.py:21-31 | A kline parses iff it has at least seven fields, integer open and close times, and five price and volume fields that convert to floats; the candle then holds exactly those values |
| BinanceRepository.ParseAllFacts | backend/app/repositories/binance_repository.py:20-33 | The page parses iff every kline parses, one candle per kline in order |
| BinanceRepository.ParseAllAborts | backend/app/repositories/binance_repository.py:20-35 | One unparsable kline makes the whole page unparsable |
| BinanceRepository.ParseKlines | backend/app/repositories/binance_repository.py:20-35 | The append loop returns the parsed page, or [] when any kline fails |
| BinanceRepository.GetPriceData | backend/app/repositories/binance_repository.py:12-35 | A raised request, a 4xx/5xx status, a missing body or an unparsable kline gives []; otherwise the parsed candles |
| BinanceRepository.MaxTimestamp | backend/app/repositories/binance_repository.py:47 | Bounds every candle's timestamp and is attained |
| BinanceRepository.GetHistoricalPriceData | backend/app/repositories/binance_repository.py:37-51 | The pagination loop returns exactly `Paginate` |
| BinanceRepository.PaginateBounds | backend/app/repositories/binance_repository.py:37-51 | Every collected candle opens at or after the start time |
| BinanceRepository.PaginatePages | backend/app/repositories/binance_repository.py:37-51 | The history is empty iff start ≥ end or the first page is empty; otherwise it is that page followed by later pages, whose candles open after every earlier one |
| BinanceRepository.UsdtTradingSymbolsFacts | backend/app/repositories/binance_repository.py:58 | The kept entries are a subsequence of the exchange's, and a name is kept iff some TRADING entry ending in USDT carries it |
| BinanceRepository.AvailableSymbolsFacts | backend/app/repositories/binance_repository.py:53-61 | A failed request gives []; otherwise the names, in exchange order, of exactly the TRADING pairs ending in USDT |
| AsyncBinanceRepository.GetIntervalMs | backend/app/repositories/async_binance_repository.py:174-183 | The six intervals' lengths in ms, and one minute for any other |
| AsyncBinanceRepository.GetPriceDataChunk | backend/app/repositories/async_binance_repository.py:22-48 | A status other than 200, a missing body or a failure gives []; a 200 gives the parsed page or [] |
| AsyncBinanceRepository.ChunksFacts | backend/app/repositories/async_binance_repository.py:60-66 | The windows cover [start, end) without gap or overlap, each non-empty and at most 1000 intervals wide |
| AsyncBinanceRepository.SplitChunks | backend/app/repositories/async_binance_repository.py:60-66 | The chunk loop builds exactly `Chunks` with width 1000·interval |
| AsyncBinanceRepository.MergedFacts | backend/app/repositories/async_binance_repository.py:78-84 | A candle is merged iff it is in a chunk result that is a list |
| AsyncBinanceRepository.MergeResults | backend/app/repositories/async_binance_repository.py:78-84 | The merge loop extends by list results in chunk order and drops exceptions |
| AsyncBinanceRepository.SortByTimestampFacts | backend/app/repositories/async_binance_repository.py:87 | The sorted list is a permutation of the merged candles, in timestamp order |
| AsyncBinanceRepository.GetHistoricalPriceDataParallel | backend/app/repositories/async_binance_repository.py:50-87 | The method returns exactly `ParallelHistory` |
| AsyncBinanceRepository.ParallelHistoryFacts | backend/app/repositories/async_binance_repository.py:50-87 | At most 1000 candles: the single request's result. Otherwise never a failure, and exactly the candles of the list results, sorted by timestamp |
| AsyncBinanceRepository.MaxHigh | backend/app/repositories/async_binance_repository.py:107 | The greatest high: bounds every candle's high and is attained |
| AsyncBinanceRepository.MinLow | backend/app/repositories/async_binance_repository.py:108 | The least low: bounds every candle's low and is attained |
| AsyncBinanceRepository.StatsFacts | backend/app/repositories/async_binance_repository.py:105-125 | The record carries the symbol and the candle count; high and low bound every candle and are attained; volume is the sum of volumes; open + change = close; with a positive open, percent·open = 100·change, otherwise percent is 0 |
| AsyncBinanceRepository.Symbol24hSingleRequest | backend/app/repositories/async_binance_repository.py:89-129 | The 24-hour window is one 1h request at now − 24h; no candles or a failure gives None; the statistics carry the symbol |
| AsyncBinanceRepository.ValidResultsMembers | backend/app/repositories/async_binance_repository.py:160-163 | A result is kept iff it is a statistics record |
| AsyncBinanceRepository.ResultsMembers | backend/app/repositories/async_binance_repository.py:150-163 | A statistics record survives the per-symbol fetch iff some listed pair's 24-hour request produced it |
| AsyncBinanceRepository.SymbolLeqTotal | backend/app/repositories/async_binance_repository.py:168 | Comparing symbols as strings is a total preorder, so the sort is well defined |
| AsyncBinanceRepository.AvailableSymbolsFacts | backend/app/repositories/async_binance_repository.py:131-172 | Failure or a status other than 200 gives []; otherwise the list is sorted by symbol and holds exactly the statistics of the trading USDT pairs that had any |
| ApiBase.Raw | frontend/src/apiBase.js:1 | A set, non-empty `VITE_API_URL` is used as given, and the result is never empty |
| ApiBase.StripTrailingSlash | frontend/src/apiBase.js:2 | At most one trailing slash is removed, exactly when there is one |
| ApiBase.StripLeadingSlash | frontend/src/apiBase.js:3 | At most one leading slash is removed, exactly when there is one |
| ApiBase.ApiUrl | frontend/src/apiBase.js:3 | The URL is the base, one slash, then the path with at most one leading slash removed |
| ApiBase.ApiBaseUrlFacts | frontend/src/apiBase.js:1-2 | The base is the configured URL or "/api" less at most one trailing slash; unset or empty gives "/api"; a non-empty URL loses its one trailing slash if it has one and is kept otherwise |
| ApiBase.ApiUrlPlain | frontend/src/apiBase.js:3 | A path without a leading slash is appended after one slash |
| ApiBase.ApiUrlLeadingSlash | frontend/src/apiBase.js:3 | `apiUrl("/"+p)` = `apiUrl(p)` for p without a leading slash |
| ApiBase.ApiUrlDoubleSlash | frontend/src/apiBase.js:3 | Only one leading slash is stripped: "//p" keeps one |
| ApiBase.ApiUrlDefault | frontend/src/apiBase.js:3 | The default empty path gives the base and one slash |
| TradeUtils.GetMarketData | frontend/src/utils/tradeUtils.js:10-26 | Row 0 compares with itself (volume change 0); a later row takes the previous row's price and `VolumeChange` from the previous row's USDT amount |
| TradeUtils.VolumeChangeFacts | frontend/src/utils/tradeUtils.js:20 | With a nonzero previous amount the change is finite, is 0 iff the amounts are equal, and with a positive previous amount has the sign of the difference |
| TradeUtils.VolumeChangeFromZero | frontend/src/utils/tradeUtils.js:20 | A zero previous amount gives Infinity (or NaN when both are 0) |
| TradeUtils.StrategyVolumeChangesFinite | frontend/src/utils/tradeUtils.js:20 | On any log the strategy produces, every row's volume change is finite |
| TradeUtils.TableMarketData | frontend/src/components/AnalysisResults/TradesTable/index.jsx:15-31 | The table's own copy: row 0 compares with itself; a later row takes the previous row's price and `VolumeChange` from the previous row's USDT amount |
| TradeUtils.TableAgreesWithUtil | frontend/src/components/AnalysisResults/TradesTable/index.jsx:15-31 | The table's copy and the shared utility agree on every row |
| TradeUtils.IndicatorRowsFacts | frontend/src/components/AnalysisResults/TradesTable/index.jsx:54-89 | One indicator per row with the row's price and USDT amount, the previous price, and the change from the previous row |
| MarketIndicator.PriceChangePercent | frontend/src/components/MarketIndicator/index.jsx:5-6 | 0 when the previous price is 0; otherwise percent·previous = 100·(price − previous), and with a positive previous price the sign of the move |
| MarketIndicator.VolumeRatio | frontend/src/components/MarketIndicator/index.jsx:11 | In [0,1]: 0 unless the change is positive, 1 from +100% on, change/100 in between |
| MarketIndicator.BearishVolumeRatio | frontend/src/components/MarketIndicator/index.jsx:12 | In [0,1]: 0 unless the change is negative, 1 from −100% down, |change|/100 in between |
| MarketIndicator.GetVolumeStatus | frontend/src/components/MarketIndicator/index.jsx:14-18 | BULL iff the change > 20, BEAR iff < −20, NEUTRAL otherwise (±20 and NaN included) |
| MarketIndicator.MarketIndicator | frontend/src/components/MarketIndicator/index.jsx:4-20 | Never both bullish and bearish, neither at 0% change; at most one bar filled; BULL implies a bull bar above 0.2 and no bear bar, BEAR the mirror |
| MarketIndicator.RowBarsFollowAmounts | frontend/src/components/MarketIndicator/index.jsx:11-12 | On a table row with a positive previous amount, the bull bar fills iff the amount grew and the bear bar iff it shrank |
| CurrencySelector.FilteredSymbolsFacts | frontend/src/components/CurrencySelector/index.jsx:33-35 | The filter keeps, in order, exactly the entries whose ASCII lower-cased symbol contains the ASCII lower-cased term; an empty term keeps all |
| CurrencySelector.FilterIgnoresCase | frontend/src/components/CurrencySelector/index.jsx:33-35 | Terms equal up to ASCII case keep the same entries |
| CurrencySelector.FormatVolume | frontend/src/components/CurrencySelector/index.jsx:48-55 | Suffix "M" iff ≥ 1e6, "K" iff in [1e3, 1e6), none below 1e3; the scaled value times the suffix's factor is the volume |
| CurrencySelector.AutoSelect | frontend/src/components/CurrencySelector/index.jsx:21-25 | The first symbol is selected iff the response has a non-empty list and no symbol is selected |
| CurrencySelector.AutoSelectIsListed | frontend/src/components/CurrencySelector/index.jsx:21-35 | The auto-selected symbol is one the selector lists |
| InvestmentForm.InitialFormData | frontend/src/components/InvestmentForm/index.jsx:7-16 | The form starts with exactly the eight fields |
| InvestmentForm.HandleInputChange | frontend/src/components/InvestmentForm/index.jsx:49-55 | Only the named field changes: parsed with `parseFloat` when its name contains "percent" or "rate", else the raw string |
| InvestmentForm.SyncSelectedSymbol | frontend/src/components/InvestmentForm/index.jsx:25-32 | A non-empty selection replaces only `symbol`; an absent or empty one changes nothing |
| InvestmentForm.Percent | frontend/src/components/InvestmentForm/index.jsx:62-63 | Dividing a field by 100 always gives a number; a numeric field gives its value over 100 |
| InvestmentForm.HandleSubmit | frontend/src/components/InvestmentForm/index.jsx:57-67 | The submitted record has every other field unchanged |
| InvestmentForm.PercentagesStayNumbers | frontend/src/components/InvestmentForm/index.jsx:49-55 | The two percentage fields hold numbers initially and after any input change or symbol selection |
| InvestmentForm.SubmitDividesPercentages | frontend/src/components/InvestmentForm/index.jsx:60-64 | The submitted threshold and commission are the form's numbers over 100 |
| InvestmentForm.DefaultsMatchBackend | frontend/src/components/InvestmentForm/index.jsx:7-16 | The untouched form submits 0.05 and 0.00075 with the other defaults, the backend's own defaults |

## Left out

- HTTP, the Binance endpoints, CORS and routing, `sleep`, sessions and the retry adapter are not modelled. Each fetch is a function parameter, and a response is a status plus an optional parsed body.
- `asyncio.gather`, the semaphore and the async context managers are not modelled. The chunk results are the parameter function applied to each window in order, and an exception result is `None`.
- AsyncBinanceRepository.GetAvailableSymbols: `datetime.now()` in `get_symbol_24h_data` is the parameter `now`. It is read once for all symbols, whereas the source reads the clock once per symbol, so in the source each symbol's 24-hour window ends at its own instant.
- Floating-point rounding is not modelled. Every amount is an exact `real`.
- Date handling is a parameter: `datetime.fromisoformat` is `convertDate`, `strftime` is `fmt`, and the calendar day is `dayOf`. The form's `Date.now()` and date-fns `format` give `InitialFormData`'s `startDate` and `endDate` strings.
- Number formatting is not modelled: `Intl.NumberFormat`, `toFixed` and `toLocaleString`. `FormatVolume` returns the scaled value and its suffix.
- Logging is not modelled: `print` and `console.log`.
- JSX rendering, React state holders and effects, charts, tabs and the serverless proxies are not modelled. The modelled handlers are the functions the state setters apply.
- The services are constructed with a repository object. Here each service takes the repository's fetch as a function parameter.
- AnalysisService.AnalyzeInvestmentStrategy: it requires both timestamps to be set. The route sets them before calling, and the source dereferences them unconditionally.
- AnalysisService.AsyncAnalyzeInvestmentStrategy: the same precondition on the timestamps.
- BinanceRepository.GetHistoricalPriceData: it requires Binance's contract that a page only holds candles opening at or after the requested start. Without it the loop need not terminate.
- MainApp.AnalyzeInvestmentStrategy: the same pagination precondition.
- BinanceRepository.ParseKline: an open or close time that is not a JSON integer makes the kline unparsable. The source copies such a value unchecked into the candle.
- The paginated and chunked histories may contain candles opening at or after the end time, as in the source. No lemma claims otherwise.
- CurrencySelector.FilteredSymbolsFacts: lower-casing folds only the ASCII letters A-Z. JavaScript's `toLowerCase` folds all of Unicode, so a term such as the Kelvin sign (U+212A) matches symbols in the source but not in the model.
- The strategy is proved for positive closes, a positive trade amount, a threshold in (0, 1) and a commission in [0, 1). Other parameter values are not analysed.

## Findings

| source | as written | input that shows it | evidently intended | confidence | as-written member | corrected member |
|---|---|---|---|---|---|---|
| backend/main.py:242-248 | `except Exception` also catches the `HTTPException` that `analyze_investment_strategy` raises. An empty history (400 "No data available…") or a bad date (400) therefore reaches the client as a 500 whose detail is `str(e)` | a request for a period with no candles | the 400 passes through unchanged; only unexpected errors become 500 | not executed | MainApp.NoDataBecomesServerError | MainApp.ClientErrorsPreserved |
