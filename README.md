# Stock tracker: verified model of the dashboard logic

This project models the deterministic logic of a market dashboard written in
TypeScript and React. That logic sits around the rendering and the HTTP clients:

- **Indicator engine.** The stock chart's null-padded moving average, and the
  advanced chart's compact SMA and gain/loss RSI. Both are re-aligned onto the
  bar series with `|| null`. The summary shows the last value of each array.
- **Candlestick geometry.** The price-to-pixel mapping, the body and wick layout,
  and the y-axis domain padded by 5%.
- **Payload shaping in the market-data clients** (`lib/api.ts`, `lib/finnhub-api.ts`).
  This covers sentinel checks, `||` fallbacks, parallel-array zipping,
  ×1000 timestamps, length caps and the close > 0 filter. It also covers the
  simulated bar generator, which is driven by the random draws it is given.
- **Formatters and classifiers of the crypto views.** These include the
  T/B/M/K tiers, price precision, the volatility, momentum, fear/greed and
  sentiment bands, the "time ago" buckets and the change colours. Where two
  components carry their own copy of a ladder, a lemma compares them.
- **Small state rules:**
  - the middleware's session redirect;
  - the sign-up form's validation and loading/error/message updates;
  - the advanced chart's drawing-tool toggle and annotation list.

Prices are `real`. The NaN and Infinity cases of JavaScript arithmetic are
explicit. Each becomes either an `Option` result or a precondition that names
the case:

- an RSI window with neither gains nor losses;
- a zero y-range;
- `Math.min` or `Math.max` over an empty list;
- a zero previous close.

Every network request is a parameter. `Ok(payload)` is the decoded JSON and
`Err(message)` a request that threw. `Date.now()` and `Math.random()` are
parameters too.

Modules follow the source files:

- `Api` (`lib/api.ts`) and `FinnhubApi` (`lib/finnhub-api.ts`);
- `StockChart` and `AdvancedChart` (`components/stocks/`);
- `CryptoStats`, `CryptoTable`, `CryptoDetailHeader`, `CryptoChart`,
  `CryptoMarketStats` and `CryptoNews` (`components/crypto/`);
- `Middleware` (`middleware.ts`) and `SignUp` (`app/auth/signup/page.tsx`).

They share these helper modules:

- `Wrappers`: `Option`, `Result` and the `||` fallbacks;
- `Seqs`: sums, means, minima and maxima, `slice`, `filter`;
- `Text`: prefix tests, ASCII upper-casing, decimal rendering, `parseInt`;
- `Formats`: the shapes a formatted number takes.

Four pieces of imperative code are modelled as methods with loop invariants:

- `calculateSMA` and `calculateRSI` are proved equal to the specification
  functions `SmaSpec` and `RsiSpec`.
- The bar generator of `getStockChart` is one more such method.
- The table's copy-then-sort is an insertion sort on an array copy.

The component state that handlers update in place is modelled as classes:
`AdvancedChartState` and `SignUpForm`.

The handlers of the sign-up form are specified by the sequence of state updates
they make (`SignUpEffects`, `GoogleEffects`). The methods are proved to leave the
form exactly as that sequence does.

## Model

| member | source | states |
|---|---|---|
| StockChart.CalculateMA | components/stocks/stock-chart.tsx:92-99 | one entry per bar; an entry is null exactly before index period−1; every entry is null when the series is shorter than the period |
| StockChart.MAIsWindowMean | components/stocks/stock-chart.tsx:95-97 | a defined entry is the mean of the `period` closes ending at its bar and lies between their minimum and maximum |
| StockChart.MAOfFlatWindow | components/stocks/stock-chart.tsx:95-97 | over `period` equal closes the moving average is that close |
| StockChart.MovingAveragesOverThirtyBars | components/stocks/stock-chart.tsx:101-102 | over 30 bars ma20 is defined from bar 19 on and ma50 is null everywhere |
| StockChart.AllPrices | components/stocks/stock-chart.tsx:105 | the flat list holds open, close, high, low of every bar at positions 4k..4k+3 |
| StockChart.YAxisDomain | components/stocks/stock-chart.tsx:105-109 | the domain contains [min, max] of all prices, is 1.1 times as wide, is padded equally on both sides and contains every open, high, low and close |
| StockChart.PriceToYAntitone | components/stocks/stock-chart.tsx:36-39 | for a positive domain and non-negative height a higher price is never drawn lower on screen |
| StockChart.CandlestickBar | components/stocks/stock-chart.tsx:27-88 | high, low, open and close are mapped to screen y over `yAxisDomain`, or [low, high] when it is absent; the body top is the smaller open/close y, its height their distance, drawn at least 1 tall; positive iff close ≥ open, and green iff positive; body 0.6·width, centred on the wick; drawn height ≥ 1 and ≥ body height; for a positive domain and a consistent bar highY ≤ bodyTop ≤ body bottom ≤ lowY |
| StockChart.VolumeColourMatchesCandle | components/stocks/stock-chart.tsx:41-42 | a volume bar is marked positive exactly when its candle is green |
| StockChart.SeriesCandlesWellFormed | components/stocks/stock-chart.tsx:105-109 | with the chart's own padded domain every consistent bar keeps its wicks outside its body |
| AdvancedChart.SmaSpec | components/stocks/advanced-chart.tsx:73-80 | the SMA has max(0, n−period+1) values |
| AdvancedChart.CalculateSMA | components/stocks/advanced-chart.tsx:73-80 | the loop's output equals `SmaSpec`: element j is the mean of prices[j..j+period) |
| AdvancedChart.SmaWithinWindow | components/stocks/advanced-chart.tsx:76-77 | every SMA value lies between the lowest and highest price of its window |
| AdvancedChart.SmaMatchesMovingAverage | components/stocks/advanced-chart.tsx:73-80 | the advanced chart's SMA value k equals the stock chart's moving average at bar k+period−1 |
| AdvancedChart.GainLossSplit | components/stocks/advanced-chart.tsx:88-90 | gain and loss are ≥ 0, at most one is nonzero, and gain − loss is the price change |
| AdvancedChart.Gains | components/stocks/advanced-chart.tsx:87-91 | n−1 gains, all non-negative |
| AdvancedChart.Losses | components/stocks/advanced-chart.tsx:87-91 | n−1 losses, all non-negative |
| AdvancedChart.RsiOf | components/stocks/advanced-chart.tsx:94-97 | NaN (None) exactly when gains and losses are both zero; 100 for gains with no losses; otherwise defined and in [0, 100) |
| AdvancedChart.RsiBelowHundred | components/stocks/advanced-chart.tsx:96-97 | with a positive average loss the RSI is defined and lies in [0, 100) |
| AdvancedChart.RsiIsGainShare | components/stocks/advanced-chart.tsx:96-97 | with a positive average loss the RSI equals 100·avgGain/(avgGain+avgLoss) |
| AdvancedChart.RsiSpec | components/stocks/advanced-chart.tsx:93-98 | the RSI has max(0, n−period) values |
| AdvancedChart.RsiWindowAverages | components/stocks/advanced-chart.tsx:94-95 | the window averages the loop computes are non-negative and give the value `RsiEndingAt` specifies |
| AdvancedChart.CalculateRSI | components/stocks/advanced-chart.tsx:82-101 | the two loops' output equals `RsiSpec`: element k is the RSI of the `period` changes ending at price k+period |
| AdvancedChart.LoopArraysAreGainsAndLosses | components/stocks/advanced-chart.tsx:87-91 | arrays built by the first loop are exactly `Gains` and `Losses` |
| AdvancedChart.AverageWindows | components/stocks/advanced-chart.tsx:93-98 | the second loop over the gain and loss arrays yields `RsiSpec` |
| AdvancedChart.RsiRange | components/stocks/advanced-chart.tsx:94-97 | each RSI value is in [0,100) when its window lost anything, exactly 100 when it only gained, NaN (None) when flat |
| AdvancedChart.GainsLessLossesIsNetChange | components/stocks/advanced-chart.tsx:87-91 | the total of the gains less the total of the losses is the last price less the first |
| AdvancedChart.OrNull | components/stocks/advanced-chart.tsx:111-113 | the null fallback (0 and undefined become null) keeps a value exactly when it is defined and nonzero |
| AdvancedChart.ChartPoints | components/stocks/advanced-chart.tsx:103-114 | one point per bar with the bar's fields copied; all indicator fields null before the indicators exist |
| AdvancedChart.SmaAligned | components/stocks/advanced-chart.tsx:111-112 | sma20 and sma50 at bar i are the stock chart's period-20 and period-50 moving averages ending at i, passed through the null fallback (0 and undefined become null) |
| AdvancedChart.RsiAligned | components/stocks/advanced-chart.tsx:113 | rsi at bar i is null for i < 14 and otherwise the RSI of the 14 changes ending at close i, passed through the null fallback (0 and undefined become null) |
| AdvancedChart.NextDrawingTool | components/stocks/advanced-chart.tsx:116-118 | the picked tool becomes current; it is active when it differs from the current one and toggles when it is the same |
| AdvancedChart.DrawingToolToggle | components/stocks/advanced-chart.tsx:116-118 | a click flips its own button's highlight and un-highlights every other one; two clicks on the current tool restore the state |
| AdvancedChart.SummaryOf | components/stocks/advanced-chart.tsx:346-359 | N/A for every indicator before indicators exist; otherwise each cell is N/A exactly for an empty series and else its last value; the volume cell is the last bar's volume in millions, N/A without bars |
| AdvancedChart.SummaryShowsLatestWindows | components/stocks/advanced-chart.tsx:346-359 | the summary shows the means of the last 20 and 50 closes (N/A for a shorter series), an RSI exactly when there are more than 14 closes, and the last volume in millions |
| AdvancedChart.AdvancedChartState.RefreshIndicators | components/stocks/advanced-chart.tsx:52-71 | a non-empty series replaces the indicators with those computed from it; an empty one keeps them; nothing else changes |
| AdvancedChart.AdvancedChartState.SelectDrawingTool | components/stocks/advanced-chart.tsx:116-118 | the tool becomes `NextDrawingTool` of the old one; nothing else changes |
| AdvancedChart.AdvancedChartState.ClearAnnotations | components/stocks/advanced-chart.tsx:125-127 | the annotation list becomes empty; nothing else changes |
| Api.GetStockData | lib/api.ts:91-134 | Ok exactly when both fetches succeed and the price is nonzero; the quote's error, then the profile's, then the not-found error otherwise; upper-cased symbol, name and market-cap fallbacks, zero volume/pe/eps/dividend/beta; change and percent copied from the quote, the day's high and low stored as the 52-week figures, open and previous close kept; the profile's ipo, logo, web URL, country, currency and exchange copied, industry from finnhubIndustry and sector from gind |
| Api.DataPoints | lib/api.ts:150 | 30 bars exactly for "daily", 96 exactly for other intervals containing "min", 7 exactly for the rest |
| Api.TimeStep | lib/api.ts:154-156 | one day for "daily" and for intervals without "min"; otherwise `parseInt(interval)` minutes in milliseconds, undefined exactly when `parseInt` gives NaN |
| Api.SimulatedBar | lib/api.ts:160-178 | timestamp now − i·step; the newest bar closes at the quote; whole-number volume in [1e6, 1.1e7); positive prices give low ≤ min(open, close) ≤ max(open, close) ≤ high |
| Api.GetStockChart | lib/api.ts:136-188 | [] for a failed or zero quote; otherwise `DataPoints` bars ending at now with the quoted close, the k-th emitted bar built by `SimulatedBar` from the k-th draws and its distance from the end, timestamps strictly ascending for a positive step, every volume in range and every bar well shaped for a positive price |
| Api.GetCryptoChart | lib/api.ts:218-235 | a failure is re-thrown; otherwise one bar per tuple with volume 0 |
| Api.CryptoChartRoundTrip | lib/api.ts:223-230 | projecting the bars back to tuples gives the payload, so nothing is lost or reordered |
| Api.GetTopStocks | lib/api.ts:237-258 | at most ten records |
| Api.TopStocksInSymbolOrder | lib/api.ts:240-253 | the k-th record is exactly what `GetStockData` returned for the k-th successful symbol, in symbol-list order, every success included; all ten when every fetch succeeds |
| Api.GetMarketNews | lib/api.ts:287-303 | at most 20 items, in order; the id is the article's own id or its position; millisecond publication time; category falls back to "general"; the summary serves as both description and summary; url, source, image and related copied |
| Api.MarketNewsIndexIdsDistinct | lib/api.ts:293 | articles without an id get pairwise distinct positional ids |
| Api.StockFromMatch | lib/api.ts:341-356 | symbol and display symbol kept, description as the name; every figure 0 and every other optional field absent |
| Api.CryptoFromMatch | lib/api.ts:358-371 | id and name kept, symbol upper-cased; every figure 0 |
| Api.SearchAssets | lib/api.ts:332-378 | any failure gives two empty lists; otherwise at most ten stocks and ten coins, in order, with zero prices, upper-cased coin symbols and [] for a missing list; a stock hit keeps symbol, description as name and display symbol as exchange, a coin keeps id and name, and every other field is 0 or absent |
| Api.YahooBars | lib/api.ts:421-427 | one bar per timestamp, in milliseconds, each field from the same index or 0 |
| Api.GetStockChartFromYahoo | lib/api.ts:405-433 | [] without a result; otherwise never longer than the timestamps, and every kept bar has a positive close and a whole-second timestamp |
| Api.YahooKeepsOrder | lib/api.ts:421-428 | the kept bars are exactly those with positive close, in their original order, each equal to the bar built from its own index of the parallel arrays |
| FinnhubApi.GetStockQuote | lib/finnhub-api.ts:75-98 | a failure or an error field is thrown; otherwise the eight quote fields are copied one-to-one |
| FinnhubApi.CandleWindow | lib/finnhub-api.ts:139-140 | given nonzero bounds are kept; a missing or zero `to` is the current second (rounded down) and a missing or zero `from` lies 365 days before it; with both missing the window is exactly 365 days |
| FinnhubApi.GetStockCandles | lib/finnhub-api.ts:132-162 | Ok exactly for status "ok"; then one candle per timestamp, ×1000, each field from the same index |
| FinnhubApi.CandleTimestampsRoundTrip | lib/finnhub-api.ts:151-153 | millisecond timestamps divide back to the provider's seconds and keep their order |
| FinnhubApi.GetStockNews | lib/finnhub-api.ts:166-191 | [] on failure; at most ten items, in order, id "<symbol>-<index>", sentiment defaulting to 0; headline, summary, url, source and category copied, and the datetime kept in seconds |
| FinnhubApi.StockNewsIdsDistinct | lib/finnhub-api.ts:179 | the ids of one symbol's news are pairwise distinct |
| FinnhubApi.SearchStocks | lib/finnhub-api.ts:194-210 | the first ten results, or [] when `result` is missing or the request failed |
| FinnhubApi.GetStockMetrics | lib/finnhub-api.ts:213-241 | Ok exactly when the quote and the metrics succeed; missing metrics read 0; rsi and the SMAs are always 0 |
| FinnhubApi.EmptyMetricsAreZero | lib/finnhub-api.ts:226-236 | an empty metric object yields all-zero metrics |
| FinnhubApi.GetMarketStatus | lib/finnhub-api.ts:245-258 | the provider's status, or closed when the request failed |
| CryptoStats.FormatNumber | components/crypto/crypto-stats.tsx:14-20 | the rendered amount stands for the number; exactly one tier per band; scaled figure in [1, 1000) except in T; literal below 1e3 |
| CryptoStats.FormatPrice | components/crypto/crypto-stats.tsx:22-26 | "$" and 2, 4 or 8 decimals on the three disjoint bands |
| CryptoStats.CirculatingPercent | components/crypto/crypto-stats.tsx:28 | 0 without a positive total; otherwise pct·total = circulating·100 |
| CryptoStats.CirculatingPercentInRange | components/crypto/crypto-stats.tsx:28 | the share lies in [0, 100] when 0 ≤ circulating ≤ total |
| CryptoStats.TotalSupplyText | components/crypto/crypto-stats.tsx:64 | "∞" exactly for a non-positive total, otherwise `formatNumber` of it |
| CryptoStats.VolatilityOf | components/crypto/crypto-stats.tsx:179-183 | High above 10%, Medium in (5, 10], Low up to 5, in absolute change |
| CryptoStats.BadgeOf | components/crypto/crypto-stats.tsx:171-177 | destructive above 10% absolute change, default in (5%, 10%], secondary up to 5% |
| CryptoStats.BadgeMatchesVolatility | components/crypto/crypto-stats.tsx:171-183 | the badge variant and the label always name the same band |
| CryptoStats.VolatilityProgress | components/crypto/crypto-stats.tsx:186 | in [0, 100]; 100 exactly from a 50% move; twice the absolute change below that |
| CryptoStats.ProgressTracksVolatility | components/crypto/crypto-stats.tsx:171-186 | a Low badge fills at most 10 of the bar, Medium (10, 20], High more than 20 |
| CryptoTable.SortInPlace | components/crypto/crypto-table.tsx:21-25 | the array ends sorted by the key in the order and is a permutation of what it held |
| CryptoTable.SortedCryptos | components/crypto/crypto-table.tsx:21-25 | sorts a copy: the result is ordered by the key and is a permutation of the input, which is not modified |
| CryptoTable.FormatMarketCap | components/crypto/crypto-table.tsx:27-32 | "$", stands for the cap, T/B/M on their disjoint bands, literal below 1e6 |
| CryptoTable.FormatVolume | components/crypto/crypto-table.tsx:34-38 | "$", stands for the volume, B from 1e9 up with no T tier, M from 1e6, literal below |
| CryptoTable.VolumeAgainstMarketCap | components/crypto/crypto-table.tsx:27-38 | volume and market cap render alike below 1e12; above, volume stays in B with a figure ≥ 1000 |
| CryptoTable.MarketCapAgainstFormatNumber | components/crypto/crypto-table.tsx:27-32 | the table and the stats panel agree from 1e6 up; between 1e3 and 1e6 the table prints the literal where the panel uses K |
| CryptoTable.DetailGreenMatchesTable | components/crypto/crypto-stats.tsx:149 | the detail card's 24h change is green exactly when the table colours it in one of its two green bands, and red otherwise, including an unchanged price that the table mutes |
| CryptoTable.PriceChangeColor | components/crypto/crypto-table.tsx:40-46 | five disjoint bands: > 5, (0, 5], < −5, [−5, 0) and exactly 0 |
| CryptoTable.Rows | components/crypto/crypto-table.tsx:80 | one row per sorted coin, rank = position + 1 |
| CryptoTable.RowCellsConsistent | components/crypto/crypto-table.tsx:99-122 | 2 decimals iff price ≥ 1, else 6; up arrow and "+" together, exactly when the change is coloured green |
| CryptoTable.DefaultRanksFollowMarketCap | components/crypto/crypto-table.tsx:18-25 | under the default marketCap/desc sort, rank 1 holds the largest cap and ranks follow market cap downwards |
| CryptoDetailHeader.FormatPrice | components/crypto/crypto-detail-header.tsx:15-19 | 2, 4 or 8 decimals on the three bands, without "$" |
| CryptoDetailHeader.FormatMarketCap | components/crypto/crypto-detail-header.tsx:21-26 | "$", T/B/M tested in descending order, literal below 1e6 |
| CryptoDetailHeader.PriceMatchesStats | components/crypto/crypto-detail-header.tsx:15-19 | same precision as the stats panel's formatter for every price, differing only by "$" |
| CryptoDetailHeader.MarketCapMatchesTable | components/crypto/crypto-detail-header.tsx:21-26 | renders every market cap exactly as the table does |
| CryptoChart.ChartPoints | components/crypto/crypto-chart.tsx:33-41 | one point per bar, in order, plotting the close as the price |
| CryptoChart.CurrentPrice | components/crypto/crypto-chart.tsx:43 | the last close, or 0 for an empty series |
| CryptoChart.CurrentPriceIsLastPoint | components/crypto/crypto-chart.tsx:43 | the current price is the last plotted price |
| CryptoChart.PriceChange | components/crypto/crypto-chart.tsx:44 | 0 with fewer than two bars, otherwise last close less the previous one |
| CryptoChart.PriceChangePercent | components/crypto/crypto-chart.tsx:45 | 0 with fewer than two bars, otherwise pct·previous = change·100 |
| CryptoChart.PercentHasSignOfChange | components/crypto/crypto-chart.tsx:44-45 | with a positive previous close the percentage is positive, or zero, exactly when the change is |
| CryptoChart.TrendOf | components/crypto/crypto-chart.tsx:221-222 | Bullish exactly for a strictly positive change |
| CryptoChart.MomentumOf | components/crypto/crypto-chart.tsx:229 | High above 5%, Medium in (2, 5], Low up to 2, in absolute change |
| CryptoChart.Precision | components/crypto/crypto-chart.tsx:67 | 6 decimals exactly below 1, else 2 |
| CryptoChart.VolumeTooltip | components/crypto/crypto-chart.tsx:119-122 | stands for the volume; B strictly above 1e9, otherwise M |
| CryptoChart.TooltipAgainstTableVolume | components/crypto/crypto-chart.tsx:120 | tooltip and table agree from 1e6 up except at exactly 1e9, where the tooltip shows 1000 M and the table 1 B |
| CryptoChart.SummaryOf | components/crypto/crypto-chart.tsx:181-229 | price, change and percentage of the series; green and "+" exactly for a rise; precision of the current price; high and low defined exactly for a non-empty series, the highest bar high and lowest bar low actually reached; last volume in millions |
| CryptoChart.SummaryConsistent | components/crypto/crypto-chart.tsx:181-229 | green, "+" and Bullish go together; for consistent bars the low is at most the high |
| CryptoMarketStats.GetFearGreedLabel | components/crypto/crypto-market-stats.tsx:29-35 | five bands with inclusive lower bounds 75, 55, 45, 25 |
| CryptoMarketStats.FearGreedMonotone | components/crypto/crypto-market-stats.tsx:29-35 | raising the index never gives a more fearful label |
| CryptoMarketStats.ColourFollowsLabel | components/crypto/crypto-market-stats.tsx:30-34 | two indices share a colour exactly when they share a label |
| CryptoMarketStats.InitialIndexIsGreed | components/crypto/crypto-market-stats.tsx:24 | the initial index 72 reads Greed, in orange |
| CryptoMarketStats.MarketCapChangeCell | components/crypto/crypto-market-stats.tsx:49-56 | arrow up, "+" and green exactly for a positive change |
| CryptoNews.SentimentLabel | components/crypto/crypto-news.tsx:181 | Bullish above 0.3, Bearish below −0.3, Neutral in between with both thresholds included |
| CryptoNews.SentimentIcon | components/crypto/crypto-news.tsx:89-93 | trending-up above 0.3, trending-down below −0.3, the yellow dot between, thresholds included |
| CryptoNews.SentimentColour | components/crypto/crypto-news.tsx:95-99 | green above 0.3, red below −0.3, yellow between, thresholds included |
| CryptoNews.SentimentViewsAgree | components/crypto/crypto-news.tsx:89-99 | icon, colour and label always name the same sentiment |
| CryptoNews.CategoryColour | components/crypto/crypto-news.tsx:101-114 | the four named categories have their own colours, every other string is gray |
| CryptoNews.FormatTimeAgo | components/crypto/crypto-news.tsx:116-124 | "Just now" exactly under one hour elapsed, future times included; hours for [1 h, 24 h) with the hour count bounding the elapsed time; whole days after that |
| CryptoNews.SimulatedNews | components/crypto/crypto-news.tsx:30-80 | five items with ids "1" to "5", newest first, each published at least two hours before now, sentiments within [−1, 1] |
| CryptoNews.SimulatedNewsAsShown | components/crypto/crypto-news.tsx:30-80 | the five simulated items read Bullish, Bullish, Neutral, Bullish, Neutral, with badges blue, purple, orange, green, gray and ages 2, 4, 6, 8, 12 h |
| Middleware.Decide | middleware.ts:14-22 | redirect to the login page iff no session and a "/dashboard" prefix; redirect to the dashboard iff a session and an "/auth" prefix; pass otherwise |
| Middleware.NoRedirectLoop | middleware.ts:14-20 | following either redirect with the same session never redirects again |
| Middleware.Matched | middleware.ts:25-27 | a matched path lies under one of /dashboard, /auth, /portfolio, /screeners; those four and everything below any of them are matched |
| Middleware.Handle | middleware.ts:25-27 | the rule applies on matched paths and every other path passes |
| Middleware.MatchedButUnguarded | middleware.ts:14-27 | /portfolio and /screeners are matched yet pass without a session; the bare prefix test would redirect "/dashboardX", but the matcher does not run the middleware there |
| SignUp.SignUpEffects | app/auth/signup/page.tsx:31-71 | starts with loading on and both texts cleared, ends with loading off, and calls the provider exactly when the passwords match and the terms are accepted |
| SignUp.SignUpResult | app/auth/signup/page.tsx:37-70 | afterwards loading is off; a mismatch wins over unaccepted terms; otherwise the provider's error, the confirmation, or the generic error is shown |
| SignUp.GoogleEffects | app/auth/signup/page.tsx:73-86 | starts with loading on and the provider call; more follows exactly when the call threw |
| SignUp.GoogleResult | app/auth/signup/page.tsx:73-86 | loading stays on exactly when the call returned; on a throw the Google error is shown; the message is untouched |
| SignUp.ApplyOneMore | app/auth/signup/page.tsx:31-86 | applying one more update is applying it to the state the earlier ones left |
| SignUp.SignUpForm.HandleSignUp | app/auth/signup/page.tsx:31-71 | the form ends as `SignUpEffects` leaves it; the provider is called exactly when both checks pass; the inputs are unchanged |
| SignUp.SignUpForm.HandleGoogleSignUp | app/auth/signup/page.tsx:73-86 | the form ends as `GoogleEffects` leaves it; the inputs are unchanged |
| Text.UpperOfUpper | lib/api.ts:105 | an upper-cased symbol has no lower-case letter, so upper-casing is idempotent |
| Text.NatToDecimalInjective | lib/api.ts:293 | distinct positions render to distinct decimal strings |
| Text.LeadingIntOfDecimal | lib/api.ts:155 | `parseInt` of a rendered number followed by a non-digit suffix reads the number back |
| Text.DigitsValueOfDecimal | lib/api.ts:155 | reading the digits of a rendered number gives the number |
| Text.LeadingIntOfMinuteIntervals | lib/api.ts:155 | `parseInt` reads "1min" as 1 and "15min" as 15, and "min" as NaN |

## Left out

- Rendering: JSX, recharts, tooltips, tabs and class names. The digits that
  `toFixed` and `toLocaleString('de-DE')` print are not modelled either. A
  formatter returns the tier, the scale, the precision and the "$" choice,
  plus the number the text stands for.
- Dates: `toISOString`, `toLocaleDateString` and `toLocaleTimeString`. Instants
  are integers in milliseconds.
- IEEE doubles. Prices are exact reals, and rounding is not modelled.
- NaN and Infinity inputs. The cases the code can reach are made explicit:
  - `CalculateMA`, `SmaSpec` and `RsiSpec` require a period of at least 1, since
    a period of 0 divides by zero. The code only uses 14, 20 and 50.
  - `CandlestickBar` requires a nonzero y-range.
  - `YAxisDomain` requires at least one bar.
  - `PriceChangePercent`, `CryptoChart.SummaryOf` and `CryptoChart.SummaryConsistent` require a
    nonzero previous close.
  - `GetStockChart` requires an interval whose `parseInt` is a number.
  - `GetStockCandles` requires the parallel arrays to cover every timestamp.
- Text.ToUpper: only ASCII letters are upper-cased, because Unicode case mapping is not modelled.
- Text.LeadingInt: leading white space and the `0x` prefix of `parseInt` are not modelled.
- Network I/O, URL building and `response.json()`. Each payload is a parameter.
- The News API fallback of `getMarketNews` (lib/api.ts:304-329). It is a second
  fetch with no logic beyond a field mapping.
- Concurrency. `Promise.all` in `getTopStocks` is a sequential map.
- FinnhubApi.CandleWindow: one clock reading serves both defaults. The source
  reads `Date.now()` once for `from` and once for `to`, so across a second
  boundary its default window can be one second longer than 365 days.
- FinnhubApi.GetStockMetrics: when both requests fail, the model reports the
  quote's error. In the source, which rejection wins depends on timing.
- `Math.random` placeholders in the crypto views: ranks, the 1h/7d/30d changes
  and the all-time high and low.
- The chart generator's draws are parameters, with no distribution attached.
- Auth calls. The session lookup of the middleware is a boolean. The outcomes of
  the Supabase sign-up and OAuth calls are parameters, so email, names and the
  redirect URL are not modelled.
- React wiring: `useState` setters for the inputs, effects, `setTimeout`, and the
  `timeframe`/`chartType` selectors of the crypto chart. Sort-key and sort-order
  changes in the table are arguments of `SortedCryptos`.
- AdvancedChart.AdvancedChartState: annotations are never given a shape by the
  component, so a string stands for one, and nothing adds to the list. The
  unused `isDrawing` flag and `saveAnnotations`, which only logs, are not modelled.
- CryptoTable.SortedCryptos: proves an ordered permutation. It does not model the
  stability of `Array.prototype.sort`. Ties may come out in any order.
- CryptoNews.SimulatedNews: titles, summaries and URLs of the simulated items are not modelled.
