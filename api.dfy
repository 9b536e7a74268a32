/** lib/api.ts: the parts of the market-data client that turn decoded
    provider payloads into ChartData, StockData, CryptoData and NewsItem
    records. Every fetch is abstracted into a parameter: a payload is
    `Ok(decoded JSON)` or `Err(message)` for a request that threw. */
module Api {
  import opened Wrappers
  import opened Seqs
  import opened Text

  // ---------------------------------------------------------------- records

  /** One OHLCV bar; the timestamp is in epoch milliseconds. */
  datatype ChartData = ChartData(timestamp: int, open: real, high: real, low: real, close: real, volume: real)

  datatype StockData = StockData(
    symbol: string, name: string,
    price: real, change: real, changePercent: real, volume: real, marketCap: real,
    high52Week: real, low52Week: real, pe: real, eps: real, dividend: real, beta: real,
    openPrice: Option<real>, previousClose: Option<real>,
    ipo: Option<string>, logo: Option<string>, weburl: Option<string>, country: Option<string>,
    currency: Option<string>, exchange: Option<string>, industry: Option<string>, sector: Option<string>)

  datatype CryptoData = CryptoData(
    id: string, symbol: string, name: string,
    price: real, change24h: real, changePercent24h: real, volume24h: real, marketCap: real,
    high24h: real, low24h: real, circulatingSupply: real, totalSupply: real)

  /** A news item; `publishedAtMillis` is the instant that the source renders with toISOString. */
  datatype NewsItem = NewsItem(
    id: string, title: string, description: string, url: string, source: string,
    publishedAtMillis: int, category: string,
    image: Option<string>, summary: string, related: Option<string>)

  // --------------------------------------------------------------- payloads

  /** Finnhub `/quote`: current price c, change d, percent dp, day high/low, open, previous close. */
  datatype Quote = Quote(c: real, d: real, dp: real, h: real, l: real, o: real, pc: real)

  /** Finnhub `/stock/profile2`; every field may be absent. */
  datatype Profile = Profile(
    name: Option<string>, marketCapitalization: Option<real>,
    ipo: Option<string>, logo: Option<string>, weburl: Option<string>, country: Option<string>,
    currency: Option<string>, exchange: Option<string>, finnhubIndustry: Option<string>, gind: Option<string>)

  // ----------------------------------------------------------- getStockData

  const StockNotFound := "Stock not found or market closed"

  /** getStockData: the quote is fetched first, then the profile; a failure of either
      is re-thrown, and a zero current price is the provider's "not found" sentinel. */
  function GetStockData(symbol: string, quote: Result<Quote>, profile: Result<Profile>): (r: Result<StockData>)
    ensures r.Ok? <==> quote.Ok? && profile.Ok? && quote.value.c != 0.0
    ensures quote.Err? ==> r == Err(quote.message)
    ensures quote.Ok? && profile.Err? ==> r == Err(profile.message)
    ensures quote.Ok? && profile.Ok? && quote.value.c == 0.0 ==> r == Err(StockNotFound)
    ensures r.Ok? ==>
      && r.value.symbol == ToUpper(symbol)
      && NoLowerCase(r.value.symbol)
      && r.value.price == quote.value.c && r.value.price != 0.0
      && r.value.name == OrString(profile.value.name, symbol)
      && r.value.marketCap == OrZero(profile.value.marketCapitalization)
      && r.value.volume == 0.0 && r.value.pe == 0.0 && r.value.eps == 0.0
      && r.value.dividend == 0.0 && r.value.beta == 0.0
    ensures r.Ok? ==>
      && r.value.change == quote.value.d && r.value.changePercent == quote.value.dp
      && r.value.high52Week == quote.value.h && r.value.low52Week == quote.value.l
      && r.value.openPrice == Some(quote.value.o) && r.value.previousClose == Some(quote.value.pc)
    ensures r.Ok? ==>
      && r.value.ipo == profile.value.ipo && r.value.logo == profile.value.logo
      && r.value.weburl == profile.value.weburl && r.value.country == profile.value.country
      && r.value.currency == profile.value.currency && r.value.exchange == profile.value.exchange
      && r.value.industry == profile.value.finnhubIndustry && r.value.sector == profile.value.gind
  {
    if quote.Err? then Err(quote.message)
    else if profile.Err? then Err(profile.message)
    else if quote.value.c == 0.0 then Err(StockNotFound)
    else
      var q, p := quote.value, profile.value;
      UpperOfUpper(symbol);
      Ok(StockData(
        ToUpper(symbol), OrString(p.name, symbol),
        q.c, q.d, q.dp, 0.0, OrZero(p.marketCapitalization),
        q.h, q.l, 0.0, 0.0, 0.0, 0.0,
        Some(q.o), Some(q.pc),
        p.ipo, p.logo, p.weburl, p.country, p.currency, p.exchange, p.finnhubIndustry, p.gind))
  }

  // ---------------------------------------------------------- getStockChart

  const DayMillis: int := 24 * 60 * 60 * 1000

  /** Number of simulated bars: 30 for "daily", 96 for intraday ("…min") intervals, 7 otherwise. */
  function DataPoints(interval: string): (n: nat)
    ensures n == 30 || n == 96 || n == 7
    ensures interval == "daily" <==> n == 30
    ensures n == 96 <==> interval != "daily" && Contains(interval, "min")
    ensures n == 7 <==> interval != "daily" && !Contains(interval, "min")
  {
    if interval == "daily" then 30 else if Contains(interval, "min") then 96 else 7
  }

  /** Spacing of the simulated bars in milliseconds: a day, or `parseInt(interval)` minutes
      for intraday intervals; None where parseInt yields NaN. */
  function TimeStep(interval: string): (step: Option<int>)
    ensures !Contains(interval, "min") || interval == "daily" ==> step == Some(DayMillis)
    ensures interval != "daily" && Contains(interval, "min") ==>
      && (step.Some? <==> LeadingInt(interval).Some?)
      && (step.Some? ==> step.value == LeadingInt(interval).value * 60000)
  {
    if interval == "daily" then Some(DayMillis)
    else if Contains(interval, "min") then
      match LeadingInt(interval)
      case Some(m) => Some(m * 60 * 1000)
      case None => None
    else Some(DayMillis)
  }

  /** The Math.random() values one simulated bar draws, each in [0, 1).
      The close draw is not taken for the newest bar, whose close is the quote. */
  datatype Draws = Draws(variation: real, open: real, close: real, high: real, low: real, volume: real)

  predicate UnitDraws(d: Draws)
  {
    && 0.0 <= d.variation < 1.0 && 0.0 <= d.open < 1.0 && 0.0 <= d.close < 1.0
    && 0.0 <= d.high < 1.0 && 0.0 <= d.low < 1.0 && 0.0 <= d.volume < 1.0
  }

  function MaxReal(a: real, b: real): real { if a >= b then a else b }
  function MinReal(a: real, b: real): real { if a <= b then a else b }

  /** Price shape of a simulated bar: positive prices, the high at or above and the low
      at or below both open and close. */
  predicate WellShaped(b: ChartData)
  {
    0.0 < b.low <= MinReal(b.open, b.close) && MaxReal(b.open, b.close) <= b.high
  }

  /** Volume `Math.floor(r * 10000000) + 1000000`: a whole number in [1000000, 11000000). */
  predicate SimulatedVolume(b: ChartData)
  {
    1000000.0 <= b.volume < 11000000.0 && b.volume == b.volume.Floor as real
  }

  /** The base price of the bar i steps before the newest: the price drifted by up to ±5%,
      scaled by how old the bar is. */
  function BasePrice(price: real, d: Draws, i: nat, dataPoints: nat): (base: real)
    requires i < dataPoints && UnitDraws(d)
    ensures price > 0.0 ==> base > 0.0
  {
    var variation := (d.variation - 0.5) * 0.1;
    var age := i as real / dataPoints as real;
    DriftPositive(variation, age);
    if price > 0.0 then MulPositive(price, 1.0 + variation * age); price * (1.0 + variation * age)
    else price * (1.0 + variation * age)
  }

  /** A price moved by up to ±1% (2% volatility around the draw 0.5). */
  function Jitter(x: real, r: real): (y: real)
    requires 0.0 <= r < 1.0
    ensures x > 0.0 ==> y > 0.0
  {
    if x > 0.0 then MulPositive(x, 1.0 + (r - 0.5) * 0.02); x * (1.0 + (r - 0.5) * 0.02)
    else x * (1.0 + (r - 0.5) * 0.02)
  }

  /** The loop body of getStockChart for countdown index i (i = 0 is the newest bar). */
  function SimulatedBar(price: real, i: nat, dataPoints: nat, timeStep: int, now: int, d: Draws): (b: ChartData)
    requires i < dataPoints && UnitDraws(d)
    ensures b.timestamp == now - i * timeStep
    ensures i == 0 ==> b.close == price
    ensures SimulatedVolume(b)
    ensures price > 0.0 ==> WellShaped(b)
  {
    var basePrice := BasePrice(price, d, i, dataPoints);
    var open := Jitter(basePrice, d.open);
    var close := if i == 0 then price else Jitter(basePrice, d.close);
    var high := MaxReal(open, close) * (1.0 + d.high * 0.02);
    var low := MinReal(open, close) * (1.0 - d.low * 0.02);
    var volume := (d.volume * 10000000.0).Floor + 1000000;
    VolumeDrawRange(d.volume);
    if price > 0.0 then
      WidenedBarShape(now - i * timeStep, open, close, d.high, d.low, volume as real);
      ChartData(now - i * timeStep, open, high, low, close, volume as real)
    else
      ChartData(now - i * timeStep, open, high, low, close, volume as real)
  }

  /** getStockChart: a simulated history built from the current quote. Bars are emitted
      oldest first; `draws[k]` are the random values drawn for the k-th emitted bar. */
  method GetStockChart(quote: Result<Quote>, interval: string, now: int, draws: seq<Draws>)
    returns (chart: seq<ChartData>)
    requires TimeStep(interval).Some?
    requires |draws| == DataPoints(interval)
    requires forall k :: 0 <= k < |draws| ==> UnitDraws(draws[k])
    ensures quote.Err? || quote.value.c == 0.0 ==> chart == []
    ensures quote.Ok? && quote.value.c != 0.0 ==>
      && |chart| == DataPoints(interval)
      && chart[|chart| - 1].close == quote.value.c
      && chart[|chart| - 1].timestamp == now
      && (forall k :: 0 <= k < |chart| ==>
            chart[k].timestamp == now - (|chart| - 1 - k) * TimeStep(interval).value)
      && (forall k :: 0 <= k < |chart| ==>
            chart[k] == SimulatedBar(quote.value.c, |chart| - 1 - k, |chart|, TimeStep(interval).value, now, draws[k]))
    ensures TimeStep(interval).value > 0 ==>
      forall k, m :: 0 <= k < m < |chart| ==> chart[k].timestamp < chart[m].timestamp
    ensures forall k :: 0 <= k < |chart| ==> SimulatedVolume(chart[k])
    ensures quote.Ok? && quote.value.c > 0.0 ==> forall k :: 0 <= k < |chart| ==> WellShaped(chart[k])
  {
    if quote.Err? || quote.value.c == 0.0 {
      return [];
    }
    var currentPrice := quote.value.c;
    var dataPoints := DataPoints(interval);
    var timeStep := TimeStep(interval).value;
    chart := [];
    var i := dataPoints - 1;
    while i >= 0
      invariant -1 <= i < dataPoints
      invariant |chart| == dataPoints - 1 - i
      invariant forall k :: 0 <= k < |chart| ==> chart[k].timestamp == now - (dataPoints - 1 - k) * timeStep
      invariant forall k :: 0 <= k < |chart| ==>
        chart[k] == SimulatedBar(currentPrice, dataPoints - 1 - k, dataPoints, timeStep, now, draws[k])
      invariant forall k :: 0 <= k < |chart| ==> SimulatedVolume(chart[k])
      invariant currentPrice > 0.0 ==> forall k :: 0 <= k < |chart| ==> WellShaped(chart[k])
      invariant i == -1 ==> chart[|chart| - 1].close == currentPrice
    {
      chart := chart + [SimulatedBar(currentPrice, i, dataPoints, timeStep, now, draws[dataPoints - 1 - i])];
      i := i - 1;
    }
    if timeStep > 0 {
      forall k, m | 0 <= k < m < |chart|
        ensures chart[k].timestamp < chart[m].timestamp
      {
        StepOrder(now, dataPoints - 1 - k, dataPoints - 1 - m, timeStep);
      }
    }
  }

  lemma StepOrder(now: int, a: int, b: int, step: int)
    requires a > b && step > 0
    ensures now - a * step < now - b * step
  {
    assert a * step - b * step == (a - b) * step;
  }

  /** Math.floor(r * 10000000) + 1000000 lies in [1000000, 11000000) for r in [0, 1). */
  lemma VolumeDrawRange(r: real)
    requires 0.0 <= r < 1.0
    ensures 1000000 <= (r * 10000000.0).Floor + 1000000 < 11000000
  {
    var x := r * 10000000.0;
    assert 0.0 <= x < 10000000.0;
  }

  lemma MulPositive(a: real, b: real)
    requires a > 0.0 && b > 0.0
    ensures a * b > 0.0
  {
  }

  lemma MulAtLeast(a: real, f: real)
    requires a > 0.0 && f >= 1.0
    ensures a * f >= a
  {
    assert a * f - a == a * (f - 1.0);
  }

  lemma MulAtMost(a: real, f: real)
    requires a > 0.0 && 0.0 < f <= 1.0
    ensures 0.0 < a * f <= a
  {
    assert a - a * f == a * (1.0 - f);
  }

  /** The drift factor `1 + variation * (i / dataPoints)` of a simulated bar is positive. */
  lemma DriftPositive(variation: real, age: real)
    requires -0.05 <= variation < 0.05 && 0.0 <= age < 1.0
    ensures 1.0 + variation * age > 0.0
  {
    if variation < 0.0 {
      assert variation * age >= variation * 1.0 by {
        assert variation * 1.0 - variation * age == variation * (1.0 - age);
        MulPositive(-variation, 1.0 - age);
      }
    } else {
      assert variation * age >= 0.0;
    }
  }

  /** Widening a positive open/close pair by the high and low draws gives a well-shaped bar. */
  lemma WidenedBarShape(t: int, open: real, close: real, dh: real, dl: real, v: real)
    requires open > 0.0 && close > 0.0 && 0.0 <= dh < 1.0 && 0.0 <= dl < 1.0
    ensures WellShaped(ChartData(t, open, MaxReal(open, close) * (1.0 + dh * 0.02),
                                 MinReal(open, close) * (1.0 - dl * 0.02), close, v))
  {
    MulAtLeast(MaxReal(open, close), 1.0 + dh * 0.02);
    MulAtMost(MinReal(open, close), 1.0 - dl * 0.02);
  }

  // --------------------------------------------------------- getCryptoChart

  /** One CoinGecko `/ohlc` tuple [time, open, high, low, close]. */
  datatype Ohlc = Ohlc(t: int, o: real, h: real, l: real, c: real)

  /** getCryptoChart: each tuple becomes one bar, in order, with volume 0 (the OHLC
      endpoint carries none); a failed request is re-thrown. */
  function GetCryptoChart(payload: Result<seq<Ohlc>>): (r: Result<seq<ChartData>>)
    ensures payload.Err? ==> r == Err(payload.message)
    ensures payload.Ok? ==> r.Ok? && |r.value| == |payload.value|
    ensures payload.Ok? ==> forall k :: 0 <= k < |r.value| ==> r.value[k].volume == 0.0
  {
    match payload
    case Err(m) => Err(m)
    case Ok(tuples) =>
      Ok(seq(|tuples|, k requires 0 <= k < |tuples| =>
        ChartData(tuples[k].t, tuples[k].o, tuples[k].h, tuples[k].l, tuples[k].c, 0.0)))
  }

  function ToOhlc(bars: seq<ChartData>): seq<Ohlc>
  {
    seq(|bars|, k requires 0 <= k < |bars| =>
      Ohlc(bars[k].timestamp, bars[k].open, bars[k].high, bars[k].low, bars[k].close))
  }

  /** Nothing of a tuple is lost or reordered: projecting the bars back gives the payload. */
  lemma CryptoChartRoundTrip(tuples: seq<Ohlc>)
    ensures GetCryptoChart(Ok(tuples)).Ok?
    ensures ToOhlc(GetCryptoChart(Ok(tuples)).value) == tuples
  {
  }

  // ------------------------------------------------------------ getTopStocks

  const TopSymbols: seq<string> := ["AAPL", "MSFT", "GOOGL", "AMZN", "TSLA", "META", "NVDA", "NFLX", "ORCL", "CRM"]

  predicate Succeeded(r: Result<StockData>) { r.Ok? }

  /** The records of the successful outcomes, in order. */
  function Successes(outcomes: seq<Result<StockData>>): (r: seq<StockData>)
    ensures |r| == |Filter(outcomes, Succeeded)|
    ensures forall k :: 0 <= k < |r| ==> Ok(r[k]) == Filter(outcomes, Succeeded)[k]
  {
    var kept := Filter(outcomes, Succeeded);
    seq(|kept|, k requires 0 <= k < |kept| => kept[k].value)
  }

  /** getTopStocks: getStockData for each of the ten symbols (one quote and one profile
      payload per symbol); the failures are dropped. */
  function GetTopStocks(quotes: seq<Result<Quote>>, profiles: seq<Result<Profile>>): (r: seq<StockData>)
    requires |quotes| == |TopSymbols| && |profiles| == |TopSymbols|
    ensures |r| <= |TopSymbols|
  {
    Successes(seq(|TopSymbols|, k requires 0 <= k < |TopSymbols| => GetStockData(TopSymbols[k], quotes[k], profiles[k])))
  }

  /** The surviving records keep the order of the symbol list: the k-th result is the
      record of symbol `TopSymbols[ix[k]]` for increasing positions ix, every symbol whose
      fetch succeeded is among them, and when every fetch succeeds all ten are returned. */
  lemma TopStocksInSymbolOrder(quotes: seq<Result<Quote>>, profiles: seq<Result<Profile>>) returns (ix: seq<nat>)
    requires |quotes| == |TopSymbols| && |profiles| == |TopSymbols|
    ensures |ix| == |GetTopStocks(quotes, profiles)|
    ensures forall k :: 0 <= k < |ix| ==>
      && ix[k] < |TopSymbols|
      && GetTopStocks(quotes, profiles)[k].symbol == TopSymbols[ix[k]]
      && GetStockData(TopSymbols[ix[k]], quotes[ix[k]], profiles[ix[k]]) == Ok(GetTopStocks(quotes, profiles)[k])
    ensures forall k, m :: 0 <= k < m < |ix| ==> ix[k] < ix[m]
    ensures forall j :: 0 <= j < |TopSymbols| && quotes[j].Ok? && profiles[j].Ok? && quotes[j].value.c != 0.0 ==> j in ix
    ensures (forall j :: 0 <= j < |TopSymbols| ==> quotes[j].Ok? && profiles[j].Ok? && quotes[j].value.c != 0.0)
      ==> |GetTopStocks(quotes, profiles)| == |TopSymbols|
  {
    var outcomes := seq(|TopSymbols|, k requires 0 <= k < |TopSymbols| => GetStockData(TopSymbols[k], quotes[k], profiles[k]));
    var r := GetTopStocks(quotes, profiles);
    assert r == Successes(outcomes);
    FilterKeepsOrder(outcomes, Succeeded);
    ix := KeptIndices(outcomes, Succeeded);
    forall k | 0 <= k < |ix|
      ensures ix[k] < |TopSymbols| && r[k].symbol == TopSymbols[ix[k]]
      ensures GetStockData(TopSymbols[ix[k]], quotes[ix[k]], profiles[ix[k]]) == Ok(r[k])
    {
      var j := ix[k];
      assert outcomes[j] == Ok(r[k]);
      TopSymbolsUpper(j);
    }
    forall j | 0 <= j < |TopSymbols| && quotes[j].Ok? && profiles[j].Ok? && quotes[j].value.c != 0.0
      ensures j in ix
    {
      assert Succeeded(outcomes[j]);
    }
    if forall j :: 0 <= j < |TopSymbols| ==> quotes[j].Ok? && profiles[j].Ok? && quotes[j].value.c != 0.0 {
      forall j | 0 <= j < |outcomes| ensures Succeeded(outcomes[j]) {
        assert quotes[j].Ok? && profiles[j].Ok? && quotes[j].value.c != 0.0;
      }
      FilterAllKept(outcomes, Succeeded);
    }
  }

  lemma TopSymbolsUpper(j: nat)
    requires j < |TopSymbols|
    ensures ToUpper(TopSymbols[j]) == TopSymbols[j]
  {
    UpperOfUpper(TopSymbols[j]);
  }

  // ----------------------------------------------------------- getMarketNews

  /** One article of Finnhub `/news`. */
  datatype FinnhubArticle = FinnhubArticle(
    id: Option<int>, headline: string, summary: string, url: string, source: string,
    datetime: int, category: Option<string>, image: Option<string>, related: Option<string>)

  /** The id of the article at a given position: its own id rendered in decimal,
      or the position when it has none. */
  function ArticleId(a: FinnhubArticle, index: nat): string
  {
    if a.id.Some? then IntToDecimal(a.id.value) else NatToDecimal(index)
  }

  /** getMarketNews over a Finnhub payload: at most the first 20 articles, in order. */
  function GetMarketNews(articles: seq<FinnhubArticle>): (r: seq<NewsItem>)
    ensures |r| == if |articles| < 20 then |articles| else 20
    ensures forall k :: 0 <= k < |r| ==>
      && r[k].id == ArticleId(articles[k], k)
      && r[k].title == articles[k].headline
      && r[k].publishedAtMillis == articles[k].datetime * 1000
      && r[k].category == OrString(articles[k].category, "general")
      && r[k].category != ""
    ensures forall k :: 0 <= k < |r| ==>
      && r[k].description == articles[k].summary && r[k].summary == articles[k].summary
      && r[k].url == articles[k].url && r[k].source == articles[k].source
      && r[k].image == articles[k].image && r[k].related == articles[k].related
  {
    var kept := Take(articles, 20);
    seq(|kept|, k requires 0 <= k < |kept| =>
      var a := kept[k];
      NewsItem(ArticleId(a, k), a.headline, a.summary, a.url, a.source, a.datetime * 1000,
        OrString(a.category, "general"), a.image, a.summary, a.related))
  }

  /** Articles without their own id get pairwise distinct ids from their positions. */
  lemma MarketNewsIndexIdsDistinct(articles: seq<FinnhubArticle>, k: nat, m: nat)
    requires k < m < |GetMarketNews(articles)|
    requires articles[k].id.None? && articles[m].id.None?
    ensures GetMarketNews(articles)[k].id != GetMarketNews(articles)[m].id
  {
    if NatToDecimal(k) == NatToDecimal(m) {
      NatToDecimalInjective(k, m);
    }
  }

  // ------------------------------------------------------------- searchAssets

  /** One match of Finnhub `/search`. */
  datatype SymbolMatch = SymbolMatch(symbol: string, description: string, displaySymbol: string)
  /** Finnhub `/search` response; `result` may be absent. */
  datatype SymbolSearch = SymbolSearch(result: Option<seq<SymbolMatch>>)
  /** One coin of CoinGecko `/search`. */
  datatype CoinMatch = CoinMatch(id: string, symbol: string, name: string)
  /** CoinGecko `/search` response; `coins` may be absent. */
  datatype CoinSearch = CoinSearch(coins: Option<seq<CoinMatch>>)

  datatype SearchResults = SearchResults(stocks: seq<StockData>, cryptos: seq<CryptoData>)

  /** A search hit as a stock record: symbol, description as the name and the display
      symbol as the exchange; every figure 0 and every other optional field absent. */
  function StockFromMatch(m: SymbolMatch): (s: StockData)
    ensures s.symbol == m.symbol && s.name == m.description && s.exchange == Some(m.displaySymbol)
    ensures s.price == s.change == s.changePercent == s.volume == s.marketCap == 0.0
    ensures s.high52Week == s.low52Week == s.pe == s.eps == s.dividend == s.beta == 0.0
    ensures s.openPrice.None? && s.previousClose.None?
    ensures s.ipo.None? && s.logo.None? && s.weburl.None? && s.country.None? && s.currency.None?
    ensures s.industry.None? && s.sector.None?
  {
    StockData(m.symbol, m.description, 0.0, 0.0, 0.0, 0.0, 0.0, 0.0, 0.0, 0.0, 0.0, 0.0, 0.0,
      None, None, None, None, None, None, None, Some(m.displaySymbol), None, None)
  }

  /** A coin hit as a crypto record: id, upper-cased symbol and name; every figure 0. */
  function CryptoFromMatch(c: CoinMatch): (x: CryptoData)
    ensures x.id == c.id && x.symbol == ToUpper(c.symbol) && x.name == c.name
    ensures x.price == x.change24h == x.changePercent24h == x.volume24h == x.marketCap == 0.0
    ensures x.high24h == x.low24h == x.circulatingSupply == x.totalSupply == 0.0
  {
    CryptoData(c.id, ToUpper(c.symbol), c.name, 0.0, 0.0, 0.0, 0.0, 0.0, 0.0, 0.0, 0.0, 0.0)
  }

  /** searchAssets: the stock search is requested first, then the coin search; any failure
      gives two empty lists; otherwise at most ten of each, in order, with zero prices. */
  function SearchAssets(stockPayload: Result<SymbolSearch>, coinPayload: Result<CoinSearch>): (r: SearchResults)
    ensures |r.stocks| <= 10 && |r.cryptos| <= 10
    ensures stockPayload.Err? || coinPayload.Err? ==> r == SearchResults([], [])
    ensures stockPayload.Ok? && coinPayload.Ok? ==>
      && (stockPayload.value.result.None? ==> r.stocks == [])
      && (coinPayload.value.coins.None? ==> r.cryptos == [])
      && (stockPayload.value.result.Some? ==>
            var ms := stockPayload.value.result.value;
            |r.stocks| == (if |ms| < 10 then |ms| else 10)
            && forall k :: 0 <= k < |r.stocks| ==>
                 r.stocks[k].symbol == ms[k].symbol && r.stocks[k].name == ms[k].description
                 && r.stocks[k].price == 0.0 && r.stocks[k].exchange == Some(ms[k].displaySymbol)
                 && r.stocks[k] == StockFromMatch(ms[k]))
      && (coinPayload.value.coins.Some? ==>
            var cs := coinPayload.value.coins.value;
            |r.cryptos| == (if |cs| < 10 then |cs| else 10)
            && forall k :: 0 <= k < |r.cryptos| ==>
                 r.cryptos[k].id == cs[k].id && r.cryptos[k].symbol == ToUpper(cs[k].symbol)
                 && r.cryptos[k].price == 0.0
                 && r.cryptos[k] == CryptoFromMatch(cs[k]))
  {
    if stockPayload.Err? || coinPayload.Err? then SearchResults([], [])
    else
      var stocks := match stockPayload.value.result
        case None => []
        case Some(ms) => var t := Take(ms, 10); seq(|t|, k requires 0 <= k < |t| => StockFromMatch(t[k]));
      var cryptos := match coinPayload.value.coins
        case None => []
        case Some(cs) => var t := Take(cs, 10); seq(|t|, k requires 0 <= k < |t| => CryptoFromMatch(t[k]));
      SearchResults(stocks, cryptos)
  }

  // -------------------------------------------------- getStockChartFromYahoo

  /** Yahoo `chart.result[0]`: timestamps in seconds and the parallel quote arrays,
      whose entries may be null and which may be shorter than the timestamps. */
  datatype YahooChart = YahooChart(
    timestamps: seq<int>,
    open: seq<Option<real>>, high: seq<Option<real>>, low: seq<Option<real>>,
    close: seq<Option<real>>, volume: seq<Option<real>>)

  /** `arr[i] || 0`. */
  function ValueAt(arr: seq<Option<real>>, i: nat): (v: real)
    ensures (i < |arr| && arr[i].Some?) ==> v == arr[i].value
    ensures !(i < |arr| && arr[i].Some?) ==> v == 0.0
  {
    if i < |arr| && arr[i].Some? then arr[i].value else 0.0
  }

  /** Every timestamp becomes a bar (seconds to milliseconds, missing numbers to 0). */
  function YahooBars(y: YahooChart): (bars: seq<ChartData>)
    ensures |bars| == |y.timestamps|
    ensures forall i :: 0 <= i < |bars| ==>
      bars[i] == ChartData(y.timestamps[i] * 1000, ValueAt(y.open, i), ValueAt(y.high, i),
                           ValueAt(y.low, i), ValueAt(y.close, i), ValueAt(y.volume, i))
  {
    seq(|y.timestamps|, i requires 0 <= i < |y.timestamps| =>
      ChartData(y.timestamps[i] * 1000, ValueAt(y.open, i), ValueAt(y.high, i),
                ValueAt(y.low, i), ValueAt(y.close, i), ValueAt(y.volume, i)))
  }

  predicate PositiveClose(b: ChartData) { b.close > 0.0 }

  /** getStockChartFromYahoo: no `chart.result[0]` (or any failure) gives []; otherwise the
      bars whose close is positive. */
  function GetStockChartFromYahoo(payload: Option<YahooChart>): (r: seq<ChartData>)
    ensures payload.None? ==> r == []
    ensures payload.Some? ==> |r| <= |payload.value.timestamps|
    ensures forall k :: 0 <= k < |r| ==> r[k].close > 0.0 && r[k].timestamp % 1000 == 0
  {
    match payload
    case None => []
    case Some(y) => Filter(YahooBars(y), PositiveClose)
  }

  /** The kept bars are those with a positive close, in the order of their timestamps'
      positions, each built from the same index of every parallel array. */
  lemma YahooKeepsOrder(y: YahooChart) returns (ix: seq<nat>)
    ensures |ix| == |GetStockChartFromYahoo(Some(y))|
    ensures forall k :: 0 <= k < |ix| ==>
      && ix[k] < |y.timestamps|
      && GetStockChartFromYahoo(Some(y))[k].timestamp == y.timestamps[ix[k]] * 1000
      && GetStockChartFromYahoo(Some(y))[k].close == ValueAt(y.close, ix[k])
      && GetStockChartFromYahoo(Some(y))[k] == YahooBars(y)[ix[k]]
    ensures forall k, m :: 0 <= k < m < |ix| ==> ix[k] < ix[m]
    ensures forall i :: 0 <= i < |y.timestamps| && ValueAt(y.close, i) > 0.0 ==> i in ix
  {
    var bars := YahooBars(y);
    FilterKeepsOrder(bars, PositiveClose);
    ix := KeptIndices(bars, PositiveClose);
    forall i | 0 <= i < |y.timestamps| && ValueAt(y.close, i) > 0.0
      ensures i in ix
    {
      assert PositiveClose(bars[i]);
    }
  }
}
