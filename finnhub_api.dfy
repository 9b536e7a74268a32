/** lib/finnhub-api.ts: the shaping of Finnhub payloads into quotes, candles,
    news, search hits, metrics and the market status. Each fetch is a
    parameter: `Ok(decoded JSON)` or `Err(message)` for a request that threw. */
module FinnhubApi {
  import opened Wrappers
  import opened Seqs
  import opened Text
  import Api

  /** CandleData has the same fields as ChartData of lib/api.ts. */
  type CandleData = Api.ChartData

  datatype StockQuote = StockQuote(
    symbol: string, current: real, change: real, changePercent: real,
    high: real, low: real, open: real, previousClose: real, timestamp: int)

  // ----------------------------------------------------------- getStockQuote

  /** Finnhub `/quote` body; `error` is present when the provider refuses the request. */
  datatype QuotePayload = QuotePayload(
    error: Option<string>, c: real, d: real, dp: real, h: real, l: real, o: real, pc: real, t: int)

  /** `if (data.error)`: a present, non-empty error string. */
  predicate HasError(p: QuotePayload)
  {
    p.error.Some? && p.error.value != ""
  }

  /** getStockQuote: a failed request or an error field is thrown; otherwise the eight
      quote fields are copied one-to-one under their long names. */
  function GetStockQuote(symbol: string, payload: Result<QuotePayload>): (r: Result<StockQuote>)
    ensures payload.Err? ==> r == Err(payload.message)
    ensures payload.Ok? && HasError(payload.value) ==> r == Err(payload.value.error.value)
    ensures r.Ok? <==> payload.Ok? && !HasError(payload.value)
    ensures r.Ok? ==>
      var p := payload.value;
      && r.value.symbol == symbol
      && r.value.current == p.c && r.value.change == p.d && r.value.changePercent == p.dp
      && r.value.high == p.h && r.value.low == p.l && r.value.open == p.o
      && r.value.previousClose == p.pc && r.value.timestamp == p.t
  {
    match payload
    case Err(m) => Err(m)
    case Ok(p) =>
      if HasError(p) then Err(p.error.value)
      else Ok(StockQuote(symbol, p.c, p.d, p.dp, p.h, p.l, p.o, p.pc, p.t))
  }

  // --------------------------------------------------------- getStockCandles

  const YearSeconds: int := 365 * 24 * 60 * 60

  /** The `from`/`to` window in seconds: a missing or zero bound falls back to one year
      ago and to now respectively (`Math.floor(Date.now() / 1000)`). */
  function CandleWindow(from: Option<int>, to: Option<int>, nowMillis: int): (w: (int, int))
    ensures from.Some? && from.value != 0 ==> w.0 == from.value
    ensures to.Some? && to.value != 0 ==> w.1 == to.value
    ensures (from.None? || from.value == 0) ==>
      (w.0 + YearSeconds) * 1000 <= nowMillis < (w.0 + YearSeconds) * 1000 + 1000
    ensures (to.None? || to.value == 0) ==> w.1 * 1000 <= nowMillis < w.1 * 1000 + 1000
    ensures (from.None? || from.value == 0) && (to.None? || to.value == 0) ==> w.1 - w.0 == YearSeconds
  {
    var nowSeconds := nowMillis / 1000;
    var fromTime := if from.Some? && from.value != 0 then from.value else nowSeconds - YearSeconds;
    var toTime := if to.Some? && to.value != 0 then to.value else nowSeconds;
    (fromTime, toTime)
  }

  /** Finnhub `/stock/candle` body: status s and the parallel arrays. */
  datatype CandlePayload = CandlePayload(
    s: string, t: seq<int>, o: seq<real>, h: seq<real>, l: seq<real>, c: seq<real>, v: seq<real>)

  /** Every parallel array covers every timestamp. */
  predicate Parallel(p: CandlePayload)
  {
    |p.o| >= |p.t| && |p.h| >= |p.t| && |p.l| >= |p.t| && |p.c| >= |p.t| && |p.v| >= |p.t|
  }

  const NoData := "No data available"

  /** getStockCandles: unless the status is "ok" the call throws; otherwise one candle per
      timestamp, in order, in milliseconds, with every field taken from the same index. */
  function GetStockCandles(payload: Result<CandlePayload>): (r: Result<seq<CandleData>>)
    requires payload.Ok? && payload.value.s == "ok" ==> Parallel(payload.value)
    ensures payload.Err? ==> r == Err(payload.message)
    ensures payload.Ok? && payload.value.s != "ok" ==> r == Err(NoData)
    ensures r.Ok? <==> payload.Ok? && payload.value.s == "ok"
    ensures r.Ok? ==>
      var p := payload.value;
      |r.value| == |p.t| &&
      forall i :: 0 <= i < |p.t| ==>
        r.value[i] == Api.ChartData(p.t[i] * 1000, p.o[i], p.h[i], p.l[i], p.c[i], p.v[i])
  {
    match payload
    case Err(m) => Err(m)
    case Ok(p) =>
      if p.s != "ok" then Err(NoData)
      else Ok(seq(|p.t|, i requires 0 <= i < |p.t| =>
        Api.ChartData(p.t[i] * 1000, p.o[i], p.h[i], p.l[i], p.c[i], p.v[i])))
  }

  /** Millisecond timestamps divide back to the provider's seconds, so candles from an
      ascending payload are ascending too. */
  lemma CandleTimestampsRoundTrip(p: CandlePayload, i: nat, j: nat)
    requires p.s == "ok" && Parallel(p)
    requires i < j < |p.t| && p.t[i] < p.t[j]
    ensures GetStockCandles(Ok(p)).Ok?
    ensures GetStockCandles(Ok(p)).value[i].timestamp / 1000 == p.t[i]
    ensures GetStockCandles(Ok(p)).value[i].timestamp < GetStockCandles(Ok(p)).value[j].timestamp
  {
  }

  // ------------------------------------------------------------ getStockNews

  /** One article of Finnhub `/company-news`. */
  datatype CompanyNews = CompanyNews(
    headline: string, summary: string, url: string, source: string,
    datetime: int, category: string, sentiment: Option<real>)

  datatype StockNews = StockNews(
    id: string, headline: string, summary: string, url: string, source: string,
    datetime: int, category: string, sentiment: real)

  /** The id of the news item at a position: "<symbol>-<position>". */
  function NewsId(symbol: string, index: nat): string
  {
    symbol + "-" + NatToDecimal(index)
  }

  /** getStockNews: at most the first ten articles, in order, with positional ids and a
      missing sentiment read as 0; a failed request gives []. */
  function GetStockNews(symbol: string, payload: Result<seq<CompanyNews>>): (r: seq<StockNews>)
    ensures payload.Err? ==> r == []
    ensures |r| <= 10
    ensures payload.Ok? ==>
      |r| == (if |payload.value| < 10 then |payload.value| else 10) &&
      forall k :: 0 <= k < |r| ==>
        && r[k].id == NewsId(symbol, k)
        && r[k].headline == payload.value[k].headline
        && r[k].sentiment == OrZero(payload.value[k].sentiment)
    ensures payload.Ok? ==> forall k :: 0 <= k < |r| ==>
      var a := payload.value[k];
      r[k] == StockNews(NewsId(symbol, k), a.headline, a.summary, a.url, a.source, a.datetime, a.category,
        OrZero(a.sentiment))
  {
    match payload
    case Err(_) => []
    case Ok(items) =>
      var kept := Take(items, 10);
      seq(|kept|, k requires 0 <= k < |kept| =>
        var a := kept[k];
        StockNews(NewsId(symbol, k), a.headline, a.summary, a.url, a.source, a.datetime, a.category,
          OrZero(a.sentiment)))
  }

  /** The positional ids of one symbol's news never collide. */
  lemma StockNewsIdsDistinct(symbol: string, payload: Result<seq<CompanyNews>>, k: nat, m: nat)
    requires k < m < |GetStockNews(symbol, payload)|
    ensures GetStockNews(symbol, payload)[k].id != GetStockNews(symbol, payload)[m].id
  {
    var r := GetStockNews(symbol, payload);
    var prefix := symbol + "-";
    if r[k].id == r[m].id {
      assert NewsId(symbol, k) == prefix + NatToDecimal(k);
      assert NewsId(symbol, m) == prefix + NatToDecimal(m);
      assert NatToDecimal(k) == (prefix + NatToDecimal(k))[|prefix|..];
      assert NatToDecimal(m) == (prefix + NatToDecimal(m))[|prefix|..];
      NatToDecimalInjective(k, m);
    }
  }

  // ------------------------------------------------------------ searchStocks

  datatype SearchItem = SearchItem(symbol: string, description: string, kind: string)
  /** Finnhub `/search` body; `result` may be absent. */
  datatype SearchPayload = SearchPayload(result: Option<seq<SearchItem>>)

  /** searchStocks: at most the first ten results, or [] when `result` is missing or the
      request failed. */
  function SearchStocks(payload: Result<SearchPayload>): (r: seq<SearchItem>)
    ensures |r| <= 10
    ensures payload.Err? || payload.value.result.None? ==> r == []
    ensures payload.Ok? && payload.value.result.Some? ==> r == Take(payload.value.result.value, 10)
  {
    if payload.Err? || payload.value.result.None? then []
    else Take(payload.value.result.value, 10)
  }

  // --------------------------------------------------------- getStockMetrics

  /** Finnhub `/stock/metric` `metric` object; every entry may be absent. */
  datatype Metric = Metric(
    peBasicExclExtraTTM: Option<real>, epsBasicExclExtraAnnual: Option<real>, beta: Option<real>,
    weekHigh52: Option<real>, weekLow52: Option<real>, marketCapitalization: Option<real>,
    dividendYieldIndicatedAnnual: Option<real>)

  /** Finnhub `/stock/metric` body; a missing `metric` makes the field reads throw. */
  datatype MetricsPayload = MetricsPayload(metric: Option<Metric>)

  datatype StockMetrics = StockMetrics(
    symbol: string, pe: real, eps: real, beta: real, week52High: real, week52Low: real,
    marketCap: real, dividendYield: real, rsi: real, sma20: real, sma50: real, sma200: real)

  const MissingMetric := "Cannot read properties of undefined"

  /** getStockMetrics: the quote and the metrics are requested together and a failure of
      either is thrown (the quote's first); missing metrics read as 0 and the technical
      indicators are always 0. */
  function GetStockMetrics(symbol: string, quote: Result<QuotePayload>, metrics: Result<MetricsPayload>): (r: Result<StockMetrics>)
    ensures r.Ok? <==> GetStockQuote(symbol, quote).Ok? && metrics.Ok? && metrics.value.metric.Some?
    ensures r.Ok? ==>
      var m := metrics.value.metric.value;
      && r.value.symbol == symbol
      && r.value.pe == OrZero(m.peBasicExclExtraTTM) && r.value.eps == OrZero(m.epsBasicExclExtraAnnual)
      && r.value.beta == OrZero(m.beta) && r.value.week52High == OrZero(m.weekHigh52)
      && r.value.week52Low == OrZero(m.weekLow52) && r.value.marketCap == OrZero(m.marketCapitalization)
      && r.value.dividendYield == OrZero(m.dividendYieldIndicatedAnnual)
      && r.value.rsi == 0.0 && r.value.sma20 == 0.0 && r.value.sma50 == 0.0 && r.value.sma200 == 0.0
  {
    var q := GetStockQuote(symbol, quote);
    if q.Err? then Err(q.message)
    else if metrics.Err? then Err(metrics.message)
    else if metrics.value.metric.None? then Err(MissingMetric)
    else
      var m := metrics.value.metric.value;
      Ok(StockMetrics(symbol, OrZero(m.peBasicExclExtraTTM), OrZero(m.epsBasicExclExtraAnnual),
        OrZero(m.beta), OrZero(m.weekHigh52), OrZero(m.weekLow52), OrZero(m.marketCapitalization),
        OrZero(m.dividendYieldIndicatedAnnual), 0.0, 0.0, 0.0, 0.0))
  }

  /** A metric object with every entry missing yields all-zero metrics. */
  lemma EmptyMetricsAreZero(symbol: string, quote: Result<QuotePayload>)
    requires GetStockQuote(symbol, quote).Ok?
    ensures var r := GetStockMetrics(symbol, quote, Ok(MetricsPayload(Some(Metric(None, None, None, None, None, None, None)))));
      r == Ok(StockMetrics(symbol, 0.0, 0.0, 0.0, 0.0, 0.0, 0.0, 0.0, 0.0, 0.0, 0.0, 0.0))
  {
  }

  // --------------------------------------------------------- getMarketStatus

  datatype MarketStatus = MarketStatus(isOpen: bool, session: string)

  const ClosedStatus := MarketStatus(false, "closed")

  /** getMarketStatus: the provider's status, or "closed" when the request failed. */
  function GetMarketStatus(payload: Result<MarketStatus>): (r: MarketStatus)
    ensures payload.Err? ==> r == ClosedStatus && !r.isOpen
    ensures payload.Ok? ==> r == payload.value
  {
    match payload
    case Err(_) => ClosedStatus
    case Ok(status) => status
  }
}
