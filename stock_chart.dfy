/** components/stocks/stock-chart.tsx: the null-padded moving average, the
    padded y-axis domain, the geometry of a hand-drawn candlestick and the
    colour rule shared by candles and volume bars. */
module StockChart {
  import opened Wrappers
  import opened Seqs
  import opened Api

  function Closes(data: seq<ChartData>): (c: seq<real>)
    ensures |c| == |data|
    ensures forall i :: 0 <= i < |data| ==> c[i] == data[i].close
  {
    seq(|data|, i requires 0 <= i < |data| => data[i].close)
  }

  // ------------------------------------------------------------ calculateMA

  /** calculateMA: one entry per bar; null (None) until `period` closes are available,
      then the sum of the `period` closes ending at that bar divided by `period`. */
  function CalculateMA(data: seq<ChartData>, period: nat): (ma: seq<Option<real>>)
    requires period >= 1
    ensures |ma| == |data|
    ensures forall i :: 0 <= i < |data| ==> (ma[i].None? <==> i < period - 1)
    ensures |data| < period ==> forall i :: 0 <= i < |ma| ==> ma[i].None?
  {
    seq(|data|, i requires 0 <= i < |data| =>
      if i < period - 1 then None
      else Some(Sum(Closes(data)[i - period + 1 .. i + 1]) / period as real))
  }

  /** A defined moving-average entry is the mean of the `period` closes ending at its bar,
      and therefore lies between the lowest and the highest of those closes. */
  lemma MAIsWindowMean(data: seq<ChartData>, period: nat, i: nat)
    requires period >= 1 && period - 1 <= i < |data|
    ensures var window := Closes(data)[i - period + 1 .. i + 1];
      && CalculateMA(data, period)[i] == Some(Mean(window))
      && MinOf(window) <= CalculateMA(data, period)[i].value <= MaxOf(window)
  {
    var window := Closes(data)[i - period + 1 .. i + 1];
    assert |window| == period;
    MeanBetween(window, MinOf(window), MaxOf(window));
  }

  /** Over a flat stretch of `period` equal closes the moving average is that close. */
  lemma MAOfFlatWindow(data: seq<ChartData>, period: nat, i: nat, c: real)
    requires period >= 1 && period - 1 <= i < |data|
    requires forall j :: i - period + 1 <= j <= i ==> data[j].close == c
    ensures CalculateMA(data, period)[i] == Some(c)
  {
    var window := Closes(data)[i - period + 1 .. i + 1];
    assert forall j :: 0 <= j < |window| ==> window[j] == data[i - period + 1 + j].close;
    MeanBetween(window, c, c);
  }

  /** The chart's two overlays: with 30 bars ma20 is defined from bar 19 on and ma50 nowhere. */
  lemma MovingAveragesOverThirtyBars(data: seq<ChartData>)
    requires |data| == 30
    ensures forall i :: 0 <= i < 30 ==> (CalculateMA(data, 20)[i].Some? <==> i >= 19)
    ensures forall i :: 0 <= i < 30 ==> CalculateMA(data, 50)[i].None?
  {
  }

  // ------------------------------------------------------------ y-axis domain

  /** `data.flatMap(d => [d.open, d.close, d.high, d.low])`. */
  function AllPrices(data: seq<ChartData>): (p: seq<real>)
    ensures |p| == 4 * |data|
    ensures forall k :: 0 <= k < |data| ==>
      p[4 * k] == data[k].open && p[4 * k + 1] == data[k].close &&
      p[4 * k + 2] == data[k].high && p[4 * k + 3] == data[k].low
  {
    seq(4 * |data|, j requires 0 <= j < 4 * |data| =>
      var b := data[j / 4];
      if j % 4 == 0 then b.open else if j % 4 == 1 then b.close else if j % 4 == 2 then b.high else b.low)
  }

  /** The candlestick y-axis domain: the price range widened by 5% of its width on each
      side; every open, high, low and close of the series lies inside it. */
  function YAxisDomain(data: seq<ChartData>): (dom: (real, real))
    requires |data| > 0
    ensures var lo, hi := MinOf(AllPrices(data)), MaxOf(AllPrices(data));
      && dom.0 <= lo && hi <= dom.1
      && dom.1 - dom.0 == (hi - lo) * 1.1
      && lo - dom.0 == dom.1 - hi
    ensures forall k :: 0 <= k < |data| ==>
      && dom.0 <= data[k].open <= dom.1 && dom.0 <= data[k].close <= dom.1
      && dom.0 <= data[k].high <= dom.1 && dom.0 <= data[k].low <= dom.1
  {
    var prices := AllPrices(data);
    var minPrice := MinOf(prices);
    var maxPrice := MaxOf(prices);
    var padding := (maxPrice - minPrice) * 0.05;
    assert forall k :: 0 <= k < |data| ==>
      minPrice <= prices[4 * k] <= maxPrice && minPrice <= prices[4 * k + 1] <= maxPrice &&
      minPrice <= prices[4 * k + 2] <= maxPrice && minPrice <= prices[4 * k + 3] <= maxPrice;
    (minPrice - padding, maxPrice + padding)
  }

  // --------------------------------------------------------- CandlestickBar

  datatype Color = Green | Red

  /** The drawn shapes of one candle: wick endpoints, body rectangle and colour. */
  datatype Candle = Candle(
    highY: real, lowY: real, openY: real, closeY: real,
    positive: bool, color: Color,
    bodyTop: real, bodyHeight: real, bodyWidth: real, bodyX: real, wickX: real,
    rectHeight: real)

  /** `yAxisDomain || [low, high]`. */
  function Domain(yAxisDomain: Option<(real, real)>, low: real, high: real): (real, real)
  {
    if yAxisDomain.Some? then yAxisDomain.value else (low, high)
  }

  /** Screen y of a price: the domain top maps to y and the domain bottom to y + height. */
  function PriceToY(price: real, y: real, height: real, yMin: real, yMax: real): real
    requires yMax - yMin != 0.0
  {
    y + ((yMax - price) / (yMax - yMin)) * height
  }

  /** Higher prices are drawn higher up the screen (smaller y). */
  lemma PriceToYAntitone(p: real, q: real, y: real, height: real, yMin: real, yMax: real)
    requires yMax - yMin > 0.0 && height >= 0.0 && p <= q
    ensures PriceToY(q, y, height, yMin, yMax) <= PriceToY(p, y, height, yMin, yMax)
  {
    var range := yMax - yMin;
    var a, b := (yMax - q) / range, (yMax - p) / range;
    assert a <= b by {
      assert b - a == (q - p) / range;
    }
    assert b * height - a * height == (b - a) * height;
  }

  function Min(a: real, b: real): real { if a <= b then a else b }
  function Max(a: real, b: real): real { if a >= b then a else b }
  function Abs(a: real): real { if a >= 0.0 then a else -a }

  /** CandlestickBar: the candle of one bar in the slot [x, x + width] × [y, y + height].
      The body is 60% of the slot, centred on the wick, and drawn at least one unit tall;
      it is green exactly when the bar closed at or above its open. For a positive domain
      and a consistent bar the upper wick ends at the body's top and the lower wick starts
      at its bottom, so neither crosses the body. */
  function CandlestickBar(open: real, close: real, high: real, low: real,
                          x: real, y: real, width: real, height: real,
                          yAxisDomain: Option<(real, real)>): (c: Candle)
    requires Domain(yAxisDomain, low, high).1 - Domain(yAxisDomain, low, high).0 != 0.0
    ensures c.positive <==> close >= open
    ensures c.color == Green <==> c.positive
    ensures c.bodyWidth == 0.6 * width
    ensures c.bodyX + c.bodyWidth / 2.0 == c.wickX == x + width / 2.0
    ensures c.rectHeight >= 1.0 && c.rectHeight >= c.bodyHeight >= 0.0
    ensures var dom := Domain(yAxisDomain, low, high);
      c.highY == PriceToY(high, y, height, dom.0, dom.1) && c.lowY == PriceToY(low, y, height, dom.0, dom.1) &&
      c.openY == PriceToY(open, y, height, dom.0, dom.1) && c.closeY == PriceToY(close, y, height, dom.0, dom.1)
    ensures c.bodyTop == Min(c.openY, c.closeY) && c.bodyHeight == Abs(c.closeY - c.openY)
    ensures c.rectHeight == Max(c.bodyHeight, 1.0)
    ensures c.bodyTop + c.bodyHeight == Max(c.openY, c.closeY)
    ensures var dom := Domain(yAxisDomain, low, high);
      dom.1 - dom.0 > 0.0 && height >= 0.0 && low <= Min(open, close) && Max(open, close) <= high ==>
        c.highY <= c.bodyTop <= c.bodyTop + c.bodyHeight <= c.lowY
  {
    var dom := Domain(yAxisDomain, low, high);
    var yMin, yMax := dom.0, dom.1;
    var highY := PriceToY(high, y, height, yMin, yMax);
    var lowY := PriceToY(low, y, height, yMin, yMax);
    var openY := PriceToY(open, y, height, yMin, yMax);
    var closeY := PriceToY(close, y, height, yMin, yMax);
    var isPositive := close >= open;
    var bodyTop := Min(openY, closeY);
    var bodyHeight := Abs(closeY - openY);
    var bodyWidth := width * 0.6;
    var c := Candle(highY, lowY, openY, closeY, isPositive, if isPositive then Green else Red,
      bodyTop, bodyHeight, bodyWidth, x + (width - bodyWidth) / 2.0, x + width / 2.0, Max(bodyHeight, 1.0));
    if yMax - yMin > 0.0 && height >= 0.0 && low <= Min(open, close) && Max(open, close) <= high then
      PriceToYAntitone(open, high, y, height, yMin, yMax);
      PriceToYAntitone(close, high, y, height, yMin, yMax);
      PriceToYAntitone(low, open, y, height, yMin, yMax);
      PriceToYAntitone(low, close, y, height, yMin, yMax);
      c
    else
      c
  }

  /** volumeData's `isPositive`. */
  predicate VolumeBarPositive(b: ChartData)
  {
    b.close >= b.open
  }

  /** A volume bar is marked positive exactly when its candle is green. */
  lemma VolumeColourMatchesCandle(b: ChartData, x: real, y: real, width: real, height: real, dom: (real, real))
    requires dom.1 - dom.0 != 0.0
    ensures VolumeBarPositive(b) <==> CandlestickBar(b.open, b.close, b.high, b.low, x, y, width, height, Some(dom)).color == Green
  {
  }

  /** Drawn with the chart's own domain, every consistent bar of the series keeps its
      wicks outside its body. */
  lemma SeriesCandlesWellFormed(data: seq<ChartData>, k: nat, x: real, y: real, width: real, height: real)
    requires k < |data| && height >= 0.0
    requires data[k].low <= Min(data[k].open, data[k].close) && Max(data[k].open, data[k].close) <= data[k].high
    requires data[k].low < data[k].high
    ensures var dom := YAxisDomain(data);
      var b := data[k];
      dom.1 - dom.0 > 0.0 &&
      var c := CandlestickBar(b.open, b.close, b.high, b.low, x, y, width, height, Some(dom));
      c.highY <= c.bodyTop <= c.bodyTop + c.bodyHeight <= c.lowY
  {
    var dom := YAxisDomain(data);
    assert dom.0 <= data[k].low && data[k].high <= dom.1;
  }
}
