/** components/stocks/advanced-chart.tsx: the compact simple moving average,
    the gain/loss relative strength index, the re-alignment of both onto the
    bar series, the indicator summary and the drawing-tool / annotation state. */
module AdvancedChart {
  import opened Wrappers
  import opened Seqs
  import opened Api
  import StockChart

  // ------------------------------------------------------------ calculateSMA

  /** The specification of calculateSMA: one value per complete window of `period`
      prices, the k-th being the mean of prices[k .. k + period). */
  function SmaSpec(prices: seq<real>, period: nat): (sma: seq<real>)
    requires period >= 1
    ensures |sma| == if |prices| >= period then |prices| - period + 1 else 0
  {
    if |prices| < period then []
    else seq(|prices| - period + 1, j requires 0 <= j < |prices| - period + 1 => Mean(prices[j .. j + period]))
  }

  /** calculateSMA, as the loop `for (i = period - 1; i < prices.length; i++)` that
      pushes the mean of the window ending at i. */
  method CalculateSMA(prices: seq<real>, period: nat) returns (sma: seq<real>)
    requires period >= 1
    ensures sma == SmaSpec(prices, period)
  {
    sma := [];
    var i: int := period - 1;
    while i < |prices|
      invariant period - 1 <= i
      invariant |prices| >= period - 1 ==> i <= |prices|
      invariant |prices| < period - 1 ==> i == period - 1
      invariant |sma| == i - (period - 1)
      invariant forall j :: 0 <= j < |sma| ==> sma[j] == Mean(prices[j .. j + period])
    {
      var sum := Sum(prices[i - period + 1 .. i + 1]);
      sma := sma + [sum / period as real];
      i := i + 1;
    }
  }

  /** Every SMA value lies between the lowest and the highest price of its window. */
  lemma SmaWithinWindow(prices: seq<real>, period: nat, j: nat)
    requires period >= 1 && j < |SmaSpec(prices, period)|
    ensures MinOf(prices[j .. j + period]) <= SmaSpec(prices, period)[j] <= MaxOf(prices[j .. j + period])
  {
    var window := prices[j .. j + period];
    assert SmaSpec(prices, period)[j] == Mean(window);
    MeanBetween(window, MinOf(window), MaxOf(window));
  }

  /** The SMA of this chart and the moving average of the stock chart agree: the
      k-th SMA value is the moving average at bar k + period - 1. */
  lemma SmaMatchesMovingAverage(data: seq<ChartData>, period: nat, i: nat)
    requires period >= 1 && period - 1 <= i < |data|
    ensures StockChart.CalculateMA(data, period)[i] == Some(SmaSpec(StockChart.Closes(data), period)[i - period + 1])
  {
    var closes := StockChart.Closes(data);
    var lo := i - period + 1;
    var window := closes[lo .. i + 1];
    assert closes[lo .. lo + period] == window;
    assert |window| == period;
    assert SmaSpec(closes, period)[lo] == Mean(window);
    assert StockChart.CalculateMA(data, period)[i] == Some(Sum(window) / period as real);
  }

  // ------------------------------------------------------------ calculateRSI

  /** The gain of one price change: its positive part. */
  function Gain(change: real): real
  {
    if change > 0.0 then change else 0.0
  }

  /** The loss of one price change: the magnitude of its negative part. */
  function Loss(change: real): real
  {
    if change < 0.0 then -change else 0.0
  }

  /** Gain and loss are never negative, at most one of them is nonzero, and together
      they recover the change. */
  lemma GainLossSplit(change: real)
    ensures Gain(change) >= 0.0 && Loss(change) >= 0.0
    ensures Gain(change) == 0.0 || Loss(change) == 0.0
    ensures Gain(change) - Loss(change) == change
  {
  }

  predicate NonNegative(s: seq<real>)
  {
    forall k :: 0 <= k < |s| ==> s[k] >= 0.0
  }

  function Steps(prices: seq<real>): nat
  {
    if |prices| == 0 then 0 else |prices| - 1
  }

  /** The gains array built by calculateRSI's first loop. */
  function Gains(prices: seq<real>): (g: seq<real>)
    ensures |g| == Steps(prices)
    ensures NonNegative(g)
  {
    seq(Steps(prices), k requires 0 <= k < Steps(prices) => Gain(prices[k + 1] - prices[k]))
  }

  /** The losses array built by calculateRSI's first loop. */
  function Losses(prices: seq<real>): (l: seq<real>)
    ensures |l| == Steps(prices)
    ensures NonNegative(l)
  {
    seq(Steps(prices), k requires 0 <= k < Steps(prices) => Loss(prices[k + 1] - prices[k]))
  }

  lemma MeanNonNegative(s: seq<real>)
    requires |s| > 0 && NonNegative(s)
    ensures Mean(s) >= 0.0
  {
    MeanBetween(s, 0.0, MaxOf(s));
  }

  /** `100 - 100 / (1 + avgGain / avgLoss)` under JavaScript's division: a zero
      average loss gives 100 when there were gains and NaN (None) when there were none. */
  function RsiOf(avgGain: real, avgLoss: real): (r: Option<real>)
    requires avgGain >= 0.0 && avgLoss >= 0.0
    ensures r.None? <==> avgGain == 0.0 && avgLoss == 0.0
    ensures avgLoss == 0.0 && avgGain > 0.0 ==> r == Some(100.0)
    ensures avgLoss > 0.0 ==> r.Some? && 0.0 <= r.value < 100.0
  {
    if avgLoss == 0.0 then (if avgGain == 0.0 then None else Some(100.0))
    else
      var d := 1.0 + avgGain / avgLoss;
      QuotientNonNegative(avgGain, avgLoss);
      QuotientPositive(100.0, d);
      DivideUpperBound(100.0, d, 100.0);
      Some(100.0 - 100.0 / d)
  }

  lemma QuotientNonNegative(x: real, y: real)
    requires x >= 0.0 && y > 0.0
    ensures x / y >= 0.0
  {
    DivideLowerBound(x, y, 0.0);
  }

  lemma QuotientPositive(x: real, y: real)
    requires x > 0.0 && y > 0.0
    ensures x / y > 0.0
  {
    assert x / y * y == x;
  }

  /** For a positive average loss the RSI lies in [0, 100). */
  lemma RsiBelowHundred(avgGain: real, avgLoss: real)
    requires avgGain >= 0.0 && avgLoss > 0.0
    ensures RsiOf(avgGain, avgLoss).Some?
    ensures 0.0 <= RsiOf(avgGain, avgLoss).value < 100.0
  {
    var rs := avgGain / avgLoss;
    QuotientNonNegative(avgGain, avgLoss);
    var d := 1.0 + rs;
    QuotientPositive(100.0, d);
    DivideUpperBound(100.0, d, 100.0);
  }

  /** For a positive average loss the RSI is the gain share of all movement, scaled to 100. */
  lemma RsiIsGainShare(avgGain: real, avgLoss: real)
    requires avgGain >= 0.0 && avgLoss > 0.0
    ensures RsiOf(avgGain, avgLoss) == Some(100.0 * avgGain / (avgGain + avgLoss))
  {
    var g, l := avgGain, avgLoss;
    var s := g + l;
    OnePlusQuotient(g, l);
    DivideByQuotient(100.0, s, l);
    HundredLessShare(g, l);
  }

  lemma OnePlusQuotient(g: real, l: real)
    requires l > 0.0
    ensures 1.0 + g / l == (g + l) / l
  {
    var q := g / l;
    assert q * l == g;
    assert (g + l) / l * l == g + l;
    assert (1.0 + q) * l == l + q * l;
    CancelPositive(1.0 + q, (g + l) / l, l);
  }

  lemma DivideByQuotient(a: real, b: real, c: real)
    requires b > 0.0 && c > 0.0
    ensures a / (b / c) == a * c / b
  {
  }

  lemma HundredLessShare(g: real, l: real)
    requires g + l > 0.0
    ensures 100.0 - 100.0 * l / (g + l) == 100.0 * g / (g + l)
  {
    var s := g + l;
    var a, b := 100.0 * l / s, 100.0 * g / s;
    assert a * s == 100.0 * l;
    assert b * s == 100.0 * g;
    assert (100.0 - a) * s == 100.0 * s - a * s;
    CancelPositive(100.0 - a, b, s);
  }

  lemma CancelPositive(a: real, b: real, c: real)
    requires c > 0.0 && a * c == b * c
    ensures a == b
  {
    assert (a - b) * c == 0.0;
  }

  lemma NonNegativeSlice(s: seq<real>, from: nat, to: nat)
    requires from <= to <= |s| && NonNegative(s)
    ensures NonNegative(s[from .. to])
  {
    assert forall k :: 0 <= k < to - from ==> s[from .. to][k] == s[from + k];
  }

  /** The RSI of the `period` price changes that end at price i: RsiOf of their
      average gain and average loss. */
  function RsiEndingAt(prices: seq<real>, period: nat, i: nat): Option<real>
    requires period >= 1 && period <= i < |prices|
  {
    var gw, lw := Gains(prices)[i - period .. i], Losses(prices)[i - period .. i];
    NonNegativeSlice(Gains(prices), i - period, i);
    NonNegativeSlice(Losses(prices), i - period, i);
    MeanNonNegative(gw);
    MeanNonNegative(lw);
    RsiOf(Mean(gw), Mean(lw))
  }

  /** The specification of calculateRSI: one value per price from index `period` on,
      the k-th being the RSI of the changes that end at price k + period. */
  function RsiSpec(prices: seq<real>, period: nat): (rsi: seq<Option<real>>)
    requires period >= 1
    ensures |rsi| == if |prices| > period then |prices| - period else 0
  {
    if |prices| <= period then []
    else seq(|prices| - period, k requires 0 <= k < |prices| - period => RsiEndingAt(prices, period, k + period))
  }

  /** The averages calculateRSI computes for the window ending at price i are the means
      RsiEndingAt uses. */
  lemma RsiWindowAverages(prices: seq<real>, period: nat, i: nat)
    requires period >= 1 && period <= i < |prices|
    ensures var avgGain := Sum(Gains(prices)[i - period .. i]) / period as real;
      var avgLoss := Sum(Losses(prices)[i - period .. i]) / period as real;
      && avgGain >= 0.0 && avgLoss >= 0.0
      && RsiEndingAt(prices, period, i) == RsiOf(avgGain, avgLoss)
  {
    var gw, lw := Gains(prices)[i - period .. i], Losses(prices)[i - period .. i];
    assert |gw| == period && |lw| == period;
    NonNegativeSlice(Gains(prices), i - period, i);
    NonNegativeSlice(Losses(prices), i - period, i);
    MeanNonNegative(gw);
    MeanNonNegative(lw);
  }

  /** calculateRSI, as the source's two loops: the first builds the gain and loss
      arrays from consecutive closes, the second averages each window of `period` of them. */
  method CalculateRSI(prices: seq<real>, period: nat) returns (rsi: seq<Option<real>>)
    requires period >= 1
    ensures rsi == RsiSpec(prices, period)
  {
    var gains: seq<real> := [];
    var losses: seq<real> := [];
    var i := 1;
    while i < |prices|
      invariant 1 <= i && (|prices| > 0 ==> i <= |prices|)
      invariant |gains| == |losses| == i - 1 <= Steps(prices)
      invariant forall k :: 0 <= k < |gains| ==> gains[k] == Gain(prices[k + 1] - prices[k])
      invariant forall k :: 0 <= k < |losses| ==> losses[k] == Loss(prices[k + 1] - prices[k])
    {
      var change := prices[i] - prices[i - 1];
      gains := gains + [if change > 0.0 then change else 0.0];
      losses := losses + [if change < 0.0 then -change else 0.0];
      i := i + 1;
    }
    LoopArraysAreGainsAndLosses(prices, gains, losses);
    rsi := AverageWindows(prices, gains, losses, period);
  }

  lemma LoopArraysAreGainsAndLosses(prices: seq<real>, gains: seq<real>, losses: seq<real>)
    requires |gains| == |losses| == Steps(prices)
    requires forall k :: 0 <= k < |gains| ==> gains[k] == Gain(prices[k + 1] - prices[k])
    requires forall k :: 0 <= k < |losses| ==> losses[k] == Loss(prices[k + 1] - prices[k])
    ensures gains == Gains(prices) && losses == Losses(prices)
  {
  }

  /** calculateRSI's second loop, over the gain and loss arrays of `prices`. */
  method AverageWindows(ghost prices: seq<real>, gains: seq<real>, losses: seq<real>, period: nat)
    returns (rsi: seq<Option<real>>)
    requires period >= 1 && gains == Gains(prices) && losses == Losses(prices)
    ensures rsi == RsiSpec(prices, period)
  {
    ghost var spec := RsiSpec(prices, period);
    rsi := [];
    var j: int := period - 1;
    while j < |gains|
      invariant period - 1 <= j
      invariant |gains| >= period - 1 ==> j <= |gains|
      invariant |gains| < period - 1 ==> j == period - 1
      invariant |rsi| == j - (period - 1) <= |spec|
      invariant rsi == spec[..|rsi|]
    {
      var lo := j - period + 1;
      var avgGain := Sum(gains[lo .. j + 1]) / period as real;
      var avgLoss := Sum(losses[lo .. j + 1]) / period as real;
      RsiWindowAverages(prices, period, j + 1);
      var value := RsiOf(avgGain, avgLoss);
      assert value == spec[lo];
      rsi := rsi + [value];
      j := j + 1;
    }
  }

  /** Every RSI value: within [0, 100) when its window lost anything, exactly 100 when
      it only gained, and NaN (None) when prices stayed flat. */
  lemma RsiRange(prices: seq<real>, period: nat, i: nat)
    requires period >= 1 && period <= i < |prices|
    ensures var lossAvg := Mean(Losses(prices)[i - period .. i]);
      var gainAvg := Mean(Gains(prices)[i - period .. i]);
      && (lossAvg > 0.0 ==> RsiEndingAt(prices, period, i).Some? && 0.0 <= RsiEndingAt(prices, period, i).value < 100.0)
      && (lossAvg == 0.0 && gainAvg > 0.0 ==> RsiEndingAt(prices, period, i) == Some(100.0))
      && (lossAvg == 0.0 && gainAvg == 0.0 ==> RsiEndingAt(prices, period, i).None?)
  {
    var gw, lw := Gains(prices)[i - period .. i], Losses(prices)[i - period .. i];
    NonNegativeSlice(Gains(prices), i - period, i);
    NonNegativeSlice(Losses(prices), i - period, i);
    MeanNonNegative(gw);
    MeanNonNegative(lw);
    if Mean(lw) > 0.0 {
      RsiBelowHundred(Mean(gw), Mean(lw));
    }
  }

  lemma GainsOfPrefix(prices: seq<real>)
    requires |prices| > 1
    ensures Gains(prices[..|prices| - 1]) == Gains(prices)[..|prices| - 2]
    ensures Losses(prices[..|prices| - 1]) == Losses(prices)[..|prices| - 2]
  {
  }

  /** Over any series, the total gain less the total loss is the net price change. */
  lemma {:induction false} GainsLessLossesIsNetChange(prices: seq<real>)
    requires |prices| > 0
    ensures Sum(Gains(prices)) - Sum(Losses(prices)) == prices[|prices| - 1] - prices[0]
  {
    var n := |prices|;
    if n > 1 {
      var init := prices[..n - 1];
      GainsLessLossesIsNetChange(init);
      GainsOfPrefix(prices);
      var g, l := Gains(prices), Losses(prices);
      assert Sum(g) == Sum(g[..n - 2]) + g[n - 2];
      assert Sum(l) == Sum(l[..n - 2]) + l[n - 2];
      GainLossSplit(prices[n - 1] - prices[n - 2]);
    }
  }

  // ------------------------------------------------------------ chartData

  /** The indicator state: both SMAs, the RSI and the volumes. */
  datatype Indicators = Indicators(sma20: seq<real>, sma50: seq<real>, rsi: seq<Option<real>>, volume: seq<real>)

  function Volumes(data: seq<ChartData>): (v: seq<real>)
    ensures |v| == |data|
  {
    seq(|data|, i requires 0 <= i < |data| => data[i].volume)
  }

  /** What the indicator effect computes from a bar series. */
  function IndicatorsOf(data: seq<ChartData>): Indicators
  {
    var closes := StockChart.Closes(data);
    Indicators(SmaSpec(closes, 20), SmaSpec(closes, 50), RsiSpec(closes, 14), Volumes(data))
  }

  /** `a[k]`: undefined (None) outside the array. */
  function At(a: seq<real>, k: int): Option<real>
  {
    if 0 <= k < |a| then Some(a[k]) else None
  }

  function AtRsi(a: seq<Option<real>>, k: int): Option<real>
  {
    if 0 <= k < |a| then a[k] else None
  }

  /** `v || null`: undefined, NaN and 0 all become null. */
  function OrNull(v: Option<real>): (r: Option<real>)
    ensures r.Some? <==> v.Some? && v.value != 0.0
    ensures r.Some? ==> r == v
  {
    if v.Some? && v.value != 0.0 then v else None
  }

  /** One row of chartData (the formatted date string is not modelled). */
  datatype ChartPoint = ChartPoint(
    timestamp: int, open: real, high: real, low: real, close: real, volume: real,
    sma20: Option<real>, sma50: Option<real>, rsi: Option<real>)

  /** chartData: the bars with the indicator arrays shifted back by 19, 49 and 14. */
  function ChartPoints(data: seq<ChartData>, indicators: Option<Indicators>): (pts: seq<ChartPoint>)
    ensures |pts| == |data|
    ensures forall i :: 0 <= i < |data| ==>
      && pts[i].timestamp == data[i].timestamp && pts[i].close == data[i].close
      && pts[i].open == data[i].open && pts[i].high == data[i].high
      && pts[i].low == data[i].low && pts[i].volume == data[i].volume
    ensures indicators.None? ==> forall i :: 0 <= i < |pts| ==>
      pts[i].sma20.None? && pts[i].sma50.None? && pts[i].rsi.None?
  {
    seq(|data|, i requires 0 <= i < |data| =>
      var b := data[i];
      ChartPoint(b.timestamp, b.open, b.high, b.low, b.close, b.volume,
        if indicators.Some? then OrNull(At(indicators.value.sma20, i - 19)) else None,
        if indicators.Some? then OrNull(At(indicators.value.sma50, i - 49)) else None,
        if indicators.Some? then OrNull(AtRsi(indicators.value.rsi, i - 14)) else None))
  }

  /** The SMA offsets line each average up with the bar it ends at: sma20 and sma50 at
      bar i are the period-20 and period-50 moving averages ending at i, null before
      the first full window and null when the average is 0. */
  lemma SmaAligned(data: seq<ChartData>, i: nat)
    requires i < |data|
    ensures var pt := ChartPoints(data, Some(IndicatorsOf(data)))[i];
      && pt.sma20 == OrNull(StockChart.CalculateMA(data, 20)[i])
      && pt.sma50 == OrNull(StockChart.CalculateMA(data, 50)[i])
  {
    if i >= 19 {
      SmaMatchesMovingAverage(data, 20, i);
    }
    if i >= 49 {
      SmaMatchesMovingAverage(data, 50, i);
    }
  }

  /** The RSI offset lines each value up with the close it ends at: rsi at bar i is the
      RSI of the 14 changes ending at close i (null when it is 0 or NaN) and null for
      the first 14 bars. */
  lemma RsiAligned(data: seq<ChartData>, i: nat)
    requires i < |data|
    ensures var pt := ChartPoints(data, Some(IndicatorsOf(data)))[i];
      && (i < 14 ==> pt.rsi.None?)
      && (i >= 14 ==> pt.rsi == OrNull(RsiEndingAt(StockChart.Closes(data), 14, i)))
  {
  }

  // ------------------------------------------------------------ drawing tools

  datatype Tool = Line | Rectangle | Text

  datatype DrawingTool = DrawingTool(kind: Tool, active: bool)

  /** handleDrawingToolSelect: the picked tool becomes current; it is active when it
      differs from the current one, and toggles when it is the current one. */
  function NextDrawingTool(current: DrawingTool, tool: Tool): (next: DrawingTool)
    ensures next.kind == tool
    ensures current.kind != tool ==> next.active
    ensures current.kind == tool ==> next.active == !current.active
  {
    DrawingTool(tool, !current.active || current.kind != tool)
  }

  /** The toolbar button for `tool` is highlighted. */
  predicate Highlighted(state: DrawingTool, tool: Tool)
  {
    state.active && state.kind == tool
  }

  /** Clicking a button flips that button's highlight and clears every other button;
      clicking the same button twice restores the original state when it was current. */
  lemma DrawingToolToggle(current: DrawingTool, tool: Tool, other: Tool)
    requires other != tool
    ensures Highlighted(NextDrawingTool(current, tool), tool) <==> !Highlighted(current, tool)
    ensures !Highlighted(NextDrawingTool(current, tool), other)
    ensures current.kind == tool ==> NextDrawingTool(NextDrawingTool(current, tool), tool) == current
  {
  }

  // ------------------------------------------------------------ summary

  function Last<T>(s: seq<T>): Option<T>
  {
    if |s| == 0 then None else Some(s[|s| - 1])
  }

  /** The indicator summary: the last SMA 20, SMA 50 and RSI values and the latest
      volume in millions; None is "N/A". A NaN RSI is shown as its text, so the RSI
      cell is Some(None) in that case. */
  datatype Summary = Summary(sma20: Option<real>, sma50: Option<real>, rsi: Option<Option<real>>, volumeMillions: Option<real>)

  function SummaryOf(data: seq<ChartData>, indicators: Option<Indicators>): (s: Summary)
    ensures indicators.None? ==> s.sma20.None? && s.sma50.None? && s.rsi.None?
    ensures indicators.Some? ==> var ind := indicators.value;
      && (s.sma20.Some? <==> |ind.sma20| > 0) && (s.sma20.Some? ==> s.sma20.value == ind.sma20[|ind.sma20| - 1])
      && (s.sma50.Some? <==> |ind.sma50| > 0) && (s.sma50.Some? ==> s.sma50.value == ind.sma50[|ind.sma50| - 1])
      && (s.rsi.Some? <==> |ind.rsi| > 0) && (s.rsi.Some? ==> s.rsi.value == ind.rsi[|ind.rsi| - 1])
    ensures s.volumeMillions.Some? <==> |data| > 0
    ensures s.volumeMillions.Some? ==> s.volumeMillions.value * 1000000.0 == data[|data| - 1].volume
  {
    Summary(
      if indicators.Some? then Last(indicators.value.sma20) else None,
      if indicators.Some? then Last(indicators.value.sma50) else None,
      if indicators.Some? then Last(indicators.value.rsi) else None,
      if |data| > 0 then Some(data[|data| - 1].volume / 1000000.0) else None)
  }

  /** Once computed from the bars, the summary shows the moving averages of the most
      recent 20 and 50 closes, and N/A for a period longer than the series. */
  lemma SummaryShowsLatestWindows(data: seq<ChartData>)
    requires |data| > 0
    ensures var s := SummaryOf(data, Some(IndicatorsOf(data)));
      var closes := StockChart.Closes(data);
      var n := |data|;
      && (n >= 20 ==> s.sma20 == Some(Mean(closes[n - 20 ..])))
      && (n < 20 ==> s.sma20.None?)
      && (n >= 50 ==> s.sma50 == Some(Mean(closes[n - 50 ..])))
      && (n < 50 ==> s.sma50.None?)
      && (s.rsi.Some? <==> n > 14)
      && s.volumeMillions == Some(data[n - 1].volume / 1000000.0)
  {
    var closes := StockChart.Closes(data);
    var n := |data|;
    if n >= 20 {
      assert closes[n - 20 .. n - 20 + 20] == closes[n - 20 ..];
    }
    if n >= 50 {
      assert closes[n - 50 .. n - 50 + 50] == closes[n - 50 ..];
    }
  }

  // ------------------------------------------------------------ component state

  /** Annotations are never given a shape by the component; a string stands for one. */
  type Annotation = string

  /** The component's mutable state: the current drawing tool, the annotation list and
      the indicators (None until a non-empty series has been seen). */
  class AdvancedChartState {
    var drawingTool: DrawingTool
    var annotations: seq<Annotation>
    var indicators: Option<Indicators>

    constructor()
      ensures drawingTool == DrawingTool(Line, false)
      ensures annotations == [] && indicators == None
    {
      drawingTool := DrawingTool(Line, false);
      annotations := [];
      indicators := None;
    }

    /** The indicator effect: recomputed from a non-empty series, kept otherwise. */
    method RefreshIndicators(data: seq<ChartData>)
      modifies this
      ensures |data| > 0 ==> indicators == Some(IndicatorsOf(data))
      ensures |data| == 0 ==> indicators == old(indicators)
      ensures drawingTool == old(drawingTool) && annotations == old(annotations)
    {
      if |data| > 0 {
        var closes := StockChart.Closes(data);
        var sma20 := CalculateSMA(closes, 20);
        var sma50 := CalculateSMA(closes, 50);
        var rsi := CalculateRSI(closes, 14);
        indicators := Some(Indicators(sma20, sma50, rsi, Volumes(data)));
      }
    }

    method SelectDrawingTool(tool: Tool)
      modifies this
      ensures drawingTool == NextDrawingTool(old(drawingTool), tool)
      ensures annotations == old(annotations) && indicators == old(indicators)
    {
      drawingTool := DrawingTool(tool, !drawingTool.active || drawingTool.kind != tool);
    }

    method ClearAnnotations()
      modifies this
      ensures annotations == []
      ensures drawingTool == old(drawingTool) && indicators == old(indicators)
    {
      annotations := [];
    }
  }
}
