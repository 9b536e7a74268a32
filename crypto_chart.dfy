/** components/crypto/crypto-chart.tsx: the plotted points, the current price,
    the last change and its percentage, the trend and momentum labels, the
    display precision and the volume tooltip. */
module CryptoChart {
  import opened Wrappers
  import opened Seqs
  import opened Api
  import opened Formats
  import CryptoTable

  /** One plotted point (the locale date and time strings are not modelled). */
  datatype Point = Point(timestamp: int, price: real, volume: real, high: real, low: real)

  /** chartData: one point per bar, in order, plotting the close as the price. */
  function ChartPoints(data: seq<ChartData>): (pts: seq<Point>)
    ensures |pts| == |data|
    ensures forall i :: 0 <= i < |data| ==>
      pts[i] == Point(data[i].timestamp, data[i].close, data[i].volume, data[i].high, data[i].low)
  {
    if |data| == 0 then [] else ChartPoints(data[..|data| - 1]) + [PointOf(data[|data| - 1])]
  }

  function PointOf(b: ChartData): Point
  {
    Point(b.timestamp, b.close, b.volume, b.high, b.low)
  }

  /** currentPrice: the last close, or 0 for an empty series. */
  function CurrentPrice(data: seq<ChartData>): (p: real)
    ensures |data| == 0 ==> p == 0.0
    ensures |data| > 0 ==> p == data[|data| - 1].close
  {
    if |data| > 0 then data[|data| - 1].close else 0.0
  }

  /** The price the chart's reference line and header show is the last plotted price. */
  lemma CurrentPriceIsLastPoint(data: seq<ChartData>)
    requires |data| > 0
    ensures CurrentPrice(data) == ChartPoints(data)[|data| - 1].price
  {
  }

  /** priceChange: last close less the one before, 0 with fewer than two bars. */
  function PriceChange(data: seq<ChartData>): (c: real)
    ensures |data| < 2 ==> c == 0.0
    ensures |data| >= 2 ==> c + data[|data| - 2].close == CurrentPrice(data)
  {
    if |data| > 1 then data[|data| - 1].close - data[|data| - 2].close else 0.0
  }

  /** The previous close divides the change; JavaScript would print Infinity or NaN when it is 0. */
  predicate PercentDefined(data: seq<ChartData>)
  {
    |data| < 2 || data[|data| - 2].close != 0.0
  }

  /** priceChangePercent: the change as a percentage of the previous close. */
  function PriceChangePercent(data: seq<ChartData>): (pct: real)
    requires PercentDefined(data)
    ensures |data| < 2 ==> pct == 0.0
    ensures |data| >= 2 ==> pct * data[|data| - 2].close == PriceChange(data) * 100.0
  {
    if |data| > 1 then (PriceChange(data) / data[|data| - 2].close) * 100.0 else 0.0
  }

  /** With a positive previous close the percentage has the sign of the change. */
  lemma PercentHasSignOfChange(data: seq<ChartData>)
    requires |data| >= 2 && data[|data| - 2].close > 0.0
    ensures PriceChangePercent(data) > 0.0 <==> PriceChange(data) > 0.0
    ensures PriceChangePercent(data) == 0.0 <==> PriceChange(data) == 0.0
  {
    var prev := data[|data| - 2].close;
    var q := PriceChange(data) / prev;
    assert q * prev == PriceChange(data);
    if PriceChange(data) > 0.0 {
      DivideLowerBound(PriceChange(data), prev, 0.0);
      assert q != 0.0;
    } else {
      DivideUpperBound(PriceChange(data), prev, 0.0);
    }
  }

  datatype Trend = Bullish | Bearish

  /** The trend label: Bullish only for a strictly positive change; no change reads Bearish. */
  function TrendOf(change: real): (t: Trend)
    ensures t == Bullish <==> change > 0.0
  {
    if change > 0.0 then Bullish else Bearish
  }

  datatype Momentum = High | Medium | Low

  function Abs(x: real): real { if x >= 0.0 then x else -x }

  /** The momentum label: High above a 5% move either way, Medium above 2%, otherwise
      Low; a move of exactly 5% or 2% falls in the lower band. */
  function MomentumOf(changePercent: real): (m: Momentum)
    ensures m == High <==> Abs(changePercent) > 5.0
    ensures m == Medium <==> 2.0 < Abs(changePercent) <= 5.0
    ensures m == Low <==> Abs(changePercent) <= 2.0
  {
    if Abs(changePercent) > 5.0 then High
    else if Abs(changePercent) > 2.0 then Medium
    else Low
  }

  /** `value < 1 ? 6 : 2` decimals. */
  function Precision(value: real): (d: nat)
    ensures d == 6 <==> value < 1.0
    ensures d == 2 <==> value >= 1.0
  {
    if value < 1.0 then 6 else 2
  }

  /** The volume tooltip: billions only strictly above 1e9, millions otherwise. */
  function VolumeTooltip(volume: real): (a: Amount)
    ensures a.Scaled? && ValueOf(a) == volume
    ensures a.suffix == Billions <==> volume > Billion
    ensures a.suffix == Millions <==> volume <= Billion
  {
    if volume > Billion then Scaled(volume / Billion, Billions) else Scaled(volume / Million, Millions)
  }

  /** The tooltip and the table's volume column part ways exactly at 1e9 (the tooltip
      shows 1000 millions) and below 1e6 (the tooltip keeps millions, the table the literal). */
  lemma TooltipAgainstTableVolume(volume: real)
    ensures Million <= volume && volume != Billion ==> VolumeTooltip(volume) == CryptoTable.FormatVolume(volume).amount
    ensures volume == Billion ==>
      VolumeTooltip(volume) == Scaled(1000.0, Millions) && CryptoTable.FormatVolume(volume).amount == Scaled(1.0, Billions)
    ensures volume < Million ==> CryptoTable.FormatVolume(volume).amount.Localised?
  {
  }

  function Highs(data: seq<ChartData>): (h: seq<real>)
    ensures |h| == |data| && forall i :: 0 <= i < |data| ==> h[i] == data[i].high
  {
    seq(|data|, i requires 0 <= i < |data| => data[i].high)
  }

  function Lows(data: seq<ChartData>): (l: seq<real>)
    ensures |l| == |data| && forall i :: 0 <= i < |data| ==> l[i] == data[i].low
  {
    seq(|data|, i requires 0 <= i < |data| => data[i].low)
  }

  /** The price summary and quick stats. High and low are None where Math.max and
      Math.min of an empty list would give -Infinity and Infinity. */
  datatype Summary = Summary(
    currentPrice: real, change: real, changePercent: real, decimals: nat,
    green: bool, plusSign: bool, high: Option<real>, low: Option<real>,
    trend: Trend, momentum: Momentum, lastVolumeMillions: Option<real>)

  function SummaryOf(data: seq<ChartData>): (s: Summary)
    requires PercentDefined(data)
    ensures s.currentPrice == CurrentPrice(data) && s.change == PriceChange(data)
    ensures s.changePercent == PriceChangePercent(data) && s.decimals == Precision(s.currentPrice)
    ensures (s.green <==> s.change > 0.0) && (s.plusSign <==> s.change > 0.0)
    ensures s.trend == TrendOf(s.change) && s.momentum == MomentumOf(s.changePercent)
    ensures s.high.Some? <==> |data| > 0
    ensures s.high.Some? ==>
      && (forall i :: 0 <= i < |data| ==> data[i].high <= s.high.value)
      && (exists i :: 0 <= i < |data| && data[i].high == s.high.value)
    ensures s.low.Some? <==> |data| > 0
    ensures s.low.Some? ==>
      && (forall i :: 0 <= i < |data| ==> s.low.value <= data[i].low)
      && (exists i :: 0 <= i < |data| && data[i].low == s.low.value)
    ensures s.lastVolumeMillions.Some? <==> |data| > 0
    ensures s.lastVolumeMillions.Some? ==> s.lastVolumeMillions.value * Million == data[|data| - 1].volume
  {
    var price := CurrentPrice(data);
    var change := PriceChange(data);
    var pct := PriceChangePercent(data);
    Summary(price, change, pct, Precision(price), change > 0.0, change > 0.0,
      if |data| > 0 then Some(MaxOf(Highs(data))) else None,
      if |data| > 0 then Some(MinOf(Lows(data))) else None,
      TrendOf(change), MomentumOf(pct),
      if |data| > 0 then Some(data[|data| - 1].volume / Million) else None)
  }

  /** The summary is consistent with itself: green text, "+" sign and the Bullish label go
      together, and for well-formed bars the low is at most the high. */
  lemma SummaryConsistent(data: seq<ChartData>)
    requires PercentDefined(data)
    ensures var s := SummaryOf(data); s.green == s.plusSign == (s.trend == Bullish)
    ensures |data| > 0 && (forall i :: 0 <= i < |data| ==> data[i].low <= data[i].high) ==>
      SummaryOf(data).low.value <= SummaryOf(data).high.value
  {
    var s := SummaryOf(data);
    if |data| > 0 && (forall i :: 0 <= i < |data| ==> data[i].low <= data[i].high) {
      assert s.low.value <= data[0].low <= data[0].high <= s.high.value;
    }
  }
}
