/** components/crypto/crypto-stats.tsx: the K/M/B/T number formatter, the
    price formatter, the circulating-supply share, the "∞" total supply, the
    volatility badge and its progress bar. */
module CryptoStats {
  import opened Wrappers
  import opened Formats
  import opened Seqs

  /** formatNumber: the first tier among 1e12, 1e9, 1e6 and 1e3 that the number
      reaches, scaled by that tier; the literal for anything smaller (negatives
      included). The rendering stands for the number itself, and the scaled figure
      has one to three integer digits except in the open-ended T tier. */
  function FormatNumber(num: real): (a: Amount)
    ensures ValueOf(a) == num
    ensures a.Localised? <==> num < Thousand
    ensures a.Scaled? ==> (a.suffix == Trillions <==> num >= Trillion)
    ensures a.Scaled? ==> (a.suffix == Billions <==> Billion <= num < Trillion)
    ensures a.Scaled? ==> (a.suffix == Millions <==> Million <= num < Billion)
    ensures a.Scaled? ==> (a.suffix == Thousands <==> Thousand <= num < Million)
    ensures a.Scaled? ==> 1.0 <= a.scaled && (a.suffix != Trillions ==> a.scaled < 1000.0)
  {
    if num >= Trillion then Scaled(num / Trillion, Trillions)
    else if num >= Billion then Scaled(num / Billion, Billions)
    else if num >= Million then Scaled(num / Million, Millions)
    else if num >= Thousand then Scaled(num / Thousand, Thousands)
    else Localised(num)
  }

  /** formatPrice: "$" and 2 decimals from 1 up, 4 in [0.01, 1), 8 below 0.01
      (zero and negative prices included). */
  function FormatPrice(price: real): (p: PriceText)
    ensures p.dollar && p.value == price
    ensures p.decimals == 2 <==> price >= 1.0
    ensures p.decimals == 4 <==> 0.01 <= price < 1.0
    ensures p.decimals == 8 <==> price < 0.01
  {
    if price >= 1.0 then PriceText(true, price, 2)
    else if price >= 0.01 then PriceText(true, price, 4)
    else PriceText(true, price, 8)
  }

  /** circulatingSupplyPercent: 0 without a positive total supply, otherwise the
      circulating supply as a percentage of it. */
  function CirculatingPercent(circulating: real, total: real): (pct: real)
    ensures total <= 0.0 ==> pct == 0.0
    ensures total > 0.0 ==> pct * total == circulating * 100.0
  {
    if total > 0.0 then (circulating / total) * 100.0 else 0.0
  }

  /** When no more is circulating than exists, the share fits the progress bar's 0..100. */
  lemma CirculatingPercentInRange(circulating: real, total: real)
    requires 0.0 <= circulating <= total
    ensures 0.0 <= CirculatingPercent(circulating, total) <= 100.0
  {
    if total > 0.0 {
      DivideUpperBound(circulating, total, 1.0);
      DivideLowerBound(circulating, total, 0.0);
    }
  }

  /** The total-supply figure: None is the "∞" shown for a non-positive total. */
  function TotalSupplyText(total: real): (t: Option<Amount>)
    ensures t.None? <==> total <= 0.0
    ensures t.Some? ==> ValueOf(t.value) == total && t.value.Scaled? == (total >= Thousand)
  {
    if total > 0.0 then Some(FormatNumber(total)) else None
  }

  datatype Volatility = High | Medium | Low

  datatype BadgeVariant = Destructive | Default | Secondary

  function Abs(x: real): real { if x >= 0.0 then x else -x }

  /** The volatility label: High above 10% of 24h change in either direction,
      Medium above 5%, Low otherwise. */
  function VolatilityOf(changePercent: real): (v: Volatility)
    ensures v == High <==> Abs(changePercent) > 10.0
    ensures v == Medium <==> 5.0 < Abs(changePercent) <= 10.0
    ensures v == Low <==> Abs(changePercent) <= 5.0
  {
    if Abs(changePercent) > 10.0 then High
    else if Abs(changePercent) > 5.0 then Medium
    else Low
  }

  /** The badge variant, decided by its own copy of the same ladder. */
  function BadgeOf(changePercent: real): (b: BadgeVariant)
    ensures b == Destructive <==> Abs(changePercent) > 10.0
    ensures b == Default <==> 5.0 < Abs(changePercent) <= 10.0
    ensures b == Secondary <==> Abs(changePercent) <= 5.0
  {
    if Abs(changePercent) > 10.0 then Destructive
    else if Abs(changePercent) > 5.0 then Default
    else Secondary
  }

  /** The badge variant and the label always name the same band. */
  lemma BadgeMatchesVolatility(changePercent: real)
    ensures BadgeOf(changePercent) == Destructive <==> VolatilityOf(changePercent) == High
    ensures BadgeOf(changePercent) == Default <==> VolatilityOf(changePercent) == Medium
    ensures BadgeOf(changePercent) == Secondary <==> VolatilityOf(changePercent) == Low
  {
  }

  /** The volatility progress bar: twice the absolute change, capped at 100. */
  function VolatilityProgress(changePercent: real): (p: real)
    ensures 0.0 <= p <= 100.0
    ensures p == 100.0 <==> Abs(changePercent) >= 50.0
    ensures p < 100.0 ==> p == 2.0 * Abs(changePercent)
  {
    var doubled := Abs(changePercent) * 2.0;
    if doubled < 100.0 then doubled else 100.0
  }

  /** The bar and the badge tell the same story: a Low badge never fills more than a
      tenth of the bar, a High badge always more than a fifth. */
  lemma ProgressTracksVolatility(changePercent: real)
    ensures VolatilityOf(changePercent) == Low ==> VolatilityProgress(changePercent) <= 10.0
    ensures VolatilityOf(changePercent) == Medium ==> 10.0 < VolatilityProgress(changePercent) <= 20.0
    ensures VolatilityOf(changePercent) == High ==> VolatilityProgress(changePercent) > 20.0
  {
  }

  /** The 24h change figure is green exactly when the change is positive. */
  predicate ChangeIsGreen(changePercent24h: real)
  {
    changePercent24h > 0.0
  }
}
