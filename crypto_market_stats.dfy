/** components/crypto/crypto-market-stats.tsx: the fear-and-greed label and
    colour, and the sign of the market-cap change. */
module CryptoMarketStats {

  datatype Mood = ExtremeGreed | Greed | Neutral | Fear | ExtremeFear

  datatype Colour = Red | Orange | Yellow | Blue | Green

  /** The `{ label, color }` record getFearGreedLabel returns. */
  datatype FearGreed = FearGreed(mood: Mood, color: Colour)

  /** getFearGreedLabel: inclusive lower bounds 75, 55, 45 and 25 split the index into
      five bands, each with its own colour. */
  function GetFearGreedLabel(index: real): (r: FearGreed)
    ensures r.mood == ExtremeGreed <==> index >= 75.0
    ensures r.mood == Greed <==> 55.0 <= index < 75.0
    ensures r.mood == Neutral <==> 45.0 <= index < 55.0
    ensures r.mood == Fear <==> 25.0 <= index < 45.0
    ensures r.mood == ExtremeFear <==> index < 25.0
  {
    if index >= 75.0 then FearGreed(ExtremeGreed, Red)
    else if index >= 55.0 then FearGreed(Greed, Orange)
    else if index >= 45.0 then FearGreed(Neutral, Yellow)
    else if index >= 25.0 then FearGreed(Fear, Blue)
    else FearGreed(ExtremeFear, Green)
  }

  /** How greedy a label is, from 0 (extreme fear) to 4 (extreme greed). */
  function Greediness(m: Mood): nat
  {
    match m
    case ExtremeFear => 0
    case Fear => 1
    case Neutral => 2
    case Greed => 3
    case ExtremeGreed => 4
  }

  /** Raising the index never makes the label more fearful. */
  lemma FearGreedMonotone(lo: real, hi: real)
    requires lo <= hi
    ensures Greediness(GetFearGreedLabel(lo).mood) <= Greediness(GetFearGreedLabel(hi).mood)
  {
  }

  /** Each label always comes with the same colour, and different labels with different
      colours. */
  lemma ColourFollowsLabel(a: real, b: real)
    ensures GetFearGreedLabel(a).mood == GetFearGreedLabel(b).mood <==>
            GetFearGreedLabel(a).color == GetFearGreedLabel(b).color
  {
  }

  /** The initial market statistics. */
  const InitialFearGreedIndex: real := 72.0
  const InitialMarketCapChange24h: real := 2.1

  /** The initial index reads "Greed". */
  lemma InitialIndexIsGreed()
    ensures GetFearGreedLabel(InitialFearGreedIndex) == FearGreed(Greed, Orange)
  {
  }

  /** The 24h market-cap change cell: up arrow, "+" prefix and green text. */
  datatype ChangeCell = ChangeCell(arrowUp: bool, plusSign: bool, green: bool)

  /** All three follow the same test: the change is strictly positive. */
  function MarketCapChangeCell(change: real): (c: ChangeCell)
    ensures c.arrowUp <==> change > 0.0
    ensures c.plusSign <==> change > 0.0
    ensures c.green <==> change > 0.0
  {
    ChangeCell(change > 0.0, change > 0.0, change > 0.0)
  }
}
