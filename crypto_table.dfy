/** components/crypto/crypto-table.tsx: sorting a copy of the coin list by the
    selected key and order, the market-cap and volume formatters, the
    five-band change colour, price precision and row ranks. */
module CryptoTable {
  import opened Api
  import opened Formats
  import CryptoStats

  datatype SortKey = MarketCap | Price | Change24h

  datatype SortOrder = Asc | Desc

  /** `crypto[sortBy]`. */
  function KeyOf(c: CryptoData, key: SortKey): real
  {
    match key
    case MarketCap => c.marketCap
    case Price => c.price
    case Change24h => c.change24h
  }

  /** a may stand before b: under "desc" (comparator `b - a`) its key is at least b's,
      under "asc" (comparator `a - b`) at most. */
  predicate Precedes(a: CryptoData, b: CryptoData, key: SortKey, order: SortOrder)
  {
    if order == Desc then KeyOf(a, key) >= KeyOf(b, key) else KeyOf(a, key) <= KeyOf(b, key)
  }

  predicate SortedBy(s: seq<CryptoData>, key: SortKey, order: SortOrder)
  {
    forall p, q :: 0 <= p < q < |s| ==> Precedes(s[p], s[q], key, order)
  }

  /** Insertion sort of an array in place, by `key` in `order`. */
  method SortInPlace(a: array<CryptoData>, key: SortKey, order: SortOrder)
    modifies a
    ensures SortedBy(a[..], key, order)
    ensures multiset(a[..]) == multiset(old(a[..]))
  {
    var i := 0;
    while i < a.Length
      invariant 0 <= i <= a.Length
      invariant SortedBy(a[..i], key, order)
      invariant multiset(a[..]) == multiset(old(a[..]))
    {
      InsertLast(a, i, key, order);
      i := i + 1;
    }
    assert a[..a.Length] == a[..];
  }

  /** One pass of the insertion sort: a[i] sinks into the sorted prefix a[..i]. */
  method InsertLast(a: array<CryptoData>, i: nat, key: SortKey, order: SortOrder)
    requires i < a.Length
    requires SortedBy(a[..i], key, order)
    modifies a
    ensures SortedBy(a[..i + 1], key, order)
    ensures multiset(a[..]) == multiset(old(a[..]))
  {
    var j := i;
    forall p, q | 0 <= p < q < i ensures Precedes(a[p], a[q], key, order) {
      assert a[p] == a[..i][p] && a[q] == a[..i][q];
    }
    while j > 0 && !Precedes(a[j - 1], a[j], key, order)
      invariant 0 <= j <= i
      invariant forall p, q :: 0 <= p < q <= i && p != j && q != j ==> Precedes(a[p], a[q], key, order)
      invariant forall q :: j < q <= i ==> Precedes(a[j], a[q], key, order)
      invariant multiset(a[..]) == multiset(old(a[..]))
    {
      Swap(a, j);
      j := j - 1;
    }
    forall p, q | 0 <= p < q <= i ensures Precedes(a[p], a[q], key, order) {
      if q == j && 0 < j && p < j - 1 {
        assert Precedes(a[p], a[j - 1], key, order);
      }
    }
    assert forall k :: 0 <= k <= i ==> a[..i + 1][k] == a[k];
  }

  /** Exchanges a[k - 1] and a[k]. */
  method Swap(a: array<CryptoData>, k: nat)
    requires 0 < k < a.Length
    modifies a
    ensures a[..] == old(a[..])[k - 1 := old(a[k])][k := old(a[k - 1])]
    ensures multiset(a[..]) == multiset(old(a[..]))
  {
    a[k - 1], a[k] := a[k], a[k - 1];
  }

  /** sortedCryptos: `[...cryptos].sort(...)`. The list is copied first, so the caller's
      array is left as it was; the result holds the same coins, ordered by the key. */
  method SortedCryptos(cryptos: array<CryptoData>, key: SortKey, order: SortOrder) returns (sorted: seq<CryptoData>)
    ensures SortedBy(sorted, key, order)
    ensures multiset(sorted) == multiset(cryptos[..])
  {
    var copy := new CryptoData[cryptos.Length](i requires 0 <= i < cryptos.Length reads cryptos => cryptos[i]);
    assert copy[..] == cryptos[..];
    SortInPlace(copy, key, order);
    sorted := copy[..];
  }

  /** The table's initial choice: market cap, largest first. */
  const DefaultKey: SortKey := MarketCap
  const DefaultOrder: SortOrder := Desc

  /** formatMarketCap: "$" and the T, B or M tier the cap reaches first, else the literal. */
  function FormatMarketCap(marketCap: real): (m: Money)
    ensures m.dollar && ValueOf(m.amount) == marketCap
    ensures m.amount.Localised? <==> marketCap < Million
    ensures m.amount.Scaled? ==> m.amount.suffix != Thousands
    ensures m.amount.Scaled? ==> (m.amount.suffix == Trillions <==> marketCap >= Trillion)
    ensures m.amount.Scaled? ==> (m.amount.suffix == Billions <==> Billion <= marketCap < Trillion)
    ensures m.amount.Scaled? ==> (m.amount.suffix == Millions <==> Million <= marketCap < Billion)
  {
    if marketCap >= Trillion then Money(true, Scaled(marketCap / Trillion, Trillions))
    else if marketCap >= Billion then Money(true, Scaled(marketCap / Billion, Billions))
    else if marketCap >= Million then Money(true, Scaled(marketCap / Million, Millions))
    else Money(true, Localised(marketCap))
  }

  /** formatVolume: "$" and B or M, else the literal; there is no T tier. */
  function FormatVolume(volume: real): (m: Money)
    ensures m.dollar && ValueOf(m.amount) == volume
    ensures m.amount.Localised? <==> volume < Million
    ensures m.amount.Scaled? ==> (m.amount.suffix == Billions <==> volume >= Billion)
    ensures m.amount.Scaled? ==> (m.amount.suffix == Millions <==> Million <= volume < Billion)
  {
    if volume >= Billion then Money(true, Scaled(volume / Billion, Billions))
    else if volume >= Million then Money(true, Scaled(volume / Million, Millions))
    else Money(true, Localised(volume))
  }

  /** Volume and market cap render alike below a trillion; from a trillion up the volume
      stays in billions, with a four-digit or longer scaled figure. */
  lemma VolumeAgainstMarketCap(x: real)
    ensures x < Trillion ==> FormatVolume(x) == FormatMarketCap(x)
    ensures x >= Trillion ==> FormatVolume(x).amount.suffix == Billions && FormatVolume(x).amount.scaled >= 1000.0
    ensures x >= Trillion ==> FormatMarketCap(x).amount.suffix == Trillions
  {
  }

  /** The table's market cap and the stats panel's formatNumber agree from a million up;
      below that the table prints the literal even where the panel uses K. */
  lemma MarketCapAgainstFormatNumber(x: real)
    ensures x >= Million ==> FormatMarketCap(x).amount == CryptoStats.FormatNumber(x)
    ensures Thousand <= x < Million ==>
      FormatMarketCap(x).amount.Localised? && CryptoStats.FormatNumber(x).Scaled?
  {
  }

  datatype ChangeColor = StrongGreen | Green | StrongRed | Red | Muted

  /** getPriceChangeColor: five disjoint bands of the 24h change. */
  function PriceChangeColor(change: real): (c: ChangeColor)
    ensures c == StrongGreen <==> change > 5.0
    ensures c == Green <==> 0.0 < change <= 5.0
    ensures c == StrongRed <==> change < -5.0
    ensures c == Red <==> -5.0 <= change < 0.0
    ensures c == Muted <==> change == 0.0
  {
    if change > 5.0 then StrongGreen
    else if change > 0.0 then Green
    else if change < -5.0 then StrongRed
    else if change < 0.0 then Red
    else Muted
  }

  /** The detail card colours the 24h change green by the same test as the table's two
      green bands; only an unchanged price differs: muted in the table, red on the card. */
  lemma DetailGreenMatchesTable(change: real)
    ensures CryptoStats.ChangeIsGreen(change) <==> PriceChangeColor(change) in {StrongGreen, Green}
    ensures !CryptoStats.ChangeIsGreen(change) <==> PriceChangeColor(change) in {StrongRed, Red, Muted}
  {
  }

  /** One table row: its rank, the coin, the price precision, the market-cap and
      volume figures and the 24h change cell (arrow, "+" sign, colour). */
  datatype Row = Row(rank: nat, crypto: CryptoData, priceDecimals: nat,
                     marketCap: Money, volume: Money,
                     arrowUp: bool, plusSign: bool, changeColor: ChangeColor)

  function RowOf(rank: nat, c: CryptoData): Row
  {
    Row(rank, c, if c.price >= 1.0 then 2 else 6,
      FormatMarketCap(c.marketCap), FormatVolume(c.volume24h),
      c.changePercent24h > 0.0, c.changePercent24h > 0.0, PriceChangeColor(c.changePercent24h))
  }

  /** The table body: one row per sorted coin, ranked from 1 in sorted order. */
  function Rows(sorted: seq<CryptoData>): (rows: seq<Row>)
    ensures |rows| == |sorted|
    ensures forall i :: 0 <= i < |sorted| ==> rows[i].crypto == sorted[i] && rows[i].rank == i + 1
  {
    seq(|sorted|, i requires 0 <= i < |sorted| => RowOf(i + 1, sorted[i]))
  }

  /** Each row's cells are consistent: two decimals exactly for prices from 1 up (six
      below), and an up arrow and "+" exactly when the change is coloured green. */
  lemma RowCellsConsistent(sorted: seq<CryptoData>, i: nat)
    requires i < |sorted|
    ensures var r := Rows(sorted)[i];
      && (r.priceDecimals == 2 <==> sorted[i].price >= 1.0)
      && (r.priceDecimals == 6 <==> sorted[i].price < 1.0)
      && r.arrowUp == r.plusSign
      && (r.arrowUp <==> r.changeColor in {StrongGreen, Green})
  {
  }

  /** Under the default ordering, rank 1 holds the largest market cap and ranks follow
      market cap downwards. */
  lemma DefaultRanksFollowMarketCap(cryptos: seq<CryptoData>, sorted: seq<CryptoData>)
    requires SortedBy(sorted, DefaultKey, DefaultOrder)
    requires multiset(sorted) == multiset(cryptos)
    requires |cryptos| > 0
    ensures Rows(sorted)[0].rank == 1
    ensures forall c :: c in cryptos ==> Rows(sorted)[0].crypto.marketCap >= c.marketCap
    ensures forall i, j :: 0 <= i < j < |sorted| ==>
      Rows(sorted)[i].rank < Rows(sorted)[j].rank && Rows(sorted)[i].crypto.marketCap >= Rows(sorted)[j].crypto.marketCap
  {
    assert |sorted| == |multiset(sorted)| == |cryptos|;
    forall c | c in cryptos
      ensures sorted[0].marketCap >= c.marketCap
    {
      assert c in multiset(cryptos);
      assert c in multiset(sorted);
      var k :| 0 <= k < |sorted| && sorted[k] == c;
      if k > 0 {
        assert Precedes(sorted[0], sorted[k], DefaultKey, DefaultOrder);
      }
    }
  }
}
