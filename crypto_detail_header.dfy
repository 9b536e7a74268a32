/** components/crypto/crypto-detail-header.tsx: the header's own price and
    market-cap formatters, and how they relate to the stats panel and the table. */
module CryptoDetailHeader {
  import opened Formats
  import CryptoStats
  import CryptoTable

  /** formatPrice: 2 decimals from 1 up, 4 in [0.01, 1), 8 below; no "$". */
  function FormatPrice(price: real): (p: PriceText)
    ensures !p.dollar && p.value == price
    ensures p.decimals == 2 <==> price >= 1.0
    ensures p.decimals == 4 <==> 0.01 <= price < 1.0
    ensures p.decimals == 8 <==> price < 0.01
  {
    if price >= 1.0 then PriceText(false, price, 2)
    else if price >= 0.01 then PriceText(false, price, 4)
    else PriceText(false, price, 8)
  }

  /** formatMarketCap: "$" and the T, B or M tier the cap reaches first, else the literal. */
  function FormatMarketCap(marketCap: real): (m: Money)
    ensures m.dollar && ValueOf(m.amount) == marketCap
    ensures m.amount.Localised? <==> marketCap < Million
    ensures m.amount.Scaled? ==> (m.amount.suffix == Trillions <==> marketCap >= Trillion)
    ensures m.amount.Scaled? ==> (m.amount.suffix == Billions <==> Billion <= marketCap < Trillion)
    ensures m.amount.Scaled? ==> (m.amount.suffix == Millions <==> Million <= marketCap < Billion)
  {
    if marketCap >= Trillion then Money(true, Scaled(marketCap / Trillion, Trillions))
    else if marketCap >= Billion then Money(true, Scaled(marketCap / Billion, Billions))
    else if marketCap >= Million then Money(true, Scaled(marketCap / Million, Millions))
    else Money(true, Localised(marketCap))
  }

  /** The header and the stats panel print every price with the same precision; only
      the panel adds "$". */
  lemma PriceMatchesStats(price: real)
    ensures FormatPrice(price).decimals == CryptoStats.FormatPrice(price).decimals
    ensures FormatPrice(price).value == CryptoStats.FormatPrice(price).value
    ensures !FormatPrice(price).dollar && CryptoStats.FormatPrice(price).dollar
  {
  }

  /** The header and the table render every market cap identically. */
  lemma MarketCapMatchesTable(marketCap: real)
    ensures FormatMarketCap(marketCap) == CryptoTable.FormatMarketCap(marketCap)
  {
  }
}
