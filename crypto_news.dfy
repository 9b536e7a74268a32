/** components/crypto/crypto-news.tsx: the sentiment icon, colour and label,
    the category colours, the "time ago" text and the simulated feed. */
module CryptoNews {

  datatype Sentiment = Bullish | Bearish | Neutral

  /** The sentiment label: above 0.3 Bullish, below -0.3 Bearish, and everything between,
      the two thresholds included, Neutral. */
  function SentimentLabel(sentiment: real): (s: Sentiment)
    ensures s == Bullish <==> sentiment > 0.3
    ensures s == Bearish <==> sentiment < -0.3
    ensures s == Neutral <==> -0.3 <= sentiment <= 0.3
  {
    if sentiment > 0.3 then Bullish else if sentiment < -0.3 then Bearish else Neutral
  }

  datatype Icon = TrendingUpGreen | TrendingDownRed | YellowDot

  /** getSentimentIcon, with its own copy of the thresholds. */
  function SentimentIcon(sentiment: real): (i: Icon)
    ensures i == TrendingUpGreen <==> sentiment > 0.3
    ensures i == TrendingDownRed <==> sentiment < -0.3
    ensures i == YellowDot <==> -0.3 <= sentiment <= 0.3
  {
    if sentiment > 0.3 then TrendingUpGreen else if sentiment < -0.3 then TrendingDownRed else YellowDot
  }

  datatype TextColour = GreenText | RedText | YellowText

  /** getSentimentColor, with its own copy of the thresholds. */
  function SentimentColour(sentiment: real): (c: TextColour)
    ensures c == GreenText <==> sentiment > 0.3
    ensures c == RedText <==> sentiment < -0.3
    ensures c == YellowText <==> -0.3 <= sentiment <= 0.3
  {
    if sentiment > 0.3 then GreenText else if sentiment < -0.3 then RedText else YellowText
  }

  /** Icon, colour and label always agree. */
  lemma SentimentViewsAgree(sentiment: real)
    ensures SentimentLabel(sentiment) == Bullish <==> SentimentIcon(sentiment) == TrendingUpGreen
    ensures SentimentLabel(sentiment) == Bullish <==> SentimentColour(sentiment) == GreenText
    ensures SentimentLabel(sentiment) == Bearish <==> SentimentIcon(sentiment) == TrendingDownRed
    ensures SentimentLabel(sentiment) == Bearish <==> SentimentColour(sentiment) == RedText
    ensures SentimentLabel(sentiment) == Neutral <==> SentimentIcon(sentiment) == YellowDot
    ensures SentimentLabel(sentiment) == Neutral <==> SentimentColour(sentiment) == YellowText
  {
  }

  datatype BadgeColour = Blue | Purple | Orange | Green | Gray

  /** getCategoryColor: four named categories have their own colour, any other is gray. */
  function CategoryColour(category: string): (c: BadgeColour)
    ensures c == Gray <==> category !in {"adoption", "technical", "regulatory", "development"}
    ensures c == Blue <==> category == "adoption"
    ensures c == Purple <==> category == "technical"
    ensures c == Orange <==> category == "regulatory"
    ensures c == Green <==> category == "development"
  {
    if category == "adoption" then Blue
    else if category == "technical" then Purple
    else if category == "regulatory" then Orange
    else if category == "development" then Green
    else Gray
  }

  const HourMillis: int := 3600000

  datatype TimeAgo = JustNow | HoursAgo(hours: nat) | DaysAgo(days: nat)

  /** formatTimeAgo, with both instants in milliseconds: whole hours elapsed (rounded
      down, so a publication in the future counts as less than one hour), shown as
      "Just now" under one hour, in hours under a day and in whole days after that. */
  function FormatTimeAgo(nowMillis: int, publishedMillis: int): (t: TimeAgo)
    ensures var elapsed := nowMillis - publishedMillis;
      && (t == JustNow <==> elapsed < HourMillis)
      && (t.HoursAgo? ==> 1 <= t.hours < 24 && t.hours * HourMillis <= elapsed < (t.hours + 1) * HourMillis)
      && (t.DaysAgo? ==> 1 <= t.days && t.days * 24 * HourMillis <= elapsed < (t.days + 1) * 24 * HourMillis)
      && (t.HoursAgo? <==> HourMillis <= elapsed < 24 * HourMillis)
  {
    // Dafny's division by a positive divisor rounds down, as Math.floor does.
    var diffInHours := (nowMillis - publishedMillis) / HourMillis;
    if diffInHours < 1 then JustNow
    else if diffInHours < 24 then HoursAgo(diffInHours)
    else DaysAgo(diffInHours / 24)
  }

  /** The fields of a news item that the component's logic reads. */
  datatype Article = Article(id: string, source: string, publishedMillis: int, sentiment: real, category: string)

  /** The simulated feed: five items published 2, 4, 6, 8 and 12 hours before `nowMillis`. */
  function SimulatedNews(nowMillis: int): (news: seq<Article>)
    ensures |news| == 5
    ensures forall i :: 0 <= i < |news| ==> news[i].id == [('1' as int + i) as char]
    ensures forall i :: 0 <= i < |news| ==> news[i].publishedMillis <= nowMillis - 2 * HourMillis
    ensures forall i, j :: 0 <= i < j < |news| ==> news[i].publishedMillis > news[j].publishedMillis
    ensures forall i :: 0 <= i < |news| ==> -1.0 <= news[i].sentiment <= 1.0
  {
    [ Article("1", "CryptoNews", nowMillis - 2 * HourMillis, 0.8, "adoption"),
      Article("2", "TradingView", nowMillis - 4 * HourMillis, 0.6, "technical"),
      Article("3", "RegulatoryNews", nowMillis - 6 * HourMillis, -0.2, "regulatory"),
      Article("4", "DevUpdate", nowMillis - 8 * HourMillis, 0.7, "development"),
      Article("5", "MarketWatch", nowMillis - 12 * HourMillis, 0.1, "analysis") ]
  }

  /** Read at the moment it was generated, the simulated feed shows these sentiments,
      badge colours and ages. */
  lemma SimulatedNewsAsShown(nowMillis: int)
    ensures var news := SimulatedNews(nowMillis);
      && |news| == 5
      && (forall i :: 0 <= i < 5 ==> news[i].sentiment in [0.8, 0.6, -0.2, 0.7, 0.1])
      && [SentimentLabel(news[0].sentiment), SentimentLabel(news[1].sentiment), SentimentLabel(news[2].sentiment),
          SentimentLabel(news[3].sentiment), SentimentLabel(news[4].sentiment)]
         == [Bullish, Bullish, Neutral, Bullish, Neutral]
      && [CategoryColour(news[0].category), CategoryColour(news[1].category), CategoryColour(news[2].category),
          CategoryColour(news[3].category), CategoryColour(news[4].category)]
         == [Blue, Purple, Orange, Green, Gray]
      && [FormatTimeAgo(nowMillis, news[0].publishedMillis), FormatTimeAgo(nowMillis, news[1].publishedMillis),
          FormatTimeAgo(nowMillis, news[2].publishedMillis), FormatTimeAgo(nowMillis, news[3].publishedMillis),
          FormatTimeAgo(nowMillis, news[4].publishedMillis)]
         == [HoursAgo(2), HoursAgo(4), HoursAgo(6), HoursAgo(8), HoursAgo(12)]
  {
  }
}
