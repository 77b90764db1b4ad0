/**
  The deterministic part of the chat endpoint's five tools (`getCurrentPrice`,
  `getMarketData`, `analyzeTrend`, `getNews`, `predictPrice`): what each
  `execute` returns for given arguments. The random draws and the clock those
  bodies read are parameters here; the agent loop that calls them is not
  modelled, beyond its step bound.
 */
module ChatRoute {
  import opened Wrappers
  import opened JsBuiltins
  import McpServer

  /** The bound the agent is constructed with, and the route's maximum duration in seconds. */
  const MaxSteps: nat := 10
  const MaxDurationSeconds: nat := 60

  // ---------------------------------------------------------------------------
  // getCurrentPrice

  const Prices: seq<(string, real)> := [
    ("BTC", 48250.0), ("ETH", 2850.0), ("SOL", 185.5),
    ("XRP", 2.15), ("ADA", 0.95), ("DOGE", 0.35)
  ]

  datatype PriceQuote = PriceQuote(symbol: string, price: real, currency: string)

  /** getCurrentPrice: the table price of the upper-cased symbol, 0 when there is none. */
  function GetCurrentPrice(symbol: string): (r: PriceQuote)
    ensures r.symbol == symbol && r.currency == "USD"
    ensures Get(Prices, ToUpper(symbol)).None? ==> r.price == 0.0
    ensures Get(Prices, ToUpper(symbol)).Some? ==> (ToUpper(symbol), r.price) in Prices
  {
    var price := match Get(Prices, ToUpper(symbol)) case Some(p) => p case None => 0.0;
    PriceQuote(symbol, price, "USD")
  }

  /** The chat tool quotes the same price as the MCP server's get_price for
      every symbol it knows, and 0 exactly where get_price reports not found. */
  lemma CurrentPriceAgreesWithMcp(symbol: string)
    ensures McpServer.Lookup(symbol).Some? ==> GetCurrentPrice(symbol).price == McpServer.Lookup(symbol).value.price
    ensures McpServer.Lookup(symbol).None? ==> GetCurrentPrice(symbol).price == 0.0
  {
    GetCorresponds(McpServer.MarketData, Prices, ToUpper(symbol), (q: McpServer.Quote) => q.price);
  }

  // ---------------------------------------------------------------------------
  // getMarketData

  /** The `timeframe` enum of getMarketData's input schema. */
  datatype MarketTimeframe = Last24h | Last7d | Last30d {
    function Name(): string {
      match this
      case Last24h => "24h"
      case Last7d => "7d"
      case Last30d => "30d"
    }
  }

  /** getMarketData's own table: the first four assets of the MCP server's. */
  const MarketData: seq<(string, McpServer.Quote)> := [
    ("BTC", McpServer.Quote(48250.0, 1250.0, 2.66, 28.5e9)),
    ("ETH", McpServer.Quote(2850.0, -85.0, -2.89, 15.2e9)),
    ("SOL", McpServer.Quote(185.5, 12.5, 7.21, 2.1e9)),
    ("XRP", McpServer.Quote(2.15, 0.18, 9.30, 1.8e9))
  ]

  /** `{ symbol, ...marketData[symbol] }`: the symbol as given, with the quote's
      fields when the symbol is a key (spreading undefined adds nothing). */
  datatype MarketEntry = MarketEntry(symbol: string, quote: Option<McpServer.Quote>)

  datatype MarketDataResult = MarketDataResult(timeframe: MarketTimeframe, data: seq<MarketEntry>)

  /** `symbols.map(...)`: one entry per requested symbol, in request order, looked
      up exactly as written (no case folding). */
  function EntriesFor(symbols: seq<string>): (es: seq<MarketEntry>)
    ensures |es| == |symbols|
    ensures forall i :: 0 <= i < |symbols| ==> es[i].symbol == symbols[i] && es[i].quote == Get(MarketData, symbols[i])
  {
    if symbols == [] then [] else [MarketEntry(symbols[0], Get(MarketData, symbols[0]))] + EntriesFor(symbols[1..])
  }

  /** getMarketData, with `timeframe` defaulting to 24h. */
  function GetMarketData(symbols: seq<string>, timeframe: Option<MarketTimeframe>): (r: MarketDataResult)
    ensures r.timeframe == (if timeframe.Some? then timeframe.value else Last24h)
    ensures |r.data| == |symbols|
    ensures forall i :: 0 <= i < |symbols| ==> r.data[i].symbol == symbols[i] && r.data[i].quote == Get(MarketData, symbols[i])
  {
    var tf := match timeframe case Some(t) => t case None => Last24h;
    MarketDataResult(tf, EntriesFor(symbols))
  }

  /** The lookup is case-sensitive: "btc" finds nothing where "BTC" finds
      Bitcoin's quote; and every quote found is the MCP server's quote. */
  lemma MarketDataCaseSensitive(symbol: string)
    ensures GetMarketData(["btc"], None).data[0].quote.None?
    ensures GetMarketData(["BTC"], None).data[0].quote == Some(McpServer.MarketData[0].1)
    ensures Get(MarketData, symbol).Some? ==> Get(McpServer.MarketData, symbol) == Get(MarketData, symbol)
  {
    assert MarketData == McpServer.MarketData[..4];
    if Get(MarketData, symbol).Some? {
      GetPrefix(McpServer.MarketData, 4, symbol);
    }
  }

  // ---------------------------------------------------------------------------
  // analyzeTrend

  /** The `timeframe` enum of analyzeTrend's input schema. */
  datatype TrendTimeframe = OneHour | FourHours | OneDay | OneWeek {
    function Name(): string {
      match this
      case OneHour => "1h"
      case FourHours => "4h"
      case OneDay => "1d"
      case OneWeek => "1w"
    }
  }

  /** The two enums' values are distinct strings, as the schemas list them. */
  lemma TimeframeEnums()
    ensures forall a: MarketTimeframe, b: MarketTimeframe :: a.Name() == b.Name() ==> a == b
    ensures forall a: TrendTimeframe, b: TrendTimeframe :: a.Name() == b.Name() ==> a == b
    ensures {Last24h.Name(), Last7d.Name(), Last30d.Name()} == {"24h", "7d", "30d"}
    ensures {OneHour.Name(), FourHours.Name(), OneDay.Name(), OneWeek.Name()} == {"1h", "4h", "1d", "1w"}
  {
  }

  datatype Signal = Bullish | Bearish

  datatype TrendAnalysis = TrendAnalysis(
    symbol: string, timeframe: TrendTimeframe, trend: Signal,
    support: real, resistance: real, rsi: real, macd: Signal, recommendation: string)

  /** analyzeTrend: bullish exactly for "BTC" and "SOL" as written, Bitcoin's
      levels for "BTC" and Ethereum's for every other symbol, always "hold".
      rsiDraw and macdDraw are the two `Math.random()` results. */
  function AnalyzeTrend(symbol: string, timeframe: Option<TrendTimeframe>, rsiDraw: real, macdDraw: real): (r: TrendAnalysis)
    ensures r.symbol == symbol && r.timeframe == (if timeframe.Some? then timeframe.value else OneDay)
    ensures r.trend == Bullish <==> symbol == "BTC" || symbol == "SOL"
    ensures r.support == (if symbol == "BTC" then 46500.0 else 2700.0)
    ensures r.resistance == (if symbol == "BTC" then 50000.0 else 3000.0)
    ensures r.support < r.resistance
    ensures r.rsi == rsiDraw * 100.0 && (r.macd == Bullish <==> macdDraw > 0.5)
    ensures r.recommendation == "hold"
  {
    var tf := match timeframe case Some(t) => t case None => OneDay;
    TrendAnalysis(
      symbol, tf,
      if symbol == "BTC" || symbol == "SOL" then Bullish else Bearish,
      if symbol == "BTC" then 46500.0 else 2700.0,
      if symbol == "BTC" then 50000.0 else 3000.0,
      rsiDraw * 100.0,
      if macdDraw > 0.5 then Bullish else Bearish,
      "hold")
  }

  /** Of the market table's assets, only BTC and ETH have their price between
      the support and resistance analyzeTrend reports. */
  lemma TrendLevelsBracketOnlyBtcAndEth()
    ensures forall i :: 0 <= i < |McpServer.MarketData| ==>
      var a := AnalyzeTrend(McpServer.MarketData[i].0, None, 0.0, 0.0);
      (a.support < McpServer.MarketData[i].1.price < a.resistance <==> McpServer.MarketData[i].0 in {"BTC", "ETH"})
  {
  }

  // ---------------------------------------------------------------------------
  // getNews

  /** A news item; `timestamp` is in milliseconds since the epoch. */
  datatype NewsItem = NewsItem(id: string, title: string, source: string, timestamp: int)

  /** The three clock readings the feed takes, in milliseconds since the epoch:
      `new Date()` for the first item, then `Date.now()` for each of the others. */
  datatype ClockReadings = ClockReadings(first: int, second: int, third: int)

  /** The fixed feed: the first item stamped with the first reading, the second
      an hour before the second reading, the third two hours before the third. */
  function NewsFeed(clock: ClockReadings): (feed: seq<NewsItem>)
    ensures |feed| == 3
    ensures feed[0].timestamp == clock.first
    ensures feed[1].timestamp == clock.second - 3600000
    ensures feed[2].timestamp == clock.third - 7200000
    ensures [feed[0].id, feed[1].id, feed[2].id] == ["1", "2", "3"]
  {
    [ NewsItem("1", "Bitcoin breaks above $48k resistance level", "CryptoNews", clock.first),
      NewsItem("2", "Ethereum staking rewards increase by 15%", "DeFi Times", clock.second - 3600000),
      NewsItem("3", "Major exchange launches new trading pairs", "Trading Updates", clock.third - 7200000) ]
  }

  /** The feed is newest first whenever successive readings lie less than an
      hour apart, even if the clock steps back by up to an hour in between. */
  lemma NewsNewestFirst(clock: ClockReadings)
    requires clock.second - clock.first < 3600000 && clock.third - clock.second < 3600000
    ensures var feed := NewsFeed(clock);
      feed[0].timestamp > feed[1].timestamp > feed[2].timestamp
  {
  }

  datatype NewsResult = NewsResult(symbol: string, count: real, news: seq<NewsItem>)

  /** getNews: `symbol || 'general'`, `limit` defaulting to 5 when absent, and the
      feed cut by `slice(0, limit)`; `count` echoes the limit, not the length. */
  function GetNews(symbol: Option<string>, limit: Option<real>, clock: ClockReadings): (r: NewsResult)
    ensures r.symbol == (if symbol.None? || symbol.value == "" then "general" else symbol.value)
    ensures r.count == (if limit.Some? then limit.value else 5.0)
    ensures |r.news| == SliceCount(3, r.count)
    ensures forall i :: 0 <= i < |r.news| ==> r.news[i] == NewsFeed(clock)[i]
  {
    var s := match symbol case Some(v) => (if v == "" then "general" else v) case None => "general";
    var n := match limit case Some(l) => l case None => 5.0;
    NewsResult(s, n, NewsFeed(clock)[..SliceCount(3, n)])
  }

  /** For a non-negative limit the feed holds min(limit, 3) items (the limit
      truncated); the default limit returns all three. */
  lemma NewsCount(symbol: Option<string>, limit: real, clock: ClockReadings)
    requires limit >= 0.0
    ensures |GetNews(symbol, Some(limit), clock).news| == if limit.Floor < 3 then limit.Floor else 3
    ensures GetNews(symbol, None, clock).news == NewsFeed(clock)
  {
  }

  // ---------------------------------------------------------------------------
  // predictPrice

  const PredictionPrices: seq<(string, real)> := [("BTC", 48250.0), ("ETH", 2850.0), ("SOL", 185.5)]

  datatype UpDown = Up | Down

  datatype Prediction = Prediction(
    symbol: string, hoursAhead: real, currentPrice: real, predictedPrice: real,
    confidence: real, direction: UpDown)

  /** `currentPrices[symbol.toUpperCase()] || 100` */
  function PredictionBase(symbol: string): (p: real)
    ensures p > 0.0
    ensures Get(PredictionPrices, ToUpper(symbol)).None? ==> p == 100.0
    ensures Get(PredictionPrices, ToUpper(symbol)).Some? ==> (ToUpper(symbol), p) in PredictionPrices
  {
    match Get(PredictionPrices, ToUpper(symbol))
    case Some(p) => p
    case None => 100.0
  }

  /** predictPrice: moveDraw and confidenceDraw are the two `Math.random()` results.
      The prediction moves the price by up to 5 % either way; `hoursAhead` is only
      echoed. */
  function PredictPrice(symbol: string, hoursAhead: Option<real>, moveDraw: real, confidenceDraw: real): (r: Prediction)
    ensures r.symbol == symbol && r.hoursAhead == (if hoursAhead.Some? then hoursAhead.value else 24.0)
    ensures r.currentPrice == PredictionBase(symbol)
    ensures r.confidence == 0.75 + confidenceDraw * 0.2
    ensures r.direction == Up <==> moveDraw > 0.5
    ensures r.predictedPrice == Round(r.currentPrice * (1.0 + (moveDraw - 0.5) * 0.1) * 100.0) as real / 100.0
  {
    var hours := match hoursAhead case Some(h) => h case None => 24.0;
    var current := PredictionBase(symbol);
    var prediction := current * (1.0 + (moveDraw - 0.5) * 0.1);
    ScaledAbove(current, (moveDraw - 0.5) * 0.1);
    Prediction(symbol, hours, current, Round(prediction * 100.0) as real / 100.0,
      0.75 + confidenceDraw * 0.2, if prediction > current then Up else Down)
  }

  /** For a positive price c, c * (1 + d) exceeds c exactly when d is positive. */
  lemma ScaledAbove(c: real, d: real)
    requires c > 0.0
    ensures c * (1.0 + d) > c <==> d > 0.0
  {
    assert c * (1.0 + d) == c + c * d;
    if d > 0.0 {
      assert c * d > 0.0;
    } else {
      assert c * d <= 0.0;
    }
  }

  /** With draws in [0, 1), the predicted price stays within 5 % of the current
      price, up to the rounding to cents. */
  lemma PredictionWithinFivePercent(symbol: string, hoursAhead: Option<real>, moveDraw: real, confidenceDraw: real)
    requires 0.0 <= moveDraw < 1.0
    ensures var r := PredictPrice(symbol, hoursAhead, moveDraw, confidenceDraw);
      r.currentPrice * 0.95 - 0.005 <= r.predictedPrice <= r.currentPrice * 1.05 + 0.005
  {
    var r := PredictPrice(symbol, hoursAhead, moveDraw, confidenceDraw);
    var c := r.currentPrice;
    var d := (moveDraw - 0.5) * 0.1;
    assert -0.05 <= d < 0.05;
    var p := c * (1.0 + d);
    assert c * 0.95 <= p <= c * 1.05 by {
      assert p == c + c * d;
      assert c * d <= c * 0.05 by { MulLe(c, d, 0.05); }
      assert c * -0.05 <= c * d by { MulLe(c, -0.05, d); }
    }
    var k := Round(p * 100.0);
    assert p * 100.0 - 0.5 < k as real <= p * 100.0 + 0.5;
  }

  lemma MulLe(c: real, x: real, y: real)
    requires c >= 0.0 && x <= y
    ensures c * x <= c * y
  {
  }
}
