/**
  The CryptoPulse MCP server's tool catalogue and its dispatcher, `processToolCall`,
  with the five tool bodies it routes to. Every body reads the constant market
  table; the text each one renders is kept as a structured record (number
  formatting is not modelled).
 */
module McpServer {
  import opened Wrappers
  import opened JsBuiltins

  // ---------------------------------------------------------------------------
  // The tool catalogue answered to a listing request

  datatype SchemaType = StringType | NumberType

  datatype PropertySpec = PropertySpec(name: string, kind: SchemaType, description: string)

  /** A tool as listed: its name, description and object-typed input schema
      (declared properties and the names of the required ones). */
  datatype ToolSpec = ToolSpec(name: string, description: string, properties: seq<PropertySpec>, required: seq<string>)

  const Catalogue: seq<ToolSpec> := [
    ToolSpec("get_price", "Get the current price of a cryptocurrency",
      [PropertySpec("symbol", StringType, "The cryptocurrency symbol (e.g., BTC, ETH, SOL)")],
      ["symbol"]),
    ToolSpec("get_market_overview", "Get an overview of the entire cryptocurrency market",
      [PropertySpec("limit", NumberType, "Number of top cryptocurrencies to return")],
      []),
    ToolSpec("analyze_trend", "Analyze the trend and provide technical insights for a cryptocurrency",
      [PropertySpec("symbol", StringType, "The cryptocurrency symbol"),
       PropertySpec("timeframe", StringType, "Timeframe for analysis (1h, 4h, 1d, 1w)")],
      ["symbol"]),
    ToolSpec("calculate_rsi", "Calculate the Relative Strength Index (RSI) for a cryptocurrency",
      [PropertySpec("symbol", StringType, "The cryptocurrency symbol"),
       PropertySpec("period", NumberType, "RSI period (default 14)")],
      ["symbol"]),
    ToolSpec("get_support_resistance", "Get key support and resistance levels for a cryptocurrency",
      [PropertySpec("symbol", StringType, "The cryptocurrency symbol")],
      ["symbol"])
  ]

  function ToolNames(tools: seq<ToolSpec>): (names: seq<string>)
    ensures |names| == |tools|
    ensures forall i :: 0 <= i < |tools| ==> names[i] == tools[i].name
  {
    if tools == [] then [] else [tools[0].name] + ToolNames(tools[1..])
  }

  function PropertyNames(props: seq<PropertySpec>): (names: seq<string>)
    ensures |names| == |props|
    ensures forall i :: 0 <= i < |props| ==> names[i] == props[i].name
  {
    if props == [] then [] else [props[0].name] + PropertyNames(props[1..])
  }

  /** The catalogue lists the five tools in this order, under distinct names;
      every required field is a declared property; `symbol` is required by every
      tool except `get_market_overview`, which requires nothing. */
  lemma CatalogueShape()
    ensures ToolNames(Catalogue) == ["get_price", "get_market_overview", "analyze_trend", "calculate_rsi", "get_support_resistance"]
    ensures forall i, j :: 0 <= i < j < |Catalogue| ==> Catalogue[i].name != Catalogue[j].name
    ensures forall t, f :: t in Catalogue && f in t.required ==> f in PropertyNames(t.properties)
    ensures forall t :: t in Catalogue ==>
      t.required == (if t.name == "get_market_overview" then [] else ["symbol"])
  {
  }

  // ---------------------------------------------------------------------------
  // MARKET_DATA

  datatype Quote = Quote(price: real, change: real, changePercent: real, volume: real)

  /** The market table, in the order its keys were written (which is the order
      `Object.entries` returns them in). */
  const MarketData: seq<(string, Quote)> := [
    ("BTC", Quote(48250.0, 1250.0, 2.66, 28.5e9)),
    ("ETH", Quote(2850.0, -85.0, -2.89, 15.2e9)),
    ("SOL", Quote(185.5, 12.5, 7.21, 2.1e9)),
    ("XRP", Quote(2.15, 0.18, 9.30, 1.8e9)),
    ("ADA", Quote(0.95, 0.05, 5.6, 450e6)),
    ("DOGE", Quote(0.35, 0.02, 6.0, 350e6))
  ]

  /** `MARKET_DATA[symbol.toUpperCase()]` */
  function Lookup(symbol: string): (r: Option<Quote>)
    ensures r.None? <==> forall i :: 0 <= i < |MarketData| ==> MarketData[i].0 != ToUpper(symbol)
    ensures r.Some? ==> (ToUpper(symbol), r.value) in MarketData
  {
    Get(MarketData, ToUpper(symbol))
  }

  /** The table's keys are distinct and upper case, and every price is positive. */
  lemma MarketDataWellFormed()
    ensures DistinctKeys(MarketData)
    ensures forall i :: 0 <= i < |MarketData| ==> ToUpper(MarketData[i].0) == MarketData[i].0
    ensures forall i :: 0 <= i < |MarketData| ==> MarketData[i].1.price > 0.0
  {
  }

  /** Lookup ignores case: a symbol and its upper case find the same entry, and
      the entry found is the table's entry under that upper-case key. */
  lemma LookupIgnoresCase(symbol: string)
    ensures Lookup(symbol) == Lookup(ToUpper(symbol))
    ensures Lookup(symbol).Some? ==> (ToUpper(symbol), Lookup(symbol).value) in MarketData
  {
    ToUpperIdempotent(symbol);
  }

  // ---------------------------------------------------------------------------
  // Tool results

  datatype Trend = Bullish | Bearish | Neutral

  datatype RsiStatus = Overbought | Oversold | RsiNeutral

  /** The single text item a call answers with, as a record of what it reports. */
  datatype TextContent =
    | NotFound(symbol: string)
    | PriceReport(symbol: string, quote: Quote)
    | MarketOverview(limit: real, entries: seq<(string, Quote)>)
    | TrendReport(symbol: string, timeframe: JsValue, trend: Trend, quote: Quote, support: seq<real>, resistance: seq<real>)
    | RsiReport(symbol: string, period: JsValue, rsi: real, status: RsiStatus)
    | LevelsReport(symbol: string, price: real, support: seq<real>, resistance: seq<real>)
    | UnknownTool(name: string)

  datatype ToolResponse = ToolResponse(kind: string, content: seq<TextContent>)

  // ---------------------------------------------------------------------------
  // The tool bodies

  /** getPrice */
  function GetPrice(symbol: string): (r: TextContent)
    ensures r.NotFound? <==> Lookup(symbol).None?
    ensures r.NotFound? ==> r == NotFound(symbol)
    ensures !r.NotFound? ==> r.PriceReport? && r.symbol == symbol && (ToUpper(symbol), r.quote) in MarketData
  {
    match Lookup(symbol)
    case None => NotFound(symbol)
    case Some(q) => PriceReport(symbol, q)
  }

  /** getMarketOverview: the first `limit` table entries, as `slice(0, limit)` cuts them. */
  function GetMarketOverview(limit: real): (r: TextContent)
    ensures r.MarketOverview? && r.limit == limit
    ensures |r.entries| == SliceCount(|MarketData|, limit)
    ensures forall i :: 0 <= i < |r.entries| ==> r.entries[i] == MarketData[i]
  {
    MarketOverview(limit, MarketData[..SliceCount(|MarketData|, limit)])
  }

  /** The default overview lists the first five assets, leaving out DOGE; any
      limit of six or more lists all six. */
  lemma OverviewLimits(limit: real)
    ensures GetMarketOverview(5.0).entries == MarketData[..5]
    ensures (exists i :: 0 <= i < |GetMarketOverview(5.0).entries| && GetMarketOverview(5.0).entries[i].0 == "DOGE") == false
    ensures limit >= 6.0 ==> GetMarketOverview(limit).entries == MarketData
  {
    var e := GetMarketOverview(5.0).entries;
    assert forall i :: 0 <= i < |e| ==> e[i].0 != "DOGE";
  }

  /** The trend rule of analyzeTrend: bullish from +2 % up, bearish from -2 % down. */
  function ClassifyTrend(changePercent: real): (t: Trend)
    ensures t == Bullish <==> changePercent >= 2.0
    ensures t == Bearish <==> changePercent <= -2.0
    ensures t == Neutral <==> -2.0 < changePercent < 2.0
  {
    if changePercent >= 2.0 then Bullish
    else if changePercent <= -2.0 then Bearish
    else Neutral
  }

  function TrendRank(t: Trend): int {
    match t
    case Bearish => 0
    case Neutral => 1
    case Bullish => 2
  }

  /** A larger change never gives a more bearish trend. */
  lemma ClassifyTrendMonotone(a: real, b: real)
    requires a <= b
    ensures TrendRank(ClassifyTrend(a)) <= TrendRank(ClassifyTrend(b))
  {
  }

  /** analyzeTrend's support and resistance pairs: fixed for BTC and ETH, 8 % and
      15 % either side of the price otherwise. */
  function TrendLevels(key: string, price: real): (levels: (seq<real>, seq<real>))
    ensures |levels.0| == 2 && |levels.1| == 2
    ensures price > 0.0 && key != "BTC" && key != "ETH" ==> levels.0[1] < levels.0[0] < price < levels.1[0] < levels.1[1]
    ensures key == "BTC" ==> levels == ([46500.0, 45000.0], [50000.0, 52000.0])
    ensures key == "ETH" ==> levels == ([2700.0, 2500.0], [3000.0, 3200.0])
    ensures key != "BTC" && key != "ETH" ==> levels == ([price * 0.92, price * 0.85], [price * 1.08, price * 1.15])
  {
    if key == "BTC" then ([46500.0, 45000.0], [50000.0, 52000.0])
    else if key == "ETH" then ([2700.0, 2500.0], [3000.0, 3200.0])
    else ([price * 0.92, price * 0.85], [price * 1.08, price * 1.15])
  }

  /** analyzeTrend */
  function AnalyzeTrend(symbol: string, timeframe: JsValue): (r: TextContent)
    ensures r.NotFound? <==> Lookup(symbol).None?
    ensures r.NotFound? ==> r == NotFound(symbol)
    ensures !r.NotFound? ==> r.TrendReport? && r.symbol == symbol && r.timeframe == timeframe
    ensures r.TrendReport? ==> (ToUpper(symbol), r.quote) in MarketData
    ensures r.TrendReport? ==> r.trend == ClassifyTrend(r.quote.changePercent)
    ensures r.TrendReport? ==> (r.support, r.resistance) == TrendLevels(ToUpper(symbol), r.quote.price)
    ensures r.TrendReport? ==>
      && |r.support| == 2 && |r.resistance| == 2
      && r.support[1] < r.support[0] < r.quote.price < r.resistance[0] < r.resistance[1]
  {
    match Lookup(symbol)
    case None => NotFound(symbol)
    case Some(q) =>
      LookupIgnoresCase(symbol);
      MarketDataWellFormed();
      var levels := TrendLevels(ToUpper(symbol), q.price);
      TrendReport(symbol, timeframe, ClassifyTrend(q.changePercent), q, levels.0, levels.1)
  }

  /** The mock RSI: 45 plus three times the day's change in percent. */
  function Rsi(changePercent: real): real {
    45.0 + changePercent * 3.0
  }

  /** calculateRSI's status rule. */
  function RsiStatusOf(rsi: real): (s: RsiStatus)
    ensures s == Overbought <==> rsi > 70.0
    ensures s == Oversold <==> rsi < 30.0
    ensures s == RsiNeutral <==> 30.0 <= rsi <= 70.0
  {
    if rsi > 70.0 then Overbought else if rsi < 30.0 then Oversold else RsiNeutral
  }

  /** In terms of the change itself: overbought above +25/3 %, oversold below -5 %. */
  lemma RsiStatusByChange(changePercent: real)
    ensures RsiStatusOf(Rsi(changePercent)) == Overbought <==> changePercent > 25.0 / 3.0
    ensures RsiStatusOf(Rsi(changePercent)) == Oversold <==> changePercent < -5.0
  {
  }

  /** calculateRSI: the period is only echoed; it does not enter the value. */
  function CalculateRsi(symbol: string, period: JsValue): (r: TextContent)
    ensures r.NotFound? <==> Lookup(symbol).None?
    ensures r.NotFound? ==> r == NotFound(symbol)
    ensures !r.NotFound? ==> r.RsiReport? && r.symbol == symbol && r.period == period
    ensures r.RsiReport? ==> r.rsi == Rsi(Lookup(symbol).value.changePercent) && r.status == RsiStatusOf(r.rsi)
  {
    match Lookup(symbol)
    case None => NotFound(symbol)
    case Some(q) =>
      var rsi := Rsi(q.changePercent);
      RsiReport(symbol, period, rsi, RsiStatusOf(rsi))
  }

  /** For the table's own assets, only XRP reads overbought and none oversold. */
  lemma TableRsiStatuses()
    ensures forall i :: 0 <= i < |MarketData| ==>
      (RsiStatusOf(Rsi(MarketData[i].1.changePercent)) == Overbought <==> MarketData[i].0 == "XRP")
    ensures forall i :: 0 <= i < |MarketData| ==> RsiStatusOf(Rsi(MarketData[i].1.changePercent)) != Oversold
  {
  }

  const SupportFactors: seq<real> := [0.96, 0.92, 0.85]
  const ResistanceFactors: seq<real> := [1.04, 1.08, 1.15]

  /** getSupportResistance's three supports and three resistances around a price. */
  function KeyLevels(price: real): (levels: (seq<real>, seq<real>))
    ensures |levels.0| == 3 && |levels.1| == 3
    ensures forall k :: 0 <= k < 3 ==> levels.0[k] == price * SupportFactors[k] && levels.1[k] == price * ResistanceFactors[k]
    ensures price > 0.0 ==> levels.0[2] < levels.0[1] < levels.0[0] < price < levels.1[0] < levels.1[1] < levels.1[2]
  {
    ([price * 0.96, price * 0.92, price * 0.85], [price * 1.04, price * 1.08, price * 1.15])
  }

  /** getSupportResistance */
  function GetSupportResistance(symbol: string): (r: TextContent)
    ensures r.NotFound? <==> Lookup(symbol).None?
    ensures r.NotFound? ==> r == NotFound(symbol)
    ensures !r.NotFound? ==> r.LevelsReport? && r.symbol == symbol && r.price == Lookup(symbol).value.price
    ensures r.LevelsReport? ==> (r.support, r.resistance) == KeyLevels(r.price)
    ensures r.LevelsReport? ==>
      && |r.support| == 3 && |r.resistance| == 3
      && r.support[2] < r.support[1] < r.support[0] < r.price < r.resistance[0] < r.resistance[1] < r.resistance[2]
  {
    match Lookup(symbol)
    case None => NotFound(symbol)
    case Some(q) =>
      LookupIgnoresCase(symbol);
      MarketDataWellFormed();
      var levels := KeyLevels(q.price);
      LevelsReport(symbol, q.price, levels.0, levels.1)
  }

  // ---------------------------------------------------------------------------
  // processToolCall

  /** The tools whose body upper-cases `args.symbol`. */
  const SymbolTools: set<string> := {"get_price", "analyze_trend", "calculate_rsi", "get_support_resistance"}

  /** What the dispatcher takes for granted about the arguments it casts: a tool
      that reads `symbol` gets a string there (anything else makes
      `symbol.toUpperCase()` throw), and a truthy `limit` is a number. */
  predicate ArgumentsCastable(name: string, args: map<string, JsValue>) {
    && (name in SymbolTools ==> Arg(args, "symbol").JsString?)
    && (name == "get_market_overview" ==> Falsy(Arg(args, "limit")) || Arg(args, "limit").JsNumber?)
  }

  /** The tools that need a symbol are exactly those whose schema requires one. */
  lemma SymbolToolsRequireSymbol()
    ensures forall t :: t in Catalogue ==> (t.name in SymbolTools <==> "symbol" in t.required)
    ensures forall n :: n in SymbolTools ==> n in ToolNames(Catalogue)
  {
  }

  /** The kind of report each tool body answers with (or its not-found error). */
  predicate AnswersTool(name: string, c: TextContent) {
    if name == "get_price" then c.PriceReport? || c.NotFound?
    else if name == "get_market_overview" then c.MarketOverview?
    else if name == "analyze_trend" then c.TrendReport? || c.NotFound?
    else if name == "calculate_rsi" then c.RsiReport? || c.NotFound?
    else if name == "get_support_resistance" then c.LevelsReport? || c.NotFound?
    else c == UnknownTool(name)
  }

  /** processToolCall: routes a tool name to its body, filling falsy `limit`,
      `timeframe` and `period` with 5, '1d' and 14, and answers any other name
      with `Unknown tool: <name>`. */
  function ProcessToolCall(name: string, args: map<string, JsValue>): (r: ToolResponse)
    requires ArgumentsCastable(name, args)
    ensures r.kind == "tool_result" && |r.content| == 1
    ensures r.content[0].UnknownTool? <==> name !in ToolNames(Catalogue)
    ensures r.content[0].UnknownTool? ==> r.content[0].name == name
    ensures AnswersTool(name, r.content[0])
    ensures name in SymbolTools ==>
      (r.content[0].NotFound? <==> Lookup(Arg(args, "symbol").s).None?)
      && (r.content[0].NotFound? ==> r.content[0].symbol == Arg(args, "symbol").s)
    ensures name == "get_market_overview" ==>
      r.content[0].MarketOverview?
      && r.content[0].limit == (if Falsy(Arg(args, "limit")) then 5.0 else Arg(args, "limit").n)
    ensures name == "analyze_trend" && r.content[0].TrendReport? ==>
      r.content[0].timeframe == (if Falsy(Arg(args, "timeframe")) then JsString("1d") else Arg(args, "timeframe"))
    ensures name == "calculate_rsi" && r.content[0].RsiReport? ==>
      r.content[0].period == (if Falsy(Arg(args, "period")) then JsNumber(14.0) else Arg(args, "period"))
    ensures name == "get_price" ==> r.content[0] == GetPrice(Arg(args, "symbol").s)
    ensures name == "get_market_overview" ==>
      r.content[0] == GetMarketOverview(if Falsy(Arg(args, "limit")) then 5.0 else Arg(args, "limit").n)
    ensures name == "analyze_trend" ==>
      r.content[0] == AnalyzeTrend(Arg(args, "symbol").s, if Falsy(Arg(args, "timeframe")) then JsString("1d") else Arg(args, "timeframe"))
    ensures name == "calculate_rsi" ==>
      r.content[0] == CalculateRsi(Arg(args, "symbol").s, if Falsy(Arg(args, "period")) then JsNumber(14.0) else Arg(args, "period"))
    ensures name == "get_support_resistance" ==> r.content[0] == GetSupportResistance(Arg(args, "symbol").s)
  {
    RunToolAnswers(name, args);
    ToolResponse("tool_result", [RunTool(name, args)])
  }

  /** The switch on the tool name inside `processToolCall`: each catalogue name
      runs its own body on `args.symbol` and the defaulted optional argument;
      any other name yields the `Unknown tool` item. */
  function RunTool(name: string, args: map<string, JsValue>): (c: TextContent)
    requires ArgumentsCastable(name, args)
    ensures c.UnknownTool? <==> name !in ToolNames(Catalogue)
    ensures name !in ToolNames(Catalogue) ==> c == UnknownTool(name)
    ensures name == "get_price" ==> c == GetPrice(Arg(args, "symbol").s)
    ensures name == "get_market_overview" ==>
      c == GetMarketOverview(if Falsy(Arg(args, "limit")) then 5.0 else Arg(args, "limit").n)
    ensures name == "analyze_trend" ==>
      c == AnalyzeTrend(Arg(args, "symbol").s, if Falsy(Arg(args, "timeframe")) then JsString("1d") else Arg(args, "timeframe"))
    ensures name == "calculate_rsi" ==>
      c == CalculateRsi(Arg(args, "symbol").s, if Falsy(Arg(args, "period")) then JsNumber(14.0) else Arg(args, "period"))
    ensures name == "get_support_resistance" ==> c == GetSupportResistance(Arg(args, "symbol").s)
  {
    CatalogueShape();
    if name == "get_price" then GetPrice(Arg(args, "symbol").s)
    else if name == "get_market_overview" then GetMarketOverview(Or(Arg(args, "limit"), JsNumber(5.0)).n)
    else if name == "analyze_trend" then AnalyzeTrend(Arg(args, "symbol").s, Or(Arg(args, "timeframe"), JsString("1d")))
    else if name == "calculate_rsi" then CalculateRsi(Arg(args, "symbol").s, Or(Arg(args, "period"), JsNumber(14.0)))
    else if name == "get_support_resistance" then GetSupportResistance(Arg(args, "symbol").s)
    else UnknownTool(name)
  }

  /** What each branch of the switch answers: the report kind of its tool, a
      not-found error exactly when the symbol is not stored, and the defaulted
      optional argument echoed in the report. */
  lemma RunToolAnswers(name: string, args: map<string, JsValue>)
    requires ArgumentsCastable(name, args)
    ensures AnswersTool(name, RunTool(name, args))
    ensures name in SymbolTools ==>
      (RunTool(name, args).NotFound? <==> Lookup(Arg(args, "symbol").s).None?)
      && (RunTool(name, args).NotFound? ==> RunTool(name, args).symbol == Arg(args, "symbol").s)
    ensures name == "get_market_overview" ==>
      RunTool(name, args).MarketOverview?
      && RunTool(name, args).limit == (if Falsy(Arg(args, "limit")) then 5.0 else Arg(args, "limit").n)
    ensures name == "analyze_trend" && RunTool(name, args).TrendReport? ==>
      RunTool(name, args).timeframe == (if Falsy(Arg(args, "timeframe")) then JsString("1d") else Arg(args, "timeframe"))
    ensures name == "calculate_rsi" && RunTool(name, args).RsiReport? ==>
      RunTool(name, args).period == (if Falsy(Arg(args, "period")) then JsNumber(14.0) else Arg(args, "period"))
  {
    var c := RunTool(name, args);
    if name == "get_price" {
      assert c == GetPrice(Arg(args, "symbol").s);
    } else if name == "get_market_overview" {
      assert c.MarketOverview?;
    } else if name == "analyze_trend" {
      assert c == AnalyzeTrend(Arg(args, "symbol").s, Or(Arg(args, "timeframe"), JsString("1d")));
    } else if name == "calculate_rsi" {
      assert c == CalculateRsi(Arg(args, "symbol").s, Or(Arg(args, "period"), JsNumber(14.0)));
    } else if name == "get_support_resistance" {
      assert c == GetSupportResistance(Arg(args, "symbol").s);
    } else {
      CatalogueShape();
    }
  }

  /** A name outside the catalogue never reaches a tool body: whatever the
      arguments, the answer is the same single `Unknown tool` item. */
  lemma UnknownToolIgnoresArguments(name: string, args1: map<string, JsValue>, args2: map<string, JsValue>)
    requires name !in ToolNames(Catalogue)
    ensures ProcessToolCall(name, args1) == ProcessToolCall(name, args2) == ToolResponse("tool_result", [UnknownTool(name)])
  {
  }
}
