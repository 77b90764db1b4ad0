/**
  The price-prediction endpoint's GET: query defaults, the price and factor
  tables with their fallbacks, the direction classifier and the three
  scenarios, stated as functions of the random draws the handler makes.
 */
module PredictRoute {
  import opened Wrappers
  import opened JsBuiltins

  const CurrentPrices: seq<(string, real)> := [
    ("BTC", 48250.0), ("ETH", 2850.0), ("SOL", 185.5), ("XRP", 2.15), ("ADA", 0.95)
  ]

  datatype Factors = Factors(support: seq<string>, risks: seq<string>)

  const PredictionFactors: seq<(string, Factors)> := [
    ("BTC", Factors(
      ["Institutional adoption increasing", "Macro conditions improving", "Technical breakout pattern"],
      ["Regulatory concerns", "Geopolitical tensions", "Profit-taking at resistance"])),
    ("ETH", Factors(
      ["Layer 2 scaling success", "DeFi ecosystem growth", "NFT market expansion"],
      ["Competition from L1s", "Regulatory scrutiny", "Market consolidation"])),
    ("SOL", Factors(
      ["Network stability improvements", "Developer ecosystem growth", "NFT marketplace adoption"],
      ["Network outages risk", "Centralization concerns", "Competition"]))
  ]

  const GenericFactors: Factors := Factors(
    ["Market momentum", "Technical analysis", "Sentiment indicators"],
    ["Market volatility", "Regulatory changes", "Economic factors"])

  /** `CURRENT_PRICES[symbol] || 100`: always a positive price. */
  function CurrentPrice(symbol: string): (p: real)
    ensures p > 0.0
    ensures symbol !in KeysOf(CurrentPrices) ==> p == 100.0
    ensures symbol in KeysOf(CurrentPrices) ==> (symbol, p) in CurrentPrices
  {
    match Get(CurrentPrices, symbol)
    case Some(p) => p
    case None => 100.0
  }

  /** `PREDICTION_FACTORS[symbol] || generic`: three supporting and three risk
      factors, the table's for BTC, ETH and SOL and the generic ones otherwise. */
  function FactorsFor(symbol: string): (f: Factors)
    ensures |f.support| == 3 && |f.risks| == 3
    ensures symbol !in ["BTC", "ETH", "SOL"] ==> f == GenericFactors
    ensures symbol in ["BTC", "ETH", "SOL"] ==> (symbol, f) in PredictionFactors
  {
    assert KeysOf(PredictionFactors) == ["BTC", "ETH", "SOL"];
    match Get(PredictionFactors, symbol)
    case Some(f) => f
    case None => GenericFactors
  }

  /** XRP and ADA have a current price but only the generic factors. */
  lemma PricedButGeneric()
    ensures CurrentPrice("XRP") == 2.15 && FactorsFor("XRP") == GenericFactors
    ensures CurrentPrice("ADA") == 0.95 && FactorsFor("ADA") == GenericFactors
  {
    assert DistinctKeys(CurrentPrices);
    GetIsTheEntry(CurrentPrices, 3);
    GetIsTheEntry(CurrentPrices, 4);
  }

  datatype Direction = Up | Down | Neutral

  /** The direction of the unscaled change fraction: up above 0.5, down below -0.5. */
  function DirectionOf(change: real): (d: Direction)
    ensures d == Up <==> change > 0.5
    ensures d == Down <==> change < -0.5
    ensures d == Neutral <==> -0.5 <= change <= 0.5
  {
    if change > 0.5 then Up else if change < -0.5 then Down else Neutral
  }

  /** The three `Math.random()` results the handler draws, in [0, 1). */
  datatype Draws = Draws(volatility: real, trend: real, confidence: real)

  datatype Scenarios = Scenarios(bearishCase: real, baseCase: real, bullishCase: real)

  datatype PricePrediction = PricePrediction(
    symbol: string, hoursAhead: int, currentPrice: real, predictedPrice: real,
    changePercent: real, direction: Direction, confidence: real,
    scenarioAnalysis: Scenarios, supportingFactors: seq<string>, riskFactors: seq<string>)

  /** `Math.round(x * 100) / 100`: x to the cent. */
  function Cents(x: real): real {
    Round(x * 100.0) as real / 100.0
  }

  /** `Math.round(change * 10000) / 100`: the fraction as a percentage, to the cent. */
  function PercentToCents(change: real): real {
    Round(change * 10000.0) as real / 100.0
  }

  /** The volatility factor: 1 % to 9 % for a draw in [0, 1). */
  function Volatility(d: Draws): real {
    0.05 + (d.volatility - 0.5) * 0.08
  }

  /** The trend's sign: up for a draw above one half. */
  function TrendSign(d: Draws): real {
    if d.trend > 0.5 then 1.0 else -1.0
  }

  /** The change fraction: the signed volatility scaled by the horizon in days. */
  function ChangeFraction(hours: int, d: Draws): (change: real)
    ensures hours == 0 ==> change == 0.0
    ensures 0.0 <= d.volatility < 1.0 && hours > 0 ==> (change > 0.0 <==> d.trend > 0.5)
  {
    assert 0.0 <= d.volatility < 1.0 ==> Volatility(d) > 0.0;
    Volatility(d) * TrendSign(d) * (hours as real / 24.0)
  }

  /** `price * (1 + change)` */
  function Moved(price: real, change: real): real {
    price * (1.0 + change)
  }

  /** GET /api/analysis/predict. `hoursAhead` is the parsed query parameter, None
      when it was absent or empty. */
  function HandleGet(symbolQ: Option<string>, hoursAhead: Option<int>, d: Draws): (r: PricePrediction)
    ensures r.symbol == UpperCasedParam(symbolQ, "BTC")
    ensures r.hoursAhead == (if hoursAhead.Some? then hoursAhead.value else 24)
    ensures r.currentPrice == CurrentPrice(r.symbol)
    ensures var change := ChangeFraction(r.hoursAhead, d);
      && r.predictedPrice == Cents(Moved(r.currentPrice, change))
      && r.changePercent == PercentToCents(change)
      && r.direction == DirectionOf(change)
      && r.scenarioAnalysis == Scenarios(
           Cents(Moved(r.currentPrice, change - 0.02)),
           Cents(Moved(r.currentPrice, change)),
           Cents(Moved(r.currentPrice, change + 0.02)))
    ensures r.confidence == 0.65 + d.confidence * 0.3
    ensures r.supportingFactors == FactorsFor(r.symbol).support && r.riskFactors == FactorsFor(r.symbol).risks
    ensures r.scenarioAnalysis.bearishCase <= r.scenarioAnalysis.baseCase <= r.scenarioAnalysis.bullishCase
  {
    var symbol := UpperCasedParam(symbolQ, "BTC");
    var hours := if hoursAhead.Some? then hoursAhead.value else 24;
    var current := CurrentPrice(symbol);
    var change := ChangeFraction(hours, d);
    var predicted := Moved(current, change);
    var factors := FactorsFor(symbol);
    ScenariosOrdered(current, change);
    PricePrediction(
      symbol, hours, current, Cents(predicted),
      PercentToCents(change), DirectionOf(change),
      0.65 + d.confidence * 0.3,
      Scenarios(
        Cents(Moved(current, change - 0.02)),
        Cents(predicted),
        Cents(Moved(current, change + 0.02))),
      factors.support, factors.risks)
  }

  /** For a positive price the ±2 % scenarios stay on their side of the base
      case after rounding to cents. */
  lemma ScenariosOrdered(current: real, change: real)
    requires current > 0.0
    ensures Cents(Moved(current, change - 0.02)) <= Cents(Moved(current, change)) <= Cents(Moved(current, change + 0.02))
  {
    var base := Moved(current, change);
    assert Moved(current, change - 0.02) == base - current * 0.02;
    assert Moved(current, change + 0.02) == base + current * 0.02;
    RoundMonotone((base - current * 0.02) * 100.0, base * 100.0);
    RoundMonotone(base * 100.0, (base + current * 0.02) * 100.0);
  }

  /** With draws in [0, 1), the change fraction stays below 9 % per day of horizon,
      so for horizons up to 133 hours, the default 24 included, the direction is
      always neutral. */
  lemma NeutralForShortHorizons(symbolQ: Option<string>, hoursAhead: Option<int>, d: Draws)
    requires 0.0 <= d.volatility < 1.0
    requires hoursAhead.Some? ==> -133 <= hoursAhead.value <= 133
    ensures HandleGet(symbolQ, hoursAhead, d).direction == Neutral
  {
    var hours := if hoursAhead.Some? then hoursAhead.value else 24;
    var vt := Volatility(d) * TrendSign(d);
    var days := hours as real / 24.0;
    assert ChangeFraction(hours, d) == vt * days;
    assert -0.09 < vt < 0.09 by {
      assert 0.01 <= Volatility(d) < 0.09;
    }
    assert -133.0 / 24.0 <= days <= 133.0 / 24.0;
    BoundedProduct(vt, 0.09, days, 133.0 / 24.0);
    assert 0.09 * (133.0 / 24.0) < 0.5;
    var change := ChangeFraction(hours, d);
    assert -0.5 <= change <= 0.5;
    var r := HandleGet(symbolQ, hoursAhead, d);
    assert r.hoursAhead == hours;
    assert r.direction == DirectionOf(change);
  }

  /** |x| < a and |y| <= b give |x * y| <= a * b. */
  lemma BoundedProduct(x: real, a: real, y: real, b: real)
    requires -a < x < a && -b <= y <= b
    ensures -(a * b) <= x * y <= a * b
  {
    if y >= 0.0 {
      assert x * y <= a * y <= a * b;
      assert -(a * b) <= -(a * y) <= x * y;
    } else {
      assert x * y <= a * -y <= a * b;
      assert -(a * b) <= -(a * -y) <= x * y;
    }
  }

  /** A long enough horizon does move the direction: twenty days at the middle
      volatility with an upward draw gives up, with a downward one down. */
  lemma LongHorizonMoves()
    ensures HandleGet(None, Some(480), Draws(0.5, 0.9, 0.0)).direction == Up
    ensures HandleGet(None, Some(480), Draws(0.5, 0.1, 0.0)).direction == Down
  {
    assert ChangeFraction(480, Draws(0.5, 0.9, 0.0)) == 1.0;
    assert ChangeFraction(480, Draws(0.5, 0.1, 0.0)) == -1.0;
  }
}
