/**
  The technical-analysis endpoint's GET: query defaults, the two-level lookup
  of support and resistance levels with its fallbacks, and the two classifiers
  (MACD to trend, RSI to recommendation), stated as functions of the random
  draws the handler makes.
 */
module TechnicalRoute {
  import opened Wrappers
  import opened JsBuiltins

  /** A level table: symbol, then timeframe, then three price levels. */
  type LevelTable = seq<(string, seq<(string, seq<real>)>)>

  const SupportTable: LevelTable := [
    ("BTC", [("1d", [46500.0, 45000.0, 43000.0]), ("4h", [47500.0, 46500.0, 45000.0])]),
    ("ETH", [("1d", [2700.0, 2500.0, 2300.0]), ("4h", [2750.0, 2700.0, 2600.0])]),
    ("SOL", [("1d", [170.0, 150.0, 130.0]), ("4h", [180.0, 170.0, 150.0])]),
    ("XRP", [("1d", [1.95, 1.75, 1.50]), ("4h", [2.05, 1.95, 1.75])])
  ]

  const ResistanceTable: LevelTable := [
    ("BTC", [("1d", [50000.0, 52000.0, 55000.0]), ("4h", [49000.0, 50000.0, 51000.0])]),
    ("ETH", [("1d", [3000.0, 3200.0, 3500.0]), ("4h", [2900.0, 3000.0, 3100.0])]),
    ("SOL", [("1d", [200.0, 220.0, 250.0]), ("4h", [190.0, 200.0, 215.0])]),
    ("XRP", [("1d", [2.35, 2.55, 2.85]), ("4h", [2.25, 2.35, 2.50])])
  ]

  const FallbackSupport: seq<real> := [40000.0, 35000.0, 30000.0]
  const FallbackResistance: seq<real> := [60000.0, 70000.0, 80000.0]

  // ---------------------------------------------------------------------------
  // Query parameters

  /** `searchParams.get('symbol')?.toUpperCase() || 'BTC'`: never empty, never
      holding a lower-case ASCII letter. */
  function SymbolParam(q: Option<string>): (s: string)
    ensures s == UpperCasedParam(q, "BTC")
    ensures s != "" && forall i :: 0 <= i < |s| ==> !IsLowerAscii(s[i])
    ensures s !in ObjectPrototypeMembers
  {
    UpperCasedIsNoPrototypeMember(UpperCasedParam(q, "BTC"));
    UpperCasedParam(q, "BTC")
  }

  /** `searchParams.get('timeframe') || '1d'` */
  function TimeframeParam(q: Option<string>): (t: string)
    ensures q.None? || q.value == "" ==> t == "1d"
    ensures q.Some? && q.value != "" ==> t == q.value
  {
    match q
    case None => "1d"
    case Some(v) => if v == "" then "1d" else v
  }

  // ---------------------------------------------------------------------------
  // The level lookup as written: `TABLE[symbol]?.[timeframe] || fallback`

  /** The properties every object literal inherits from Object.prototype. */
  const ObjectPrototypeMembers: set<string> := {
    "constructor", "hasOwnProperty", "isPrototypeOf", "propertyIsEnumerable",
    "toLocaleString", "toString", "valueOf", "__proto__",
    "__defineGetter__", "__defineSetter__", "__lookupGetter__", "__lookupSetter__"
  }

  /** No upper-cased symbol can name an inherited member: each has a lower-case letter. */
  lemma UpperCasedIsNoPrototypeMember(s: string)
    requires forall i :: 0 <= i < |s| ==> !IsLowerAscii(s[i])
    ensures s !in ObjectPrototypeMembers
  {
    if s in ObjectPrototypeMembers {
      assert IsLowerAscii(s[|s| - 3]);
    }
  }

  /** Every inherited member name is at least seven characters long. */
  lemma ShortNameIsNoPrototypeMember(s: string)
    requires |s| < 7
    ensures s !in ObjectPrototypeMembers
  {
  }

  /** What the expression evaluates to: a level list, or an inherited member of
      Object.prototype (a function or object, which `||` keeps because it is truthy). */
  datatype LevelsValue = LevelList(levels: seq<real>) | PrototypeMember(name: string)

  /** The lookup as the handler writes it. The second index is the timeframe as
      given, so a timeframe such as "constructor" or "toString" reaches an
      inherited member of the per-symbol object instead of the fallback. */
  function LookupLevelsAsWritten(table: LevelTable, symbol: string, timeframe: string, fallback: seq<real>): (v: LevelsValue)
    requires symbol !in ObjectPrototypeMembers
    ensures v.PrototypeMember? <==> Get(table, symbol).Some? && Get(Get(table, symbol).value, timeframe).None? && timeframe in ObjectPrototypeMembers
  {
    match Get(table, symbol)
    case None => LevelList(fallback)
    case Some(byTimeframe) =>
      match Get(byTimeframe, timeframe)
      case Some(levels) => LevelList(levels)
      case None => if timeframe in ObjectPrototypeMembers then PrototypeMember(timeframe) else LevelList(fallback)
  }

  /** The discrepancy: for BTC with timeframe "constructor" the support is not a
      list of levels at all, although the timeframe is unknown. */
  lemma PrototypeTimeframeBypassesFallback()
    ensures LookupLevelsAsWritten(SupportTable, "BTC", "constructor", FallbackSupport) == PrototypeMember("constructor")
    ensures LookupLevelsAsWritten(ResistanceTable, "BTC", "toString", FallbackResistance) == PrototypeMember("toString")
    ensures LookupLevels(SupportTable, "BTC", "constructor", FallbackSupport) == FallbackSupport
  {
  }

  // ---------------------------------------------------------------------------
  // The lookup as intended: own properties only

  /** The levels stored for (symbol, timeframe), or the fallback. */
  function LookupLevels(table: LevelTable, symbol: string, timeframe: string, fallback: seq<real>): (levels: seq<real>)
    ensures Get(table, symbol).Some? && Get(Get(table, symbol).value, timeframe).Some? ==>
      levels == Get(Get(table, symbol).value, timeframe).value
    ensures Get(table, symbol).None? || Get(Get(table, symbol).value, timeframe).None? ==> levels == fallback
  {
    match Get(table, symbol)
    case None => fallback
    case Some(byTimeframe) =>
      match Get(byTimeframe, timeframe)
      case Some(levels) => levels
      case None => fallback
  }

  /** Wherever the timeframe is not an inherited member name, the handler's
      lookup is the own-property lookup. */
  lemma AsWrittenAgreesOffPrototype(table: LevelTable, symbol: string, timeframe: string, fallback: seq<real>)
    requires symbol !in ObjectPrototypeMembers && timeframe !in ObjectPrototypeMembers
    ensures LookupLevelsAsWritten(table, symbol, timeframe, fallback) == LevelList(LookupLevels(table, symbol, timeframe, fallback))
  {
  }

  predicate StrictlyDecreasing3(l: seq<real>) {
    |l| == 3 && l[0] > l[1] > l[2]
  }

  predicate StrictlyIncreasing3(l: seq<real>) {
    |l| == 3 && l[0] < l[1] < l[2]
  }

  /** Row i of a support table and of a resistance table: the same timeframes,
      distinct, each with a decreasing support list below an increasing
      resistance list, neither equal to its fallback. */
  predicate RowsAligned(st: seq<(string, seq<real>)>, rt: seq<(string, seq<real>)>, fs: seq<real>, fr: seq<real>) {
    && KeysOf(st) == KeysOf(rt) && DistinctKeys(st)
    && forall j :: 0 <= j < |st| ==>
      && StrictlyDecreasing3(st[j].1) && StrictlyIncreasing3(rt[j].1) && st[j].1[0] < rt[j].1[0]
      && st[j].1 != fs && rt[j].1 != fr
  }

  /** A support table and a resistance table over the same symbols, row by row aligned. */
  predicate TablesAligned(st: LevelTable, rt: LevelTable, fs: seq<real>, fr: seq<real>) {
    && KeysOf(st) == KeysOf(rt) && DistinctKeys(st)
    && forall i :: 0 <= i < |st| ==> RowsAligned(st[i].1, rt[i].1, fs, fr)
  }

  /** The lookups of a symbol found at row i of aligned tables. */
  lemma {:induction false} RowLookupsOrdered(st: LevelTable, rt: LevelTable, fs: seq<real>, fr: seq<real>, i: nat, timeframe: string)
    requires KeysOf(st) == KeysOf(rt) && DistinctKeys(st)
    requires i < |st| && RowsAligned(st[i].1, rt[i].1, fs, fr)
    requires StrictlyDecreasing3(fs) && StrictlyIncreasing3(fr) && fs[0] < fr[0]
    ensures var s := LookupLevels(st, st[i].0, timeframe, fs);
      var r := LookupLevels(rt, st[i].0, timeframe, fr);
      && StrictlyDecreasing3(s) && StrictlyIncreasing3(r) && s[0] < r[0]
      && (s == fs <==> r == fr)
      && (s == fs <==> timeframe !in KeysOf(st[i].1))
  {
    SameKeysSameEntry(st, rt, i);
    var srow, rrow := st[i].1, rt[i].1;
    if timeframe in KeysOf(srow) {
      var j :| 0 <= j < |srow| && KeysOf(srow)[j] == timeframe;
      SameKeysSameEntry(srow, rrow, j);
    } else {
      SameKeysSameMiss(srow, rrow, timeframe);
    }
  }

  /** For aligned tables and ordered fallbacks, the two lookups fall back together
      and always give ordered lists, the first support below the first resistance. */
  lemma {:induction false} AlignedLookupsOrdered(st: LevelTable, rt: LevelTable, fs: seq<real>, fr: seq<real>, symbol: string, timeframe: string)
    requires TablesAligned(st, rt, fs, fr)
    requires StrictlyDecreasing3(fs) && StrictlyIncreasing3(fr) && fs[0] < fr[0]
    ensures var s := LookupLevels(st, symbol, timeframe, fs);
      var r := LookupLevels(rt, symbol, timeframe, fr);
      && StrictlyDecreasing3(s) && StrictlyIncreasing3(r) && s[0] < r[0]
      && (s == fs <==> r == fr)
      && (s == fs <==> symbol !in KeysOf(st) || timeframe !in KeysOf(Get(st, symbol).value))
  {
    if symbol in KeysOf(st) {
      var i :| 0 <= i < |st| && KeysOf(st)[i] == symbol;
      assert RowsAligned(st[i].1, rt[i].1, fs, fr);
      RowLookupsOrdered(st, rt, fs, fr, i, timeframe);
      GetIsTheEntry(st, i);
    } else {
      SameKeysSameMiss(st, rt, symbol);
    }
  }

  lemma RowAligned(i: nat)
    requires i < 4
    ensures RowsAligned(SupportTable[i].1, ResistanceTable[i].1, FallbackSupport, FallbackResistance)
    ensures KeysOf(SupportTable[i].1) == ["1d", "4h"]
  {
    var st, rt := SupportTable[i].1, ResistanceTable[i].1;
    assert |st| == 2 && |rt| == 2;
    assert KeysOf(st) == [st[0].0, st[1].0];
    assert KeysOf(rt) == [rt[0].0, rt[1].0];
  }

  /** The handler's two tables are aligned: same symbols, same timeframes (1d
      and 4h for each), ordered lists. */
  lemma LevelTablesAligned()
    ensures TablesAligned(SupportTable, ResistanceTable, FallbackSupport, FallbackResistance)
    ensures KeysOf(SupportTable) == ["BTC", "ETH", "SOL", "XRP"]
    ensures forall i :: 0 <= i < |SupportTable| ==> KeysOf(SupportTable[i].1) == ["1d", "4h"]
  {
    assert KeysOf(SupportTable) == [SupportTable[0].0, SupportTable[1].0, SupportTable[2].0, SupportTable[3].0];
    assert KeysOf(ResistanceTable) == [ResistanceTable[0].0, ResistanceTable[1].0, ResistanceTable[2].0, ResistanceTable[3].0];
    forall i | 0 <= i < |SupportTable|
      ensures RowsAligned(SupportTable[i].1, ResistanceTable[i].1, FallbackSupport, FallbackResistance)
      ensures KeysOf(SupportTable[i].1) == ["1d", "4h"]
    {
      RowAligned(i);
    }
  }

  /** The handler's lookups: ordered lists, the fallback exactly when the table
      has no entry for (symbol, timeframe). */
  lemma LookupsOrdered(symbol: string, timeframe: string)
    ensures var s := LookupLevels(SupportTable, symbol, timeframe, FallbackSupport);
      var r := LookupLevels(ResistanceTable, symbol, timeframe, FallbackResistance);
      && StrictlyDecreasing3(s) && StrictlyIncreasing3(r) && s[0] < r[0]
      && (s == FallbackSupport <==> symbol !in KeysOf(SupportTable) || timeframe !in ["1d", "4h"])
      && (r == FallbackResistance <==> symbol !in KeysOf(SupportTable) || timeframe !in ["1d", "4h"])
  {
    LevelTablesAligned();
    AlignedLookupsOrdered(SupportTable, ResistanceTable, FallbackSupport, FallbackResistance, symbol, timeframe);
    if symbol in KeysOf(SupportTable) {
      var i :| 0 <= i < |SupportTable| && KeysOf(SupportTable)[i] == symbol;
      GetIsTheEntry(SupportTable, i);
    }
  }

  /** The supports for a symbol and timeframe: three, strictly decreasing; the
      fallback exactly when the table has no entry for the pair. */
  function SupportLevels(symbol: string, timeframe: string): (levels: seq<real>)
    ensures StrictlyDecreasing3(levels)
    ensures levels == FallbackSupport <==> symbol !in KeysOf(SupportTable) || timeframe !in ["1d", "4h"]
  {
    LookupsOrdered(symbol, timeframe);
    LookupLevels(SupportTable, symbol, timeframe, FallbackSupport)
  }

  /** The resistances for a symbol and timeframe: three, strictly increasing,
      the first above the first support; the fallback exactly when the table has
      no entry for the pair. */
  function ResistanceLevels(symbol: string, timeframe: string): (levels: seq<real>)
    ensures StrictlyIncreasing3(levels)
    ensures SupportLevels(symbol, timeframe)[0] < levels[0]
    ensures levels == FallbackResistance <==> symbol !in KeysOf(SupportTable) || timeframe !in ["1d", "4h"]
  {
    LookupsOrdered(symbol, timeframe);
    LookupLevels(ResistanceTable, symbol, timeframe, FallbackResistance)
  }

  // ---------------------------------------------------------------------------
  // Classifiers

  datatype Trend = Bullish | Bearish | Neutral

  datatype Recommendation = StrongBuy | Buy | Hold | Sell | StrongSell

  /** The MACD value's trend: bullish above 0, bearish below -0.2. */
  function MacdTrend(macd: real): (t: Trend)
    ensures t == Bullish <==> macd > 0.0
    ensures t == Bearish <==> macd < -0.2
    ensures t == Neutral <==> -0.2 <= macd <= 0.0
  {
    if macd > 0.0 then Bullish else if macd < -0.2 then Bearish else Neutral
  }

  /** The RSI's recommendation: sell above 70, buy below 30, hold otherwise. */
  function Recommend(rsi: real): (r: Recommendation)
    ensures r == Sell <==> rsi > 70.0
    ensures r == Buy <==> rsi < 30.0
    ensures r == Hold <==> 30.0 <= rsi <= 70.0
    ensures r != StrongBuy && r != StrongSell
  {
    if rsi > 70.0 then Sell else if rsi < 30.0 then Buy else Hold
  }

  // ---------------------------------------------------------------------------
  // The lookup as written, on the handler's tables

  /** In a table whose stored timeframes are 1d and 4h only, the lookup as
      written yields an inherited member exactly when the symbol is stored and
      the timeframe names a member of Object.prototype. */
  lemma AsWrittenPrototypeCase(table: LevelTable, fallback: seq<real>, symbol: string, timeframe: string)
    requires forall i :: 0 <= i < |table| ==> KeysOf(table[i].1) == ["1d", "4h"]
    requires symbol !in ObjectPrototypeMembers
    ensures LookupLevelsAsWritten(table, symbol, timeframe, fallback).PrototypeMember? <==>
      symbol in KeysOf(table) && timeframe in ObjectPrototypeMembers
  {
    var row: Option<seq<(string, seq<real>)>> := Get(table, symbol);
    if row.Some? {
      var i :| 0 <= i < |table| && table[i] == (symbol, row.value);
      assert KeysOf(table)[i] == symbol;
      if timeframe in ObjectPrototypeMembers {
        StoredTimeframesAreNoPrototypeMembers(table[i].1, timeframe);
      }
    } else {
      assert forall k :: 0 <= k < |table| ==> table[k].0 == KeysOf(table)[k];
    }
  }

  /** A row storing 1d and 4h has no entry under an inherited member name. */
  lemma StoredTimeframesAreNoPrototypeMembers(row: seq<(string, seq<real>)>, timeframe: string)
    requires KeysOf(row) == ["1d", "4h"]
    requires timeframe in ObjectPrototypeMembers
    ensures Get(row, timeframe).None?
  {
    ShortNameIsNoPrototypeMember("1d");
    ShortNameIsNoPrototypeMember("4h");
    assert forall k :: 0 <= k < |row| ==> row[k].0 == KeysOf(row)[k];
  }

  /** On the handler's tables, the lookup as written yields an inherited member
      exactly when the symbol is stored and the timeframe names a member of
      Object.prototype (no stored timeframe does); otherwise it yields the
      intended levels. */
  lemma AsWrittenOnLevelTables(symbol: string, timeframe: string)
    requires symbol !in ObjectPrototypeMembers
    ensures var s := LookupLevelsAsWritten(SupportTable, symbol, timeframe, FallbackSupport);
      var r := LookupLevelsAsWritten(ResistanceTable, symbol, timeframe, FallbackResistance);
      && (s.PrototypeMember? <==> symbol in KeysOf(SupportTable) && timeframe in ObjectPrototypeMembers)
      && (r.PrototypeMember? <==> symbol in KeysOf(SupportTable) && timeframe in ObjectPrototypeMembers)
      && (timeframe !in ObjectPrototypeMembers ==>
            s == LevelList(SupportLevels(symbol, timeframe)) && r == LevelList(ResistanceLevels(symbol, timeframe)))
  {
    LevelTablesAligned();
    AsWrittenPrototypeCase(SupportTable, FallbackSupport, symbol, timeframe);
    forall i | 0 <= i < |ResistanceTable| ensures KeysOf(ResistanceTable[i].1) == ["1d", "4h"] {
      assert RowsAligned(SupportTable[i].1, ResistanceTable[i].1, FallbackSupport, FallbackResistance);
    }
    AsWrittenPrototypeCase(ResistanceTable, FallbackResistance, symbol, timeframe);
    if timeframe !in ObjectPrototypeMembers {
      AsWrittenAgreesOffPrototype(SupportTable, symbol, timeframe, FallbackSupport);
      AsWrittenAgreesOffPrototype(ResistanceTable, symbol, timeframe, FallbackResistance);
    }
  }

  // ---------------------------------------------------------------------------
  // GET

  /** The seven `Math.random()` results the handler draws, in [0, 1). */
  datatype Draws = Draws(rsi: real, macd: real, sma20: real, sma50: real, sma200: real, strength: real, confidence: real)

  datatype TechnicalAnalysis = TechnicalAnalysis(
    symbol: string, timeframe: string, trend: Trend,
    support: LevelsValue, resistance: LevelsValue,
    rsi: real, macdValue: real, macdSignal: real, macdHistogram: real,
    sma20: real, sma50: real, sma200: real,
    recommendation: Recommendation, strength: real, confidence: real)

  /** The response around given levels: every other field comes from the draws. */
  function Analysis(symbol: string, timeframe: string, support: LevelsValue, resistance: LevelsValue, d: Draws): TechnicalAnalysis {
    var rsi := 45.0 + d.rsi * 30.0;
    var macd := d.macd * 2.0 - 1.0;
    TechnicalAnalysis(
      symbol, timeframe, MacdTrend(macd), support, resistance,
      rsi, macd, macd - 0.05, 0.1,
      47800.0 + d.sma20 * 1000.0, 46500.0 + d.sma50 * 2000.0, 44000.0 + d.sma200 * 3000.0,
      Recommend(rsi), d.strength * 50.0 + 50.0, d.confidence * 30.0 + 70.0)
  }

  /** GET /api/analysis/technical for the `symbol` and `timeframe` query
      parameters, with the level lookups as written. */
  function HandleGet(symbolQ: Option<string>, timeframeQ: Option<string>, d: Draws): (r: TechnicalAnalysis)
    ensures r.symbol == SymbolParam(symbolQ) && r.timeframe == TimeframeParam(timeframeQ)
    ensures r.support == LookupLevelsAsWritten(SupportTable, r.symbol, r.timeframe, FallbackSupport)
    ensures r.resistance == LookupLevelsAsWritten(ResistanceTable, r.symbol, r.timeframe, FallbackResistance)
    ensures r.support.PrototypeMember? <==> r.symbol in KeysOf(SupportTable) && r.timeframe in ObjectPrototypeMembers
    ensures r.resistance.PrototypeMember? <==> r.symbol in KeysOf(SupportTable) && r.timeframe in ObjectPrototypeMembers
    ensures r.rsi == 45.0 + d.rsi * 30.0 && r.recommendation == Recommend(r.rsi)
    ensures r.macdValue == d.macd * 2.0 - 1.0 && r.trend == MacdTrend(r.macdValue)
    ensures r.macdSignal == r.macdValue - 0.05 && r.macdHistogram == 0.1
    ensures r.sma20 == 47800.0 + d.sma20 * 1000.0 && r.sma50 == 46500.0 + d.sma50 * 2000.0 && r.sma200 == 44000.0 + d.sma200 * 3000.0
    ensures r.strength == d.strength * 50.0 + 50.0 && r.confidence == d.confidence * 30.0 + 70.0
  {
    var symbol := SymbolParam(symbolQ);
    var timeframe := TimeframeParam(timeframeQ);
    UpperCasedIsNoPrototypeMember(symbol);
    AsWrittenOnLevelTables(symbol, timeframe);
    Analysis(symbol, timeframe,
      LookupLevelsAsWritten(SupportTable, symbol, timeframe, FallbackSupport),
      LookupLevelsAsWritten(ResistanceTable, symbol, timeframe, FallbackResistance), d)
  }

  /** The handler with the intended own-property lookups: the same response,
      except that every timeframe that is not stored gets the fallback levels. */
  function HandleGetIntended(symbolQ: Option<string>, timeframeQ: Option<string>, d: Draws): (r: TechnicalAnalysis)
    ensures var w := HandleGet(symbolQ, timeframeQ, d);
      r == w.(support := LevelList(SupportLevels(w.symbol, w.timeframe)),
               resistance := LevelList(ResistanceLevels(w.symbol, w.timeframe)))
    ensures r.timeframe !in ObjectPrototypeMembers ==> r == HandleGet(symbolQ, timeframeQ, d)
  {
    var symbol := SymbolParam(symbolQ);
    var timeframe := TimeframeParam(timeframeQ);
    UpperCasedIsNoPrototypeMember(symbol);
    AsWrittenOnLevelTables(symbol, timeframe);
    Analysis(symbol, timeframe,
      LevelList(SupportLevels(symbol, timeframe)), LevelList(ResistanceLevels(symbol, timeframe)), d)
  }

  /** With the RSI drawn from [45, 75), the handler never says buy, and says sell
      exactly when the draw exceeds 5/6. */
  lemma BuyUnreachable(symbolQ: Option<string>, timeframeQ: Option<string>, d: Draws)
    requires 0.0 <= d.rsi < 1.0
    ensures HandleGet(symbolQ, timeframeQ, d).recommendation != Buy
    ensures HandleGet(symbolQ, timeframeQ, d).recommendation == Sell <==> d.rsi > 5.0 / 6.0
  {
  }

  /** Unless the timeframe names an inherited member, a response carries three
      supports and three resistances, ordered away from each other, with the
      first support below the first resistance; the intended handler always does. */
  lemma ResponseLevelsOrdered(symbolQ: Option<string>, timeframeQ: Option<string>, d: Draws)
    ensures var r := HandleGet(symbolQ, timeframeQ, d);
      r.timeframe !in ObjectPrototypeMembers ==>
        && r.support.LevelList? && r.resistance.LevelList?
        && StrictlyDecreasing3(r.support.levels) && StrictlyIncreasing3(r.resistance.levels)
        && r.support.levels[0] < r.resistance.levels[0]
    ensures var r := HandleGetIntended(symbolQ, timeframeQ, d);
      && r.support.LevelList? && r.resistance.LevelList?
      && StrictlyDecreasing3(r.support.levels) && StrictlyIncreasing3(r.resistance.levels)
      && r.support.levels[0] < r.resistance.levels[0]
  {
    var w := HandleGet(symbolQ, timeframeQ, d);
    AsWrittenOnLevelTables(w.symbol, w.timeframe);
    var s, t := SupportLevels(w.symbol, w.timeframe), ResistanceLevels(w.symbol, w.timeframe);
    assert StrictlyDecreasing3(s) && StrictlyIncreasing3(t) && s[0] < t[0];
  }
}
