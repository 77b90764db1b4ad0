# CryptoPulse tool handlers in Dafny

This project models the request-handling core of the CryptoPulse AI crypto dashboard:

- **The MCP server.** It lists a catalogue of five tools and dispatches tool calls in `processToolCall`. The tools are `get_price`, `get_market_overview`, `analyze_trend`, `calculate_rsi` and `get_support_resistance`.
- **The chat endpoint's five agent tools.** These are `getCurrentPrice`, `getMarketData`, `analyzeTrend`, `getNews` and `predictPrice`, together with the agent's step bound.
- **The three HTTP GET handlers.** These are the market listing, the technical analysis and the price prediction.
- **The chat page.** This covers `extractMessageText` and the submit guard.

Every handler reads constant tables. A keyed table (an object literal) is modelled as the sequence of its (key, value) entries in source order. How each one is read:

- The market route's `MOCK_CRYPTOS` is an array of records, read with `find` (`MarketRoute.Find`).
- The technical route's level tables are read, as written, through `TechnicalRoute.LookupLevelsAsWritten`. It reaches inherited `Object.prototype` members for a timeframe such as "constructor" (see Findings).
- Every other keyed lookup uses an own-property lookup (`JsBuiltins.Get`). This is exact because their keys are upper-cased, and no inherited member name is upper case (`TechnicalRoute.UpperCasedIsNoPrototypeMember`).
- The one exception is the chat endpoint's `getMarketData`, whose key is not upper-cased. There, an inherited member spread into the entry adds no own properties, so the own-property lookup is still exact.

The JavaScript semantics the handlers rely on are written out in `JsBuiltins`:

- the falsy values that `||` skips;
- `toUpperCase`;
- `slice(0, end)`;
- `Math.round`;
- `trim`, with ECMAScript's white-space set.

Effects become parameters:

- each `Math.random()` result is a parameter (`Draws`, `rsiDraw`, ...);
- each clock reading is a parameter (`now` for the market listing; three separate readings, `ClockReadings`, for the news feed);
- a handler's text answer is a record of what it reports, not a formatted string.

Most of the core is pure, so it is modelled as functions and lemmas. The chat page's message list and input box change state, so they form a class, `ChatPage.ChatSession`, whose `Submit` method appends to its message list.

Modules:

| module | file | models |
|---|---|---|
| `Wrappers` | wrappers.dfy | `Option` |
| `JsBuiltins` | js_builtins.dfy | the JavaScript built-ins above |
| `McpServer` | mcp_server.dfy | mcp-server/src/index.ts |
| `ChatRoute` | chat_route.dfy | app/api/chat/route.ts |
| `MarketRoute` | market_route.dfy | app/api/market/route.ts |
| `TechnicalRoute` | technical_route.dfy | app/api/analysis/technical/route.ts |
| `PredictRoute` | predict_route.dfy | app/api/analysis/predict/route.ts |
| `ChatPage` | chat_page.dfy | app/page.tsx |

The code has no operation registry, no argument validator, no `isError` flag on results and no explicit step counter. In `processToolCall`:

- there is no validation;
- an unknown name yields a plain text item `Unknown tool: <name>` inside an ordinary `tool_result`;
- a missing symbol is cast and makes the body throw.

The chat endpoint passes `maxSteps: 10` to a library agent whose loop is not part of this repository, so that loop is left out and only its bound is kept (`ChatRoute.MaxSteps`).

## Model

| member | source | states |
|---|---|---|
| JsBuiltins.Falsy | mcp-server/src/index.ts:245-256 | the values `\|\|` skips are exactly undefined, null, false, 0, NaN and the empty string |
| JsBuiltins.Or | app/api/analysis/technical/route.ts:43-44 | `v \|\| fallback` is v when v is truthy and the fallback otherwise, so it is falsy only when both are |
| JsBuiltins.ToUpper | mcp-server/src/index.ts:106 | `toUpperCase` keeps the length, maps each character, and leaves no lower-case ASCII letter |
| JsBuiltins.ToUpperIdempotent | mcp-server/src/index.ts:146-155 | upper-casing an upper-cased symbol changes nothing, so comparing `symbol.toUpperCase()` with an upper-case key is case-insensitive |
| JsBuiltins.SliceCount | mcp-server/src/index.ts:121 | `slice(0, limit)` keeps `trunc(limit)` entries, capped at the length; a negative limit counts back from the end |
| JsBuiltins.Round | app/api/analysis/predict/route.ts:64-71 | `Math.round(x)` is the integer k with x - 0.5 < k <= x + 0.5 |
| JsBuiltins.RoundMonotone | app/api/analysis/predict/route.ts:69-71 | `Math.round` preserves order |
| JsBuiltins.TrimStart | app/page.tsx:70 | the suffix of s left after its leading white space, which does not start with white space |
| JsBuiltins.TrimEnd | app/page.tsx:70 | the prefix of s left before its trailing white space, which does not end with white space |
| JsBuiltins.Trim | app/page.tsx:70 | `trim` leaves a segment of s with only white space before and after it, and the segment neither starts nor ends with white space |
| JsBuiltins.TrimEmpty | app/page.tsx:70 | `input.trim()` is empty exactly when every character is white space |
| JsBuiltins.Get | mcp-server/src/index.ts:106 | an object-literal lookup is absent exactly when no entry has the key, and otherwise returns a stored entry's value |
| JsBuiltins.UpperCasedParam | app/api/analysis/predict/route.ts:45 | `get(name)?.toUpperCase() \|\| fallback` gives the fallback for an absent or empty parameter, else the non-empty upper case |
| McpServer.CatalogueShape | mcp-server/src/index.ts:23-102 | five tools in order under distinct names; every required field is a declared property; `symbol` is required by all tools but `get_market_overview`, which requires nothing |
| McpServer.SymbolToolsRequireSymbol | mcp-server/src/index.ts:23-102 | the tools whose bodies read `args.symbol` are exactly those whose schema requires it |
| McpServer.MarketDataWellFormed | mcp-server/src/index.ts:13-20 | `MARKET_DATA` has distinct, upper-case keys and positive prices |
| McpServer.LookupIgnoresCase | mcp-server/src/index.ts:106 | a symbol and its upper case find the same entry, which is the table's entry under the upper-case key |
| McpServer.Lookup | mcp-server/src/index.ts:106 | `MARKET_DATA[symbol.toUpperCase()]` is absent exactly when no key equals the upper-cased symbol, and otherwise is the entry stored under it |
| McpServer.GetPrice | mcp-server/src/index.ts:105-118 | not found exactly when the upper-cased symbol is no key, echoing the symbol; otherwise the table's quote for it |
| McpServer.GetMarketOverview | mcp-server/src/index.ts:120-133 | the overview is the first `slice(0, limit)` entries of the table, in table order, and echoes the limit |
| McpServer.OverviewLimits | mcp-server/src/index.ts:120-121 | the default limit 5 lists the first five assets without DOGE; a limit of 6 or more lists all six |
| McpServer.ClassifyTrend | mcp-server/src/index.ts:144 | bullish iff change >= 2 %, bearish iff change <= -2 %, neutral iff strictly between |
| McpServer.ClassifyTrendMonotone | mcp-server/src/index.ts:144 | a larger change never gives a more bearish trend |
| McpServer.TrendLevels | mcp-server/src/index.ts:145-156 | the fixed BTC and ETH levels; for any other key, supports at 92 % and 85 % and resistances at 108 % and 115 % of the price, in order around a positive price |
| McpServer.AnalyzeTrend | mcp-server/src/index.ts:135-170 | not found exactly when the lookup fails; otherwise the table quote, the classified trend, and the levels TrendLevels gives for the upper-cased symbol, two supports below the price below two resistances |
| McpServer.RsiStatusOf | mcp-server/src/index.ts:183 | overbought iff RSI > 70, oversold iff RSI < 30, neutral otherwise |
| McpServer.RsiStatusByChange | mcp-server/src/index.ts:182-183 | in terms of the change: overbought iff above 25/3 %, oversold iff below -5 % |
| McpServer.CalculateRsi | mcp-server/src/index.ts:172-193 | not found exactly when the lookup fails; otherwise RSI = 45 + 3 × change with its status, and the period echoed without being used |
| McpServer.TableRsiStatuses | mcp-server/src/index.ts:13-20 | of the table's assets only XRP reads overbought, and none reads oversold |
| McpServer.KeyLevels | mcp-server/src/index.ts:204-213 | three supports at 96/92/85 % and three resistances at 104/108/115 % of the price, strictly ordered around a positive price |
| McpServer.GetSupportResistance | mcp-server/src/index.ts:195-232 | not found exactly when the lookup fails; otherwise the table price with KeyLevels' three ordered supports below it and three ordered resistances above it |
| McpServer.ProcessToolCall | mcp-server/src/index.ts:234-273 | one `tool_result` item; `Unknown tool` exactly for names outside the catalogue; each catalogue name answered by its own tool body on `args.symbol`, with falsy limit, timeframe and period replaced by 5, '1d' and 14 |
| McpServer.RunTool | mcp-server/src/index.ts:238-267 | the switch: each catalogue name yields its own tool body on `args.symbol` and the defaulted limit (5), timeframe ('1d') or period (14); `Unknown tool` exactly for names outside the catalogue |
| McpServer.RunToolAnswers | mcp-server/src/index.ts:240-267 | each branch answers with its tool's report kind or a not-found error, the error exactly when the symbol is not stored, and echoes the defaulted limit, timeframe or period |
| McpServer.UnknownToolIgnoresArguments | mcp-server/src/index.ts:262-267 | an unknown name never reaches a body: the same single `Unknown tool` answer whatever the arguments |
| ChatRoute.GetCurrentPrice | app/api/chat/route.ts:12-27 | echoes the symbol in USD; the table price of the upper-cased symbol, 0 when it is no key |
| ChatRoute.CurrentPriceAgreesWithMcp | app/api/chat/route.ts:14-24 | the chat tool quotes the MCP server's price for every symbol, and 0 exactly where the MCP server reports not found |
| ChatRoute.EntriesFor | app/api/chat/route.ts:46-49 | one entry per requested symbol, in order, with the quote looked up case-sensitively |
| ChatRoute.GetMarketData | app/api/chat/route.ts:36-51 | timeframe defaults to 24h; the data holds one entry per symbol, in request order |
| ChatRoute.MarketDataCaseSensitive | app/api/chat/route.ts:37-49 | "btc" finds nothing while "BTC" finds Bitcoin; every quote found equals the MCP server's |
| ChatRoute.TimeframeEnums | app/api/chat/route.ts:34-58 | the two timeframe enums' values are the listed strings, with distinct names |
| ChatRoute.AnalyzeTrend | app/api/chat/route.ts:60-73 | timeframe defaults to 1d; bullish iff the symbol is exactly "BTC" or "SOL"; BTC's levels for "BTC", ETH's otherwise; RSI and MACD from the draws; always "hold" |
| ChatRoute.TrendLevelsBracketOnlyBtcAndEth | app/api/chat/route.ts:65-67 | of the market assets, only BTC's and ETH's prices lie between the support and resistance reported for them |
| ChatRoute.NewsFeed | app/api/chat/route.ts:86-104 | three items 1, 2, 3, stamped with the first clock reading, an hour before the second and two hours before the third |
| ChatRoute.NewsNewestFirst | app/api/chat/route.ts:91-103 | when successive clock readings lie less than an hour apart, the feed is strictly newest first |
| ChatRoute.GetNews | app/api/chat/route.ts:82-107 | `symbol \|\| 'general'`; limit defaults to 5 only when absent; count echoes the limit; news is the feed cut by `slice(0, limit)` |
| ChatRoute.NewsCount | app/api/chat/route.ts:82-105 | a non-negative limit gives min(trunc(limit), 3) items; the default gives the whole feed |
| ChatRoute.PredictionBase | app/api/chat/route.ts:117-123 | the table price of the upper-cased symbol, 100 when it is no key; always positive |
| ChatRoute.PredictPrice | app/api/chat/route.ts:116-134 | hoursAhead defaults to 24 and is only echoed; direction is up iff the move draw exceeds 0.5; the prediction is rounded to cents |
| ChatRoute.ScaledAbove | app/api/chat/route.ts:124-132 | for a positive price, price × (1 + d) > price iff d > 0, which makes the direction test a test on the draw |
| ChatRoute.PredictionWithinFivePercent | app/api/chat/route.ts:124-130 | with a draw in [0, 1), the predicted price is within 5 % of the current price, up to rounding to cents |
| MarketRoute.MockCryptosWellFormed | app/api/market/route.ts:14-65 | the table's symbols are distinct and upper case |
| MarketRoute.Find | app/api/market/route.ts:73 | `find` returns nothing iff no asset has the symbol, and otherwise the first asset that has it |
| MarketRoute.SumMarketCaps | app/api/market/route.ts:84 | the `reduce` over non-negative market caps never ends below its start, and over no assets is its start |
| MarketRoute.SumMarketCapsIsTotal | app/api/market/route.ts:84 | the `reduce` left fold from acc equals acc plus the element-wise total of the market caps |
| MarketRoute.HandleGet | app/api/market/route.ts:67-85 | no or empty symbol lists every asset with the total market cap; otherwise a 404 "Cryptocurrency not found" iff no asset has the upper-cased symbol, and otherwise an `AssetFound` answer holding an asset with that symbol |
| MarketRoute.FoundAssetIsUnique | app/api/market/route.ts:72-77 | at any clock reading, a symbol in any case whose upper case is an asset's symbol returns exactly that asset |
| MarketRoute.TotalMarketCap | app/api/market/route.ts:81-85 | the listing's total market cap is 1,526 billion |
| TechnicalRoute.SymbolParam | app/api/analysis/technical/route.ts:43 | the symbol defaults to BTC, is never empty, holds no lower-case ASCII letter and so never names an inherited member |
| TechnicalRoute.TimeframeParam | app/api/analysis/technical/route.ts:44 | the timeframe defaults to 1d when absent or empty, and is otherwise taken as given |
| TechnicalRoute.UpperCasedIsNoPrototypeMember | app/api/analysis/technical/route.ts:43-48 | an upper-cased symbol can never name an inherited member of Object.prototype |
| TechnicalRoute.LookupLevelsAsWritten | app/api/analysis/technical/route.ts:47-48 | the lookup as written yields an inherited member exactly when the symbol is a key, the timeframe is not one of its keys, and the timeframe names a member of Object.prototype |
| TechnicalRoute.PrototypeTimeframeBypassesFallback | app/api/analysis/technical/route.ts:47-48 | BTC with timeframe "constructor" or "toString" gets an inherited function instead of the fallback levels |
| TechnicalRoute.LookupLevels | app/api/analysis/technical/route.ts:47-48 | the levels stored for (symbol, timeframe), or the fallback when the table has none |
| TechnicalRoute.ShortNameIsNoPrototypeMember | app/api/analysis/technical/route.ts:47-48 | no name shorter than seven characters, such as a stored timeframe, is an inherited member |
| TechnicalRoute.AsWrittenAgreesOffPrototype | app/api/analysis/technical/route.ts:47-48 | off the inherited member names, the lookup as written and the own-property lookup agree |
| TechnicalRoute.LevelTablesAligned | app/api/analysis/technical/route.ts:27-39 | the two tables have the same symbols and timeframes (1d and 4h), with decreasing supports below increasing resistances |
| TechnicalRoute.LookupsOrdered | app/api/analysis/technical/route.ts:47-48 | both lookups give ordered lists, the first support below the first resistance, and fall back exactly when (symbol, timeframe) is not stored |
| TechnicalRoute.SupportLevels | app/api/analysis/technical/route.ts:47 | the intended support lookup: three strictly decreasing supports, the fallback exactly when the symbol is unknown or the timeframe is not 1d or 4h |
| TechnicalRoute.ResistanceLevels | app/api/analysis/technical/route.ts:48 | the intended resistance lookup: three strictly increasing resistances above the first support, the fallback exactly in the same cases |
| TechnicalRoute.StoredTimeframesAreNoPrototypeMembers | app/api/analysis/technical/route.ts:28-38 | a row storing 1d and 4h has no entry under an inherited member name |
| TechnicalRoute.AsWrittenPrototypeCase | app/api/analysis/technical/route.ts:47-48 | in a table storing 1d and 4h only, the lookup as written gives an inherited member exactly when the symbol is stored and the timeframe is an inherited member name |
| TechnicalRoute.AsWrittenOnLevelTables | app/api/analysis/technical/route.ts:47-48 | on the handler's tables, both lookups as written give an inherited member exactly when the symbol is stored and the timeframe is an inherited member name, and the intended levels otherwise |
| TechnicalRoute.MacdTrend | app/api/analysis/technical/route.ts:52 | bullish iff MACD > 0, bearish iff MACD < -0.2, neutral otherwise |
| TechnicalRoute.Recommend | app/api/analysis/technical/route.ts:73 | sell iff RSI > 70, buy iff RSI < 30, hold otherwise; never strong buy or strong sell |
| TechnicalRoute.HandleGet | app/api/analysis/technical/route.ts:41-76 | every field of the response in terms of the query defaults, the level lookups as written and the seven draws; the levels are an inherited member exactly for a stored symbol with an inherited member name as timeframe |
| TechnicalRoute.HandleGetIntended | app/api/analysis/technical/route.ts:41-76 | the handler with the intended lookups: the same response with SupportLevels and ResistanceLevels as levels, equal to HandleGet whenever the timeframe is no inherited member name |
| TechnicalRoute.BuyUnreachable | app/api/analysis/technical/route.ts:50-73 | with the RSI drawn in [45, 75) the handler never says buy, and says sell iff the draw exceeds 5/6 |
| TechnicalRoute.ResponseLevelsOrdered | app/api/analysis/technical/route.ts:47-59 | unless the timeframe is an inherited member name, a response carries ordered supports below ordered resistances; the intended handler's always does |
| PredictRoute.CurrentPrice | app/api/analysis/predict/route.ts:49 | the table price, 100 for a symbol that is no key; always positive |
| PredictRoute.FactorsFor | app/api/analysis/predict/route.ts:55-58 | three supporting and three risk factors: the table's for BTC, ETH and SOL, the generic ones otherwise |
| PredictRoute.PricedButGeneric | app/api/analysis/predict/route.ts:20-41 | XRP and ADA have their own price but only the generic factors |
| PredictRoute.DirectionOf | app/api/analysis/predict/route.ts:66 | up iff change > 0.5, down iff change < -0.5, neutral otherwise |
| PredictRoute.ChangeFraction | app/api/analysis/predict/route.ts:50-52 | a zero horizon gives no change; for a positive horizon and a volatility draw in [0, 1), the change is positive exactly when the trend draw exceeds one half |
| PredictRoute.HandleGet | app/api/analysis/predict/route.ts:43-77 | every field in terms of the defaults, the tables and the draws; the bearish case <= the base case <= the bullish case |
| PredictRoute.ScenariosOrdered | app/api/analysis/predict/route.ts:68-72 | for a positive price, the ±2 % scenarios stay on their side of the base case after rounding to cents |
| PredictRoute.NeutralForShortHorizons | app/api/analysis/predict/route.ts:50-66 | with draws in [0, 1) and a horizon of at most 133 hours (the default 24 included), the direction is always neutral |
| PredictRoute.LongHorizonMoves | app/api/analysis/predict/route.ts:50-66 | a 480-hour horizon does give up or down, following the trend draw |
| ChatPage.TextParts | app/page.tsx:31 | the filter keeps exactly the text parts (a part is in the result iff it is a text part of the input), each text part exactly as often as in the input and no other part |
| ChatPage.JoinNoSeparator | app/page.tsx:33 | `join('')` is at least as long as each string joined, and is empty exactly when every string is missing or empty |
| ChatPage.TextsOf | app/page.tsx:32 | the map takes each part's text, in order |
| ChatPage.ExtractMessageText | app/page.tsx:25-36 | string content is returned as it is; otherwise a parts array gives the concatenated texts of its text parts; otherwise "" |
| ChatPage.FilterMapJoinIsPartText | app/page.tsx:29-34 | filter, map and `join('')` equal the one-pass concatenation of each part's contribution |
| ChatPage.PartTextAppend | app/page.tsx:29-34 | the text of consecutive runs of parts is the runs' texts, in order |
| ChatPage.NonTextPartContributesNothing | app/page.tsx:30-33 | inserting a non-text part anywhere leaves the text unchanged |
| ChatPage.NoTextPartsNoText | app/page.tsx:29-35 | a parts array without text parts gives the empty text |
| ChatPage.SubmittedTextShown | app/page.tsx:70-71 | a submitted message is shown as exactly the text typed, under role user |
| ChatPage.ChatSession.constructor | app/page.tsx:44 | a new chat has no messages and an empty input |
| ChatPage.ChatSession.Submit | app/page.tsx:68-74 | white-space-only input changes nothing; any other input is appended untrimmed as a user message and the input is cleared |

## Left out

- I/O is not modelled. This covers the stdio transport, server start-up and the list-tools request handler in mcp-server/src/index.ts, the HTTP framework (`NextRequest`/`NextResponse`), and the request to `/api/chat` that `append` triggers.
- The chat endpoint's `POST` handler, the model call and the agent loop belong to an external library and are not part of this model. Only the step bound and `maxDuration` are kept, as constants.
- The zod input schemas of the chat tools are not modelled as a validator. Their enums become Dafny datatypes, and their optional fields become `Option`s.
- Text rendering is not modelled: template strings, `toFixed`, `toISOString` and the analysis sentences. Each answer is a record of the values it reports, and timestamps stay milliseconds since the epoch.
- Number arithmetic is over exact reals, not IEEE-754 doubles. The orderings proved, such as supports below the price and the scenarios in order, are stated for reals.
- `Math.random()` and `Date.now()` are parameters of the handlers.
- The `catch` branches that answer HTTP 500 are not modelled: no modelled body throws.
- JsBuiltins.ToUpper: maps ASCII letters, dotless i and long s only. Other characters are kept unchanged, so the special upper-casings that change a string's length (ß to SS, the ligatures) are not modelled. None of them can produce a table key, so no lookup changes, but an echoed symbol holding such characters may differ.
- McpServer.ProcessToolCall: requires `symbol` to be a string for the four symbol tools. Otherwise `toUpperCase` throws and the call rejects, which is not modelled.
- McpServer.ProcessToolCall: requires a truthy `limit` to be a number. A truthy non-number limit, which `slice` would coerce, is not modelled.
- PredictRoute.HandleGet: takes `hoursAhead` already parsed by `parseInt` (None when the parameter is absent or empty). A non-numeric value, for which `parseInt` returns NaN, is not modelled.
- ChatPage.ExtractMessageText: a part's `text` is a string or missing; `join('')` renders a missing one as empty. A non-string text, which `join` would convert to a string, is not modelled.
- The dashboard and settings pages, the components and the hooks are not part of this model. Neither is rendering of the chat page.

## Findings

| source | as written | input that shows it | evidently intended | confidence | as-written member | corrected member |
|---|---|---|---|---|---|---|
| app/api/analysis/technical/route.ts:47-48 | `SUPPORT_LEVELS[symbol]?.[timeframe] \|\| fallback` indexes the per-symbol object with the raw timeframe, so the name of an inherited Object.prototype member resolves to a truthy function and skips the fallback | `GET /api/analysis/technical?symbol=BTC&timeframe=constructor` (or `toString`) | an unknown timeframe gets the fallback levels `[40000, 35000, 30000]` / `[60000, 70000, 80000]` | high, not executed | TechnicalRoute.LookupLevelsAsWritten | TechnicalRoute.LookupLevels |

`TechnicalRoute.HandleGet` models the handler as written and so returns the inherited member for such a timeframe. `TechnicalRoute.HandleGetIntended` is the handler with the corrected lookup, and the ordering of its levels is proved unconditionally.
