# Stock diagnosis core, modelled in Dafny

This project models the analysis core of a stock-diagnosis web application.
The application has a Flask backend and a React dashboard. For a stock code
such as `00700.HK`, the backend:

- fetches daily bars from a broker API, falling back to an open data library
  for Shanghai and Shenzhen codes;
- adds the EMA5/10/20/60, MACD and RSI columns;
- turns the bars and the capital-flow history into Chinese-language analysis
  texts: technical analysis, capital flow, capital distribution, investment
  advice and risk warning;
- scores the texts with substring checks, grades the scores A to F, and
  returns the report alongside a model-written markdown diagnosis.

The backend also groups the option chain of a Hong Kong stock by expiry date
and strike price. The dashboard checks the code the user types, filters the
input box and flattens the option chain into table rows.

Modules (one file each):

| file | what it holds |
|---|---|
| `wrappers.dfy` | `Option` |
| `text.dfy` | joining with '；' and substring search; Python's `f'{x:.Nf}'` and `float(s)` on the texts the code writes |
| `order.dfy` | string order and the stable sort that stands for `sort_values`; the key listing that stands for `groupby` |
| `stock_code.dfy` | `parse_stock_code` |
| `indicators.dfy` | `ewm(span, adjust=False)`, DIF/DEA/MACD, 14-day RSI |
| `kline_source.dfy` | `get_kline_data`, with `ak_get_kline_data` as its fallback |
| `technical.dfy` | `analyze_technical` |
| `capital_flow.dfy` | `analyze_capital_flow` |
| `capital_distribution.dfy` | `analyze_capital_distribution` |
| `advisory.dfy` | `generate_investment_advice`, `generate_risk_warning` |
| `scoring.dfy` | `calculate_technical_score`, `calculate_capital_score`, `get_score_grade`, `calculate_overall_score` |
| `diagnosis.dfy` | `diagnose_stock`, which composes all of the above |
| `option_chain.dfy` | `get_option_chain_data` |
| `dashboard.dfy` | `validateStockCode`, `handleStockCodeChange`, the confirm and diagnosis guards, `processOptionChainData` |

Functions follow the pure code. The loops of the source are methods proved
against those functions:

- the row building of `get_kline_data`;
- the sentiment count of `calculate_overall_score`;
- the three nested grouping loops of `get_option_chain_data`;
- the two `forEach` loops of `processOptionChainData`.

The page state the symbol handlers update is a class, `SymbolBox`.

The broker, the data library, the news service and the language model are
parameters. Each is a function from request to answer, or a value the caller
passes in.

## Model

| member | source | states |
|---|---|---|
| StockCode.MarketOf | backend/app.py:466-467 | a market is accepted exactly when it is SH, SZ or HK, and its name reads back as the text |
| StockCode.Split | backend/app.py:458 | `split('.')` gives at least one piece and no piece holds the separator |
| StockCode.SplitOnce | backend/app.py:458 | a string with exactly one separator splits into the text before it and the text after it |
| StockCode.SplitInTwo | backend/app.py:458-463 | when `split` gives two pieces, a dot stands right after the first piece and the second piece is the rest |
| StockCode.SplitJoin | backend/app.py:458 | joining the pieces of `split` with the separator gives back the input |
| StockCode.Upper | backend/app.py:463 | `upper()` keeps the length |
| StockCode.ParseStockCode | backend/app.py:452-472 | an accepted code part never holds a dot |
| StockCode.ParseOneDot | backend/app.py:458-470 | for a symbol with exactly one dot: it parses exactly when the upper-cased suffix is SH, SZ or HK, and then yields the part before the dot with that market |
| StockCode.ParseNeedsOneDot | backend/app.py:459-460 | a symbol without exactly one dot is refused |
| StockCode.ParseAccepted | backend/app.py:458-470 | every accepted symbol is code + '.' + suffix, with the suffix upper-casing to the market |
| StockCode.ParseJoined | backend/app.py:458-470 | `code.suffix` with dot-free parts parses to (code, market) exactly when the upper-cased suffix names a market |
| StockCode.ParseRefusesOtherMarkets | backend/app.py:466-467 | `AAPL.US` and `00700.XX` are refused |
| StockCode.ParseLowerCaseMarket | backend/app.py:458-469 | a lower-case suffix is accepted: `00700.hk` parses to (00700, HK) |
| Indicators.Alpha | backend/app.py:524 | the smoothing factor 2/(span+1) lies in (0, 1] |
| Indicators.Ewm | backend/app.py:524 | the smoothed series has one value per input |
| Indicators.EwmPrefix | backend/app.py:524 | smoothing is causal: the smoothed prefix is the prefix of the smoothed series |
| Indicators.EwmRecurrence | backend/app.py:524 | the first value is the first input, then each value is a·x + (1 − a)·previous |
| Indicators.EwmBetween | backend/app.py:524-527 | if every input lies in [lo, hi], so does every smoothed value |
| Indicators.EwmConstant | backend/app.py:524 | a constant series smooths to itself |
| Indicators.EwmConstantAt | backend/app.py:524 | on a constant series every smoothed value equals the constant |
| Indicators.Ema | backend/app.py:524-529 | EMA has one value per close |
| Indicators.Dif | backend/app.py:530 | DIF has one value per close |
| Indicators.Dea | backend/app.py:531 | DEA has one value per close |
| Indicators.Macd | backend/app.py:532 | MACD has one value per close |
| Indicators.EmaWithinSeenRange | backend/app.py:524-527 | EMA at day t lies between the lowest and highest close up to t |
| Indicators.FlatSeries | backend/app.py:524-532 | on a flat series EMA is the series and DIF, DEA and MACD are all zero |
| Indicators.Gains | backend/app.py:533-534 | one gain per close |
| Indicators.Losses | backend/app.py:533-535 | one loss per close |
| Indicators.Rsi | backend/app.py:533-537 | one RSI entry per close |
| Indicators.WindowMeansNonneg | backend/app.py:534-535 | the 14-day mean gain and mean loss are never negative |
| Indicators.RsiFacts | backend/app.py:533-537 | RSI is missing for the first 13 days; when present it lies in [0, 100] and satisfies RSI·(gain + loss) = 100·gain |
| Indicators.RsiMissingOrFull | backend/app.py:536-537 | RSI is missing (NaN) exactly when the window has neither gain nor loss; with gains only it is 100 |
| Indicators.FlatSeriesRsi | backend/app.py:533-537 | a flat series has no RSI on any day |
| KlineSource.IntOf | backend/app.py:546 | `int()` truncates toward zero |
| KlineSource.Closes | backend/app.py:524 | one close per bar |
| KlineSource.EnrichedRows | backend/app.py:538-554 | one output row per bar |
| KlineSource.BuildKlineRows | backend/app.py:522-554 | the row-building loop yields exactly the enriched rows |
| KlineSource.RowFacts | backend/app.py:538-553 | row i keeps the bar's date and close; each of its EMAs lies within the closes seen so far; RSI is missing before day 14 and otherwise lies in [0, 100] |
| KlineSource.RowsSortedByTime | backend/app.py:522 | rows built after `sort_values('time_key')` are in ascending date order |
| KlineSource.NormaliseDate | backend/app.py:2232 | a normalised date is always `YYYY-MM-DD` shaped |
| KlineSource.IsoFacts | backend/app.py:2232 | a valid date prints as `YYYY-MM-DD` and parses back to itself |
| KlineSource.NormaliseIdempotent | backend/app.py:2232 | normalising an already normalised date changes nothing |
| KlineSource.RemoveDashes | backend/app.py:2175-2176 | `replace('-', '')` leaves no dash |
| KlineSource.RawBars | backend/app.py:2183-2207 | the renamed frame gives one raw bar per frame row |
| KlineSource.FilterWindow | backend/app.py:2208 | the date filter fails exactly when a comparison raises on some row; otherwise it keeps exactly the input rows whose date lies in [start, end] |
| KlineSource.FilterWindowAppend | backend/app.py:2208 | filtering two runs of rows in turn gives the first run's kept rows followed by the second's, so the input order is kept |
| KlineSource.FilterWindowKeepsAll | backend/app.py:2208 | a window holding every row keeps the whole input, in order |
| KlineSource.ConvertBar | backend/app.py:2232-2258 | a converted bar has a `YYYY-MM-DD` date |
| KlineSource.ConvertBars | backend/app.py:2232-2258 | conversion keeps the row count, and every date is `YYYY-MM-DD` |
| KlineSource.AkBars | backend/app.py:2171-2232 | the fallback's bars all carry `YYYY-MM-DD` dates |
| KlineSource.AkRowsFacts | backend/app.py:2165-2273 | every fallback row has a `YYYY-MM-DD` date, and the rows are in ascending date order |
| KlineSource.SortedRowsFacts | backend/app.py:2234-2265 | sorting bars with ISO dates gives rows with ISO dates in ascending order |
| KlineSource.AkGetKlineData | backend/app.py:2165-2273 | the fallback method returns exactly the fallback rows: [] for an unknown suffix, a failed or empty fetch, or an unconvertible frame |
| KlineSource.GetKlineData | backend/app.py:474-559 | None without a connection, for a bad symbol or an empty code; the broker's sorted and enriched rows when it answers with bars; otherwise the fallback rows for SH/SZ and None for HK; any rows returned are in date order |
| KlineSource.LowerCaseSuffixFallsFlat | backend/app.py:485-514 | `000001.sz` passes `parse_stock_code`, but the case-sensitive suffix test of the fallback yields [] |
| KlineSource.NoKnownSuffix | backend/app.py:2172-2229 | a symbol ending in none of .SZ/.SH/.HK/.US gets no fallback call |
| Order.SortByCorrect | backend/app.py:522 | the sort's output is ordered by the key and is a permutation of its input |
| Order.SortSortedUnchanged | backend/app.py:937 | re-sorting rows that are already in key order leaves them unchanged |
| Order.InsertSorted | backend/app.py:522 | inserting into a sorted list keeps it sorted and adds exactly the new element |
| Order.KeysFacts | backend/app.py:241 | the group keys are strictly ascending and are exactly the keys present in the rows |
| Technical.TechnicalInsufficient | backend/app.py:927-933 | fewer than 60 rows (or none) give the insufficient-data sentence in all four texts |
| Technical.ResortKeepsDateOrder | backend/app.py:935-937 | the re-sort by time leaves rows that arrive in date order as they are, so the list's last two rows are the latest two |
| Technical.CrossGolden | backend/app.py:945-963 | the cross text mentions 金叉 exactly when one of the EMA5/10, EMA10/20 or EMA20/60 pairs crossed upward |
| Technical.CrossDeath | backend/app.py:945-963 | the cross text mentions 死叉 exactly when one of the three pairs crossed downward |
| Technical.CrossTextGolden | backend/app.py:941-1036 | on at least 60 rows, `ema_crosses` contains 金叉 exactly when the last two rows show an upward cross |
| Technical.CrossTextDeath | backend/app.py:941-1036 | on at least 60 rows, `ema_crosses` contains 死叉 exactly when the last two rows show a downward cross |
| Technical.TrendsNeverAligned | backend/app.py:966-988 | `ema_trends` never contains 均线多头排列 or 均线空头排列, the phrases the scorers look for |
| Technical.RelationLacks | backend/app.py:990-1013 | `price_ema_relation` never contains a pattern holding 所 |
| Technical.RelationNeverAll | backend/app.py:990-1013 | `price_ema_relation` never contains 价格位于所有均线之上/之下, the phrases the scorers look for |
| Technical.JudgmentNeverStrong | backend/app.py:1015-1033 | `trend_judgment` never contains 强势上涨 or 强势下跌, the phrases the scorers look for |
| Technical.RelationAlignment | backend/app.py:1009-1010 | the relation text says 均线呈多头排列 exactly when EMA5 > EMA20 > EMA60 |
| Technical.AlignmentInRelation | backend/app.py:1009-1038 | on at least 60 rows, `price_ema_relation` says 均线呈多头排列 exactly when the latest row has EMA5 > EMA20 > EMA60 |
| CapitalFlow.Tail | backend/app.py:686 | `tail(n)` keeps the last min(n, length) rows in order |
| CapitalFlow.SumPositive | backend/app.py:689 | a non-empty sum of positive figures is positive |
| CapitalFlow.PermutedInflows | backend/app.py:682 | sorting the days keeps every day's inflow and main inflow positive |
| CapitalFlow.TailSumsPositive | backend/app.py:686-720 | for days with positive inflows, the 30-day and 5-day sums over the sorted history are positive |
| CapitalFlow.WindowIsLatest | backend/app.py:682-686 | the 30-day window has min(30, length) days; the sorted history is a permutation of the input; every day outside the window is no later than every day inside it |
| CapitalFlow.AllInflowDays | backend/app.py:686-720 | if every day has positive inflow and positive main inflow, then the 30-day totals and the 5-day total are positive |
| CapitalFlow.StrengthScore | backend/app.py:730-760 | the strength score never exceeds 100 |
| CapitalFlow.ScoreAndEmptyTiers | backend/app.py:733-768 | a score of at least 80 means no tier bottomed out; below 50 means one did; with none bottomed out the score is at least 50 |
| CapitalFlow.ScoreMonotone | backend/app.py:733-760 | larger sums never lower the strength score |
| CapitalFlow.VerdictWords | backend/app.py:763-768 | the closing verdict says 资金实力雄厚 exactly from 80 up, 资金实力一般 from 50 to 79 and 资金实力较弱 below 50; it never says 较弱 from 50 up |
| CapitalFlow.StrengthWords | backend/app.py:733-774 | the strength text has four phrases, and only the verdict can say 资金实力雄厚, which it does exactly from 80 up |
| CapitalFlow.StrongIffEighty | backend/app.py:763-764 | the strength text contains 资金实力雄厚 exactly when the score is at least 80 |
| CapitalFlow.WeakIffEmptyTier | backend/app.py:739-768 | the strength text contains 资金实力较弱 exactly when some tier bottomed out |
| CapitalFlow.MainTextInflow | backend/app.py:702-724 | the main-capital text contains 净流入 exactly when one of its four figures is positive |
| CapitalFlow.MainTextOutflow | backend/app.py:702-724 | with no positive figure, the main-capital text contains 净流出 |
| CapitalFlow.RecentWords | backend/app.py:718-724 | the five-day phrase says 净流入 when the five-day net inflow sum is positive, and never 入 otherwise |
| CapitalFlow.TrendTextWords | backend/app.py:692-695 | the 30-day text says 净流入 exactly when the 30-day total is positive |
| CapitalFlow.MissingDataTexts | backend/app.py:665-678 | without data or history, the main and strength texts are the placeholders and hold neither flow nor strength words |
| CapitalDistribution.NetsAddUp | backend/app.py:1080-1148 | main net = super + big, retail net = mid + small, total net = main + retail |
| CapitalDistribution.SharesMakeHundred | backend/app.py:1156-1157 | the main and retail shares add up to 100 |
| CapitalDistribution.VerdictOnlyWhenBothMove | backend/app.py:1163-1170 | at most one verdict, and there is one exactly when both nets are nonzero |
| CapitalDistribution.NoSnapshot | backend/app.py:1058-1071 | no data or no snapshot gives the placeholder in all three texts |
| CapitalDistribution.ZeroVolumeFails | backend/app.py:1156-1184 | a snapshot with zero volume takes the error path for all three texts |
| CapitalDistribution.GoodStructureIff | backend/app.py:1143-1174 | the structure text says 市场结构良好 exactly when main money came in and retail money went out |
| CapitalDistribution.RiskyStructureIff | backend/app.py:1143-1174 | the structure text says 需警惕风险 exactly when main money went out and retail money came in |
| CapitalDistribution.GoodVerdict | backend/app.py:1163-1164 | the good-structure verdict is given exactly when the main net is positive and the retail net negative |
| CapitalDistribution.RiskyVerdict | backend/app.py:1165-1166 | the risky-structure verdict is given exactly when the main net is negative and the retail net positive |
| CapitalDistribution.ShareTextReadBack | backend/app.py:1156-1160 | reading the figure after 主力资金占比 up to '%' gives back the main share rounded to one place |
| Advisory.MissingInputTexts | backend/app.py:791-792 | without rows or flow data, both texts are the insufficient-data sentences (also lines 862-863) |
| Advisory.RaisingInputs | backend/app.py:800-801 | a single row, or rows with no RSI at all, end in the error sentences (also lines 851-854, 871-872, 916-919) |
| Advisory.AdviceMembership | backend/app.py:812-843 | an advice rule appears exactly when its own condition holds; no `elif` hides a rule |
| Advisory.RiskMembership | backend/app.py:883-908 | a risk rule appears exactly when its own condition holds |
| Advisory.AdviceNeverContradicts | backend/app.py:812-843 | the advice never holds both members of an opposite pair (strong/weak, up/down cross, inflow/outflow, MACD up/down, RSI high/low), and has at most five phrases |
| Advisory.AdviceExclusive | backend/app.py:812-843 | a list holding exactly the firing rules never holds both members of an opposite pair |
| Advisory.AdviceLength | backend/app.py:812-843 | at most five advice phrases are given, one per rule group |
| Advisory.MissingRsiIsSilent | backend/app.py:834-837 | a missing RSI on the latest row fires no RSI rule in either text (also lines 889-892) |
| Advisory.MacdDeathInBoth | backend/app.py:842-843 | both texts report a MACD death cross exactly when MACD turned from ≥ 0 to < 0 (also lines 894-895) |
| Advisory.WeakChartInBoth | backend/app.py:817-818 | both texts report a price under EMA5 and EMA20 exactly when it is under both (also lines 886-887) |
| Advisory.AdviceFallbackIff | backend/app.py:846-849 | the advice is the fallback sentence exactly when no rule fired |
| Advisory.RiskFallbackIff | backend/app.py:911-914 | the risk text is the fallback sentence exactly when no rule fired |
| Advisory.ShortHistoryNoFlowRule | backend/app.py:805-810 | with fewer than two flow days, no flow rule fires in either text (also lines 827, 898) |
| Scoring.Notes | backend/app.py:1194-1263 | one evaluation note per check, in order |
| Scoring.PercentOfHundred | backend/app.py:1241 | with a maximum of 100, the final score is the raw score |
| Scoring.TechnicalScoreBounds | backend/app.py:1186-1264 | the technical score lies in [30, 100] |
| Scoring.CapitalScoreBounds | backend/app.py:1276-1342 | a present capital analysis scores in [30, 100]; a missing one scores 0 with rating E |
| Scoring.GradeMonotone | backend/app.py:1344-1360 | a higher score never gets a worse grade |
| Scoring.RatingAndGrade | backend/app.py:1243-1257 | from 50 up, rating and grade agree; below 50 the rating is E and the grade is F (also lines 1351-1360) |
| Scoring.ErrorGradesF | backend/app.py:1269-1274 | the error result is rated E and graded F (also lines 1359-1360) |
| Scoring.CountLabel | backend/app.py:1498-1502 | a sentiment count never exceeds the number of items |
| Scoring.PartsScore | backend/app.py:1376-1529 | the overall score is the sum of the four parts' points, because the maximum is always 100 |
| Scoring.CountSentiments | backend/app.py:1494-1502 | the counting loop yields the number of positive and the number of negative items |
| Scoring.CalculateOverallScore | backend/app.py:1365-1562 | the method returns the overall score of the dictionary |
| Scoring.PointsOf | backend/app.py:1376-1524 | the points of one to four checks are their sum |
| Scoring.OverallTechBounds | backend/app.py:1376-1416 | the technical part scores 12 to 40 |
| Scoring.OverallCapitalBounds | backend/app.py:1419-1448 | the capital part scores 10 to 30 |
| Scoring.DistributionBounds | backend/app.py:1451-1486 | the distribution part scores 3 to 20 |
| Scoring.NewsBounds | backend/app.py:1489-1526 | the news part scores at most 10 |
| Scoring.OverallScoreRange | backend/app.py:1365-1562 | a missing capital analysis (None.get raises) gives the error result; otherwise the overall score lies in [25, 100] |
| Scoring.OverallIsSum | backend/app.py:1376-1529 | the overall score is technical + capital + distribution + news points |
| Scoring.NoNewsKeyNoNewsPoints | backend/app.py:1492-1524 | without the `news_analysis` key the news part is empty and scores 0 |
| Diagnosis.Map | backend/app.py:1653-1654 | the chart series hold one entry per row, taken from that row |
| Diagnosis.DiagnoseOutcome | backend/app.py:1565-1685 | the symbol is refused (400) exactly when it does not parse or its code part is empty; a report comes back exactly when the symbol parses to a non-empty code, the model answered and the k-line fetch answered (possibly with no rows) |
| Diagnosis.EmptyCodeRefused | backend/app.py:1568-1570 | `.HK` parses to an empty code with market HK, and the endpoint refuses it with 400 |
| Diagnosis.ChartsOf | backend/app.py:1651-1672 | the technical chart has one date, close and EMA5/10/20/60 entry per bar, in the bars' order; the capital-flow chart is present exactly when there is flow data, with one (date, inflow) point per day |
| Diagnosis.CrossPoints | backend/app.py:1230-1238 | the cross check is worth 5, 10 or 20 points |
| Diagnosis.TechnicalScoreOfAnalysis | backend/app.py:1186-1241 | the technical score of any analysis is 52 plus the cross points (also lines 1645) |
| Diagnosis.OverallTechnicalPart | backend/app.py:1376-1414 | the technical part of the overall score is always 26 (also lines 1645) |
| Diagnosis.CapitalChecks | backend/app.py:1287-1306 | the two capital checks score what the flow sums predict (also lines 1425-1444) |
| Diagnosis.CapitalScoreOfAnalysis | backend/app.py:1276-1309 | the capital score follows the flow sums with weights 60/20/40 and 40/10/25 (also lines 1646) |
| Diagnosis.OverallCapitalPart | backend/app.py:1419-1446 | the capital part of the overall score follows the flow sums with weights 15/5/10 (also lines 1646) |
| Diagnosis.PlaceholderChecks | backend/app.py:1457-1482 | a placeholder structure text scores only the neutral 6 |
| Diagnosis.OverallDistributionPart | backend/app.py:1451-1484 | the distribution part is what the latest snapshot predicts: 6 without one or when its volume is 0, else the share points plus the structure points (also lines 1647) |
| Diagnosis.ReportTechnicalScore | backend/app.py:1674 | a report's technical score is 52 plus the cross points |
| Diagnosis.ReportWithoutFlow | backend/app.py:1646-1679 | without flow data, the overall and capital scores are the error result, graded F |
| Diagnosis.ReportWithFlow | backend/app.py:1643-1675 | with flow data, the overall score is 26 + capital part + distribution part with no news part, and the capital score follows the sums |
| Diagnosis.StoredOverall | backend/app.py:1643-1673 | news stored under `news` adds nothing to the overall score |
| Diagnosis.PartRanges | backend/app.py:1419-1484 | the capital part lies in 10..30 and the distribution part in 6..20 |
| Diagnosis.SumsRange | backend/app.py:1419-1446 | the capital part of the overall score lies in 10..30 |
| Diagnosis.SnapshotRange | backend/app.py:1457-1482 | a snapshot scores 7 to 20 in the distribution part |
| Diagnosis.BelowEightyNotA | backend/app.py:1351-1352 | a score of at most 76 is never graded A |
| Diagnosis.ReportOverallNeverA | backend/app.py:1673-1677 | a report's overall score is at most 76, so its grade is never A |
| Diagnosis.ReportTechnicalNeverA | backend/app.py:1674-1678 | a report's technical score is at most 72, so its technical grade is never A |
| OptionChain.TypeCode | backend/app.py:58-61 | the type code is 0 exactly for a type other than CALL or PUT (also lines 286) |
| OptionChain.SplitCode | backend/app.py:264-271 | a code without a dot is all code with an empty market; with a dot, both parts are dot-free and the market is a prefix |
| OptionChain.AtTimeMembers | backend/app.py:241-243 | an expiry group holds exactly the rows with that expiry |
| OptionChain.AtPriceMembers | backend/app.py:256-258 | a strike group holds exactly the rows with that strike |
| OptionChain.PairsOf | backend/app.py:256-323 | one pair per strike, built from that strike's rows |
| OptionChain.ChainsOf | backend/app.py:240-329 | one chain per expiry date, built from that date's rows |
| OptionChain.PickPair | backend/app.py:259-318 | the row loop's pair is the last CALL and the last PUT of the group |
| OptionChain.BuildChainAt | backend/app.py:243-329 | the strike loop builds the chain of that expiry |
| OptionChain.BuildOptionChain | backend/app.py:240-329 | the nested loops build exactly the grouped chains |
| OptionChain.LastOfTypeNone | backend/app.py:309-318 | a side is empty exactly when no row of the group has that type |
| OptionChain.LastOfTypeIsLast | backend/app.py:309-318 | a present side comes from the last row of that type |
| OptionChain.ChainDates | backend/app.py:241-243 | the chains are in strictly ascending date order and cover exactly the dates in the rows (also lines 325-328) |
| OptionChain.ChainPairs | backend/app.py:256-323 | strikes are strictly ascending and are exactly those present at that date; a call (put) is present exactly when such a row exists |
| OptionChain.PresentIff | backend/app.py:256-318 | a type occurs in a strike group exactly when some row has that date, strike and type |
| OptionChain.GroupMember | backend/app.py:241-258 | a row is in the (date, strike) group exactly when it has that date and strike |
| OptionChain.PairCarriesGroupKeys | backend/app.py:285-318 | a present side carries the group's date, strike and type code |
| OptionChain.ChainListOnlyForHongKong | backend/app.py:201-238 | a chain list comes back only for a connected HK symbol and is non-empty; other markets get the HK-only message |
| Dashboard.ValidateIff | frontend/src/pages/Dashboard.jsx:1228-1233 | a code passes exactly when it is one or more digits, a dot and HK/SH/SZ/BJ/US |
| Dashboard.ValidWritten | frontend/src/pages/Dashboard.jsx:1228-1233 | digits, a dot and a page market always pass |
| Dashboard.PageAndServerMarkets | frontend/src/pages/Dashboard.jsx:1228-1233 | of the codes the page accepts, the server parses exactly the HK, SH and SZ ones, keeping the digits |
| Dashboard.PageOnlyMarket | frontend/src/pages/Dashboard.jsx:1228-1233 | a BJ or US code passes the page but is refused by the server |
| Dashboard.KeepAllowed | frontend/src/pages/Dashboard.jsx:1239 | the filter never lengthens the input and leaves only allowed characters |
| Dashboard.FilterSymbol | frontend/src/pages/Dashboard.jsx:1236-1240 | the filtered value holds only digits, '.' and H K S Z B J U; KeepAllowedAppend and KeepAllowedOne show that every allowed character of the upper-cased input stays, in order |
| Dashboard.KeepAllowedOne | frontend/src/pages/Dashboard.jsx:1239 | a single character is kept exactly when it is allowed |
| Dashboard.KeepAllowedAppend | frontend/src/pages/Dashboard.jsx:1239 | filtering a + b gives the filtered a followed by the filtered b, so the filter drops only disallowed characters and keeps the order |
| Dashboard.FilterDropsStrayLetter | frontend/src/pages/Dashboard.jsx:1236-1240 | typing `0x700` leaves `0700` in the box |
| Dashboard.KeepAllowedFixed | frontend/src/pages/Dashboard.jsx:1239 | the filter changes nothing exactly when every character is allowed |
| Dashboard.AllAllowedKept | frontend/src/pages/Dashboard.jsx:1239 | input made of allowed characters only goes through the filter unchanged |
| Dashboard.KeepAllowedFromInput | frontend/src/pages/Dashboard.jsx:1239 | every kept character comes from the input |
| Dashboard.FilterIdempotent | frontend/src/pages/Dashboard.jsx:1236-1240 | filtering twice is filtering once |
| Dashboard.FilterKeepsValid | frontend/src/pages/Dashboard.jsx:1236-1240 | a valid code goes through the filter unchanged |
| Dashboard.SymbolBox.constructor | frontend/src/pages/Dashboard.jsx:1236-1251 | the box starts with the given symbol, nothing fetched, no error and no request |
| Dashboard.SymbolBox.Change | frontend/src/pages/Dashboard.jsx:1236-1240 | typing stores the filtered value and changes nothing else |
| Dashboard.SymbolBox.Confirm | frontend/src/pages/Dashboard.jsx:1244-1251 | a valid code sets the fetch flag; an invalid one shows the format message and fetches nothing |
| Dashboard.SymbolBox.Diagnose | frontend/src/pages/Dashboard.jsx:400-406 | a request starts exactly for a valid code; otherwise the format message is shown |
| Dashboard.ProcessOptionChainData | frontend/src/pages/Dashboard.jsx:374-396 | the loops yield the rows of the pairs with a call or a put, chain by chain and in order |
| Dashboard.ChainRowsFacts | frontend/src/pages/Dashboard.jsx:376-393 | a chain gives one row per pair with a call or a put, each carrying the chain's date |
| Dashboard.ProcessedFacts | frontend/src/pages/Dashboard.jsx:374-396 | every table row holds a call or a put and shows the date of a chain it came from |
| Dashboard.ServerDatesAgree | backend/app.py:291 | every option of a server chain carries that chain's date (also lines 325-326) |
| Dashboard.TableDatesFromServer | frontend/src/pages/Dashboard.jsx:374-396 | every row of the table built from the server's chains holds a call or a put and shows the date of some option row |
| Dashboard.ZeroStrikeCallOnly | frontend/src/pages/Dashboard.jsx:388 | a zero strike with only a call shows no price (`0 \|\| undefined`), and with a put it shows 0 |
| Dashboard.PriceShown | frontend/src/pages/Dashboard.jsx:388 | a non-zero call strike is shown; with no call, the put's strike is shown |
| Text.FormatFixed | backend/app.py:693 | `f'{x:.Nf}'` writes only digits, '.' and '-' |
| Text.FormatParseRoundTrip | backend/app.py:1156-1160 | `float(f'{x:.Nf}')` is x rounded to N places (also lines 1459) |
| Text.SignedReadBack | backend/app.py:1459 | a '-' before an unsigned number reads back as its negative |
| Text.UnsignedRoundTrip | backend/app.py:1459 | the unsigned text of x reads back as x rounded |

## Left out

- The broker connection, the data library, the news service and the
  language model are parameters. The model does not cover the prompt text,
  the HTTP headers, the news-text formatting or the JSON serialisation.
- The clock is left out: `datetime.now()` start and end dates are inputs.
  The option-chain `strikeTimestamp` (`datetime.timestamp()` in local time)
  is left out.
- Technical.AnalyzeTechnical: the three `pct_change().mean()` trend figures
  are inputs, not computed from the EMA columns.
- Advisory: the volatility figure `pct_change().std() * 100` is an input,
  not computed from the closes.
- Rounding: `f'{x:.Nf}'` and `round(x, 1)` are modelled as rounding half
  up on exact reals. Python rounds the binary float, with ties to even.
  Floating point is modelled by `real` throughout, with no NaN or
  infinity.
- NaN is modelled only where the code tests for it: the RSI of a window
  with neither gain nor loss (0/0) and `safe_int` of a missing `stock_id`.
  The other `safe_*` fields (lot size, sec type, listing time, delisting,
  suspension, expiration cycle, standard type, settlement mode) are not
  part of the option record.
- StockCode.Upper: upper-casing is ASCII-only. Python's `upper()` also maps
  letters such as 'ß' and 'ſ'.
- Dashboard.FilterSymbol: `handleStockCodeChange` upper-cases ASCII letters
  only. JavaScript's `toUpperCase` maps 'ß' to "SS" and 'ſ' to 'S', and both
  results survive the filter; the model drops those characters instead.
- Text.ParseDecimal: `float(s)` is modelled on plain decimal text only (an
  optional '-', digits, an optional fraction). Exponents, spaces, 'inf' and
  'nan' are not accepted.
- `pd.to_datetime` is modelled on 'YYYY-MM-DD' and 'YYYYMMDD' text and on
  date values. Other date formats are treated as unconvertible, and the
  fallback then answers [].
- Dashboard.ProcessOptionChainData: the random key
  `Math.random().toString(36)` is modelled as a missing key (None).
- Logging, the Flask routes other than diagnosis and the option chain, the
  capital-flow fetch (`get_capital_flow_data`) and the other pages and
  components of the frontend are not part of this model.
- Technical.AnalyzeTechnical, Advisory.GenerateInvestmentAdvice and
  Advisory.GenerateRiskWarning do not re-sort the rows by
  `pd.to_datetime(time)` (app.py:935-937, 795-797, 866-868). They take the
  last two rows in list order. Rows from KlineSource.GetKlineData already
  arrive in date order (its ensures), with fixed-width `YYYY-MM-DD` dates
  from the fallback. Technical.ResortKeepsDateOrder shows that a stable
  re-sort leaves such rows unchanged. pandas' default sort is not stable,
  so rows with equal dates may come out in another order there. A date that
  `to_datetime` cannot convert would raise into the error texts
  (app.py:1042-1050); that path is not modelled.
- CapitalFlow.ByDate sorts the flow days on their date text, where
  `analyze_capital_flow` converts them with `pd.to_datetime` first
  (app.py:680-682). The two orders agree for fixed-width ISO dates only. The
  sort is stable, unlike pandas' default. A conversion failure, which would
  give the error texts (app.py:773-780), is not modelled.
- OptionChain.TypeCode: the broker's option type values are taken to be
  1 for CALL and 2 for PUT, as the comments beside the map at app.py:59-60
  say.
- Facts the model states about the code as written:
  - `parse_stock_code` accepts only SH, SZ and HK; a US code is refused.
  - EMA and MACD have a value from the first bar.
  - The overall maximum is always 100, even when there is no news.
  - The news list is stored under `news`, but the overall score reads
    `news_analysis`, so news never counts.
  - `get_score_grade` says F where the score ratings say E.
