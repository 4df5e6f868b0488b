/**
 * The diagnosis endpoint (`diagnose_stock`): the structured analyses, the
 * advice and risk texts, the three scores and their grades. The data
 * providers, the news fetch and the language-model call are parameters:
 * `kline` and `flow` are what `get_kline_data` and `get_capital_flow_data`
 * returned, `markdown` is the model's reply (None when the call failed).
 *
 * The lemmas trace what the scorers can actually see in the analyzers' texts:
 * the analyzer never writes the phrases the technical scorers look for except
 * the crosses, and the news is stored under a key the overall scorer does not
 * read, so the overall score never reaches grade A.
 */
module Diagnosis {
  import opened Wrappers
  import opened Text
  import opened StockCode
  import opened KlineSource
  import opened Technical
  import opened CapitalFlow
  import opened CapitalDistribution
  import opened Advisory
  import opened Scoring

  /** The JSON body of a successful diagnosis. */
  datatype Report = Report(
    symbol: string,
    result: DiagnosisResult,
    advice: string,
    risk: string,
    markdown: string,
    charts: Charts,
    overall: ScoreResult,
    technicalScore: ScoreResult,
    capitalScore: ScoreResult,
    grade: string,
    technicalGrade: string,
    capitalGrade: string)

  /** `charts_data`: the technical series, and the capital-flow history when there is flow data. */
  datatype Charts = Charts(
    dates: seq<string>, prices: seq<real>,
    ema5: seq<real>, ema10: seq<real>, ema20: seq<real>, ema60: seq<real>,
    flow: Option<seq<(string, real)>>)

  /** HTTP 400 for a bad symbol, 500 for anything that raised, 200 with a report otherwise. */
  datatype Outcome = BadSymbol | Failed | Diagnosed(report: Report)

  /** The key the endpoint stores the news list under. */
  const StoredNewsKey: string := "news"

  function TimeOf(r: KlineRow): string { r.time }
  function CloseOf(r: KlineRow): real { r.close }
  function Ema5Of(r: KlineRow): real { r.ema5 }
  function Ema10Of(r: KlineRow): real { r.ema10 }
  function Ema20Of(r: KlineRow): real { r.ema20 }
  function Ema60Of(r: KlineRow): real { r.ema60 }
  function FlowPointOf(d: FlowDay): (string, real) { (d.date, d.inFlow) }

  /** `not stock_code or not market`: the symbol does not parse, or its code part is empty (`.HK`). */
  predicate SymbolRefused(symbol: string) {
    ParseStockCode(symbol).None? || ParseStockCode(symbol).value.0 == ""
  }

  /** `diagnose_stock(symbol)` with its providers' answers as parameters. */
  function Diagnose(symbol: string, kline: Option<seq<KlineRow>>, flow: Option<CapitalFlowData>,
                    news: seq<NewsItem>, markdown: Option<string>, trends: Trends,
                    volatility: Option<real>): Outcome {
    if SymbolRefused(symbol) then BadSymbol
    else if markdown.None? then Failed
    else if kline.None? then Failed
    else
      Diagnosed(ReportOf(symbol, ResultOf(kline, flow, news, trends),
        GenerateInvestmentAdvice(kline, flow), GenerateRiskWarning(kline, flow, volatility),
        markdown.value, kline.value, flow))
  }

  /** The diagnosis dictionary: the three analyses, and the news under the key "news". */
  function ResultOf(kline: Option<seq<KlineRow>>, flow: Option<CapitalFlowData>, news: seq<NewsItem>,
                    trends: Trends): DiagnosisResult {
    DiagnosisResult(
      AnalyzeTechnical(kline, trends),
      if flow.Some? then Some(AnalyzeCapitalFlow(flow)) else None,
      if flow.Some? then Some(AnalyzeCapitalDistribution(flow)) else None,
      map[StoredNewsKey := news])
  }

  /** The response body: the three scores of the dictionary, each with its grade, and the chart series. */
  function ReportOf(symbol: string, result: DiagnosisResult, advice: string, risk: string,
                    markdown: string, rows: seq<KlineRow>, flow: Option<CapitalFlowData>): Report {
    var overall := OverallScore(result);
    var technical := TechnicalScore(result.technical);
    var capital := CapitalScore(result.capitalFlow);
    Report(symbol, result, advice, risk, markdown, ChartsOf(rows, flow),
      overall, technical, capital, GradeOf(overall), GradeOf(technical), GradeOf(capital))
  }

  /** The report of a successful diagnosis, in terms of its dictionary; every grade is `get_score_grade` of the score beside it. */
  lemma DiagnosedReport(symbol: string, kline: Option<seq<KlineRow>>, flow: Option<CapitalFlowData>,
                        news: seq<NewsItem>, markdown: Option<string>, trends: Trends, volatility: Option<real>)
    requires Diagnose(symbol, kline, flow, news, markdown, trends, volatility).Diagnosed?
    ensures var r := Diagnose(symbol, kline, flow, news, markdown, trends, volatility).report;
      var result := ResultOf(kline, flow, news, trends);
      && r.result == result
      && r.charts == ChartsOf(kline.value, flow)
      && r.overall == OverallScore(result)
      && r.technicalScore == TechnicalScore(AnalyzeTechnical(kline, trends))
      && r.capitalScore == CapitalScore(result.capitalFlow)
      && r.grade == GetScoreGrade(r.overall.score)
      && r.technicalGrade == GetScoreGrade(r.technicalScore.score)
      && r.capitalGrade == GetScoreGrade(r.capitalScore.score)
  {
  }

  /**
   * The technical chart holds one entry per bar, in the bars' order, taken
   * from that bar; the capital-flow chart is present exactly when there is
   * flow data and then holds one (date, inflow) point per day.
   */
  function ChartsOf(rows: seq<KlineRow>, flow: Option<CapitalFlowData>): (c: Charts)
    ensures |c.dates| == |c.prices| == |c.ema5| == |c.ema10| == |c.ema20| == |c.ema60| == |rows|
    ensures forall i | 0 <= i < |rows| ::
      && c.dates[i] == rows[i].time && c.prices[i] == rows[i].close
      && c.ema5[i] == rows[i].ema5 && c.ema10[i] == rows[i].ema10
      && c.ema20[i] == rows[i].ema20 && c.ema60[i] == rows[i].ema60
    ensures c.flow.Some? <==> flow.Some?
    ensures flow.Some? ==>
      && |c.flow.value| == |flow.value.historical|
      && forall i | 0 <= i < |flow.value.historical| ::
           c.flow.value[i] == (flow.value.historical[i].date, flow.value.historical[i].inFlow)
  {
    Charts(Map(rows, TimeOf), Map(rows, CloseOf), Map(rows, Ema5Of), Map(rows, Ema10Of), Map(rows, Ema20Of),
      Map(rows, Ema60Of), if flow.Some? then Some(Map(flow.value.historical, FlowPointOf)) else None)
  }

  function Map<T, U>(s: seq<T>, f: T -> U): (r: seq<U>)
    ensures |r| == |s| && forall i | 0 <= i < |s| :: r[i] == f(s[i])
  {
    seq(|s|, i requires 0 <= i < |s| => f(s[i]))
  }

  /**
   * A symbol is refused exactly when it does not parse or its code part is
   * empty; a report is produced exactly when the symbol parses to a non-empty
   * code, the model answered and there are bars.
   */
  lemma DiagnoseOutcome(symbol: string, kline: Option<seq<KlineRow>>, flow: Option<CapitalFlowData>,
                        news: seq<NewsItem>, markdown: Option<string>, trends: Trends, volatility: Option<real>)
    ensures var o := Diagnose(symbol, kline, flow, news, markdown, trends, volatility);
      && (o.BadSymbol? <==> ParseStockCode(symbol).None? || ParseStockCode(symbol).value.0 == "")
      && (o.Diagnosed? <==>
            ParseStockCode(symbol).Some? && ParseStockCode(symbol).value.0 != "" && markdown.Some? && kline.Some?)
  {
  }

  /** `.HK` parses to an empty code with market HK, and the endpoint answers 400 for it. */
  lemma EmptyCodeRefused(kline: Option<seq<KlineRow>>, flow: Option<CapitalFlowData>,
                         news: seq<NewsItem>, markdown: Option<string>, trends: Trends, volatility: Option<real>)
    ensures ParseStockCode(".HK") == Some(("", HK))
    ensures Diagnose(".HK", kline, flow, news, markdown, trends, volatility).BadSymbol?
  {
    assert ".HK" == "" + "." + "HK";
    assert Upper("HK") == "HK";
    ParseJoined("", "HK");
  }

  // ---------------------------------------------------------------------------
  // What the scorers see in the analyzers' texts
  // ---------------------------------------------------------------------------

  /** Points the cross check awards: 20 for a golden cross, 5 for a death cross only, 10 otherwise. */
  function CrossPoints(kline: Option<seq<KlineRow>>): (p: nat)
    ensures p == 5 || p == 10 || p == 20
  {
    if kline.None? || |kline.value| < MinBars then 10
    else
      var rows := kline.value;
      if AnyGolden(rows[|rows| - 1], rows[|rows| - 2]) then 20
      else if AnyDeath(rows[|rows| - 1], rows[|rows| - 2]) then 5
      else 10
  }

  /**
   * The technical score of an analysis is 52 plus the cross points: the
   * trend, relation and judgment texts never hold the phrases the scorer
   * looks for, so those three always take their middle values.
   */
  lemma TechnicalScoreOfAnalysis(kline: Option<seq<KlineRow>>, trends: Trends)
    ensures TechnicalScore(AnalyzeTechnical(kline, trends)).score == (52 + CrossPoints(kline)) as real
  {
    var a := AnalyzeTechnical(kline, trends);
    TrendsNeverAligned(kline, trends);
    RelationNeverAll(kline, trends);
    JudgmentNeverStrong(kline, trends);
    if kline.None? || |kline.value| < MinBars {
      InsufficientWords();
      AbsentChar(Insufficient, "金叉", '金');
      AbsentChar(Insufficient, "死叉", '死');
    } else {
      CrossTextGolden(kline, trends);
      CrossTextDeath(kline, trends);
    }
    var ps := TechnicalProbes(a);
    PointsOf(ps);
    assert ps[0].points == 20 && ps[1].points == 20 && ps[2].points == 12;
    assert ps[3].points == CrossPoints(kline);
    PercentOfHundred(Points(ps));
  }

  /** The technical part of the overall score is always 10 + 10 + 6. */
  lemma OverallTechnicalPart(kline: Option<seq<KlineRow>>, trends: Trends)
    ensures Points(OverallTechProbes(AnalyzeTechnical(kline, trends))) == 26
  {
    TrendsNeverAligned(kline, trends);
    RelationNeverAll(kline, trends);
    JudgmentNeverStrong(kline, trends);
    PointsOf(OverallTechProbes(AnalyzeTechnical(kline, trends)));
  }

  /** Reference points for the capital texts, from the flow sums. */
  function FlowPoints(data: CapitalFlowData, inflow: nat, outflow: nat, mid: nat, strong: nat, weak: nat, fair: nat): nat {
    if |data.historical| == 0 then mid + fair
    else SumsPoints(SumsOf(data.historical), inflow, outflow, strong, weak, fair)
  }

  function SumsPoints(s: FlowSums, inflow: nat, outflow: nat, strong: nat, weak: nat, fair: nat): nat {
    (if AnyInflow(s) then inflow else outflow)
    + (if StrengthScore(s) >= 80 then strong else if SomeTierEmpty(s) then weak else fair)
  }

  /** The two capital checks on the analyzer's texts, whatever their weights. */
  lemma CapitalChecks(data: CapitalFlowData, inflow: Probe, outflow: Probe, mid: Probe,
                      strong: Probe, weak: Probe, fair: Probe)
    ensures var a := AnalyzeCapitalFlow(Some(data));
      Check(a.mainCapital, "净流入", "净流出", inflow, outflow, mid).points
      + Check(a.strengthAssessment, "资金实力雄厚", "资金实力较弱", strong, weak, fair).points
      == FlowPoints(data, inflow.points, outflow.points, mid.points, strong.points, weak.points, fair.points)
  {
    if |data.historical| == 0 {
      MissingDataTexts(Some(data), "净流入", '入');
      MissingDataTexts(Some(data), "净流出", '出');
      MissingDataTexts(Some(data), "资金实力雄厚", '雄');
      MissingDataTexts(Some(data), "资金实力较弱", '弱');
    } else {
      var s := SumsOf(data.historical);
      MainTextInflow(s);
      if !AnyInflow(s) { MainTextOutflow(s); }
      StrongIffEighty(s);
      WeakIffEmptyTier(s);
    }
  }

  /** The capital score of an analysis follows the flow sums: 60 or 20 for the main money, 40, 10 or 25 for the strength. */
  lemma CapitalScoreOfAnalysis(data: CapitalFlowData)
    ensures CapitalScore(Some(AnalyzeCapitalFlow(Some(data)))).score == FlowPoints(data, 60, 20, 40, 40, 10, 25) as real
  {
    var ps := CapitalProbes(AnalyzeCapitalFlow(Some(data)));
    CapitalChecks(data, Probe(60, "主力资金持续净流入"), Probe(20, "主力资金持续净流出"), Probe(40, "主力资金流向中性"),
      Probe(40, "资金实力雄厚"), Probe(10, "资金实力较弱"), Probe(25, "资金实力一般"));
    PointsOf(ps);
    PercentOfHundred(Points(ps));
  }

  /** The capital part of the overall score follows the flow sums: 15 or 5, then 15, 5 or 10. */
  lemma OverallCapitalPart(data: CapitalFlowData)
    ensures Points(OverallCapitalProbes(AnalyzeCapitalFlow(Some(data)))) == FlowPoints(data, 15, 5, 10, 15, 5, 10)
  {
    CapitalChecks(data, Probe(15, "主力资金持续净流入"), Probe(5, "主力资金持续净流出"), Probe(10, "主力资金流向中性"),
      Probe(15, "资金实力雄厚"), Probe(5, "资金实力较弱"), Probe(10, "资金实力一般"));
    PointsOf(OverallCapitalProbes(AnalyzeCapitalFlow(Some(data))));
  }

  /**
   * Reference points for the distribution part: the share of main money as
   * written (rounded to one place) and the structure verdict; 6 when there is
   * no usable snapshot.
   */
  function DistributionPoints(data: CapitalFlowData): nat {
    if |data.distribution| == 0 then 6
    else
      var e := data.distribution[|data.distribution| - 1];
      if Volume(e) == 0.0 then 6 else SnapshotPoints(Rounded(MainRatio(e), 1), NetsOf(e))
  }

  function SnapshotPoints(share: real, n: Nets): nat {
    ShareProbe(Some(share)).points
    + (if n.mainNet > 0.0 && n.retailNet < 0.0 then 10 else if n.mainNet < 0.0 && n.retailNet > 0.0 then 3 else 6)
  }

  /** A placeholder text holds none of the phrases the distribution checks look for. */
  lemma PlaceholderChecks(text: string)
    requires text == NoDistribution || text == DistributionError
    ensures DistributionProbes(DistributionAnalysis(text, text, text)) == [Probe(6, "资金结构趋势中性")]
  {
    AbsentChar(text, "主力资金占比", '占');
    AbsentChar(text, "市场结构良好", '良');
    AbsentChar(text, "需警惕风险", '警');
  }

  /** The distribution part of the overall score reads back the share the analyzer wrote. */
  lemma OverallDistributionPart(data: CapitalFlowData)
    ensures Points(DistributionProbes(AnalyzeCapitalDistribution(Some(data)))) == DistributionPoints(data)
  {
    var d := AnalyzeCapitalDistribution(Some(data));
    if |data.distribution| == 0 {
      PlaceholderChecks(NoDistribution);
    } else {
      var e := data.distribution[|data.distribution| - 1];
      if Volume(e) == 0.0 {
        PlaceholderChecks(DistributionError);
      } else {
        var text := d.capitalStructure;
        ShareReadBack(e);
        SplitFound(text, "主力资金占比");
        assert ParsedShare(text) == Some(Rounded(MainRatio(e), 1));
        GoodStructureIff(e);
        RiskyStructureIff(e);
        PointsOf(DistributionProbes(d));
      }
    }
  }

  // ---------------------------------------------------------------------------
  // The scores of a report
  // ---------------------------------------------------------------------------

  /** The technical score of a report is 52 plus the cross points. */
  lemma ReportTechnicalScore(symbol: string, kline: Option<seq<KlineRow>>, flow: Option<CapitalFlowData>,
                             news: seq<NewsItem>, markdown: Option<string>, trends: Trends, volatility: Option<real>)
    requires Diagnose(symbol, kline, flow, news, markdown, trends, volatility).Diagnosed?
    ensures Diagnose(symbol, kline, flow, news, markdown, trends, volatility).report.technicalScore.score
      == (52 + CrossPoints(kline)) as real
  {
    DiagnosedReport(symbol, kline, flow, news, markdown, trends, volatility);
    TechnicalScoreOfAnalysis(kline, trends);
  }

  /** Without flow data the overall and capital scores of a report are the error, graded F. */
  lemma ReportWithoutFlow(symbol: string, kline: Option<seq<KlineRow>>,
                          news: seq<NewsItem>, markdown: Option<string>, trends: Trends, volatility: Option<real>)
    requires Diagnose(symbol, kline, None, news, markdown, trends, volatility).Diagnosed?
    ensures var r := Diagnose(symbol, kline, None, news, markdown, trends, volatility).report;
      r.overall == ScoreError && r.capitalScore == ScoreError && r.grade == "F" && r.capitalGrade == "F"
  {
    DiagnosedReport(symbol, kline, None, news, markdown, trends, volatility);
    var result := ResultOf(kline, None, news, trends);
    assert result.capitalFlow.None?;
    OverallScoreRange(result);
    ErrorGradesF();
  }

  /**
   * With flow data the overall score of a report is 26 + capital part +
   * distribution part, with no news part, and the capital score follows the
   * sums.
   */
  lemma ReportWithFlow(symbol: string, kline: Option<seq<KlineRow>>, data: CapitalFlowData,
                       news: seq<NewsItem>, markdown: Option<string>, trends: Trends, volatility: Option<real>)
    requires Diagnose(symbol, kline, Some(data), news, markdown, trends, volatility).Diagnosed?
    ensures var r := Diagnose(symbol, kline, Some(data), news, markdown, trends, volatility).report;
      && r.overall.score == (26 + FlowPoints(data, 15, 5, 10, 15, 5, 10) + DistributionPoints(data)) as real
      && r.capitalScore.score == FlowPoints(data, 60, 20, 40, 40, 10, 25) as real
  {
    DiagnosedReport(symbol, kline, Some(data), news, markdown, trends, volatility);
    StoredOverall(kline, data, news, trends);
    CapitalScoreOfAnalysis(data);
  }

  /** The overall score of the dictionary with flow data: 26 + capital part + distribution part, nothing for the news. */
  lemma StoredOverall(kline: Option<seq<KlineRow>>, data: CapitalFlowData, news: seq<NewsItem>, trends: Trends)
    ensures OverallScore(ResultOf(kline, Some(data), news, trends)).score
      == (26 + FlowPoints(data, 15, 5, 10, 15, 5, 10) + DistributionPoints(data)) as real
  {
    var d := ResultOf(kline, Some(data), news, trends);
    assert NewsKey !in d.lists;
    OverallIsSum(d);
    OverallTechnicalPart(kline, trends);
    OverallCapitalPart(data);
    OverallDistributionPart(data);
  }

  /** The parts' ranges: capital 10 to 30, distribution 6 to 20. */
  lemma PartRanges(data: CapitalFlowData)
    ensures 10 <= FlowPoints(data, 15, 5, 10, 15, 5, 10) <= 30
    ensures 6 <= DistributionPoints(data) <= 20
  {
    if |data.historical| > 0 {
      SumsRange(SumsOf(data.historical));
    }
    if |data.distribution| > 0 {
      var e := data.distribution[|data.distribution| - 1];
      if Volume(e) != 0.0 {
        SnapshotRange(Rounded(MainRatio(e), 1), NetsOf(e));
      }
    }
  }

  lemma SumsRange(s: FlowSums)
    ensures 10 <= SumsPoints(s, 15, 5, 15, 5, 10) <= 30
  {
  }

  lemma SnapshotRange(share: real, n: Nets)
    ensures 7 <= SnapshotPoints(share, n) <= 20
  {
    ShareProbePoints(share);
  }

  /** The overall score of a report stays at or below 76, so its grade is never A. */
  lemma ReportOverallNeverA(symbol: string, kline: Option<seq<KlineRow>>, flow: Option<CapitalFlowData>,
                            news: seq<NewsItem>, markdown: Option<string>, trends: Trends, volatility: Option<real>)
    requires Diagnose(symbol, kline, flow, news, markdown, trends, volatility).Diagnosed?
    ensures var r := Diagnose(symbol, kline, flow, news, markdown, trends, volatility).report;
      r.overall.score <= 76.0 && r.grade != "A"
  {
    var r := Diagnose(symbol, kline, flow, news, markdown, trends, volatility).report;
    if flow.Some? {
      ReportWithFlow(symbol, kline, flow.value, news, markdown, trends, volatility);
      PartRanges(flow.value);
    } else {
      ReportWithoutFlow(symbol, kline, news, markdown, trends, volatility);
    }
    DiagnosedReport(symbol, kline, flow, news, markdown, trends, volatility);
    BelowEightyNotA(r.overall.score);
  }

  lemma BelowEightyNotA(s: real)
    requires s <= 76.0
    ensures GetScoreGrade(s) != "A"
  {
  }

  /** The technical score of a report stays at or below 72, so its grade is never A. */
  lemma ReportTechnicalNeverA(symbol: string, kline: Option<seq<KlineRow>>, flow: Option<CapitalFlowData>,
                              news: seq<NewsItem>, markdown: Option<string>, trends: Trends, volatility: Option<real>)
    requires Diagnose(symbol, kline, flow, news, markdown, trends, volatility).Diagnosed?
    ensures var r := Diagnose(symbol, kline, flow, news, markdown, trends, volatility).report;
      r.technicalScore.score <= 72.0 && r.technicalGrade != "A"
  {
    ReportTechnicalScore(symbol, kline, flow, news, markdown, trends, volatility);
    DiagnosedReport(symbol, kline, flow, news, markdown, trends, volatility);
  }
}
