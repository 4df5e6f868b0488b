/**
 * The scorers: `calculate_technical_score`, `calculate_capital_score`,
 * `calculate_overall_score` and `get_score_grade`. Each sub-score looks for a
 * positive phrase first, then a negative one, and otherwise takes a middle
 * value; the sums are turned into a percentage of the maximum and graded.
 */
module Scoring {
  import opened Wrappers
  import opened Text
  import opened Technical
  import opened CapitalFlow
  import opened CapitalDistribution

  /** The dictionary every scorer returns. */
  datatype ScoreResult = ScoreResult(score: real, rating: string, ratingDesc: string, evaluation: string)

  const ScoreErrorText: string := "评分计算出错"

  /** What every scorer returns from its exception handler. */
  const ScoreError: ScoreResult := ScoreResult(0.0, "E", ScoreErrorText, ScoreErrorText)

  /** The points one check awards and the note it adds to the evaluation. */
  datatype Probe = Probe(points: nat, note: string)

  /** `if good in text: ... elif bad in text: ... else: ...`. */
  function Check(text: string, good: string, bad: string, hi: Probe, lo: Probe, mid: Probe): Probe {
    if Contains(text, good) then hi else if Contains(text, bad) then lo else mid
  }

  function Points(ps: seq<Probe>): nat
    decreases |ps|
  {
    if |ps| == 0 then 0 else Points(ps[..|ps| - 1]) + ps[|ps| - 1].points
  }

  function Notes(ps: seq<Probe>): (r: seq<string>)
    ensures |r| == |ps| && forall i | 0 <= i < |ps| :: r[i] == ps[i].note
    decreases |ps|
  {
    if |ps| == 0 then [] else Notes(ps[..|ps| - 1]) + [ps[|ps| - 1].note]
  }

  /** `round(score / max_score * 100, 1)`. */
  function Percent(raw: nat, max: nat): real
    requires max > 0
  {
    Rounded(raw as real / max as real * 100.0, 1)
  }

  /** On a maximum of 100 the percentage is the raw sum itself. */
  lemma PercentOfHundred(raw: nat)
    ensures Percent(raw, 100) == raw as real
  {
    assert raw as real / 100 as real * 100.0 == raw as real;
    assert raw as real * Pow10(1) as real + 0.5 == (10 * raw) as real + 0.5;
    assert ((10 * raw) as real + 0.5).Floor == 10 * raw;
  }

  /** The letter and its description: A 优秀, B 良好, C 一般, D 较差, E 差. */
  function Rating(score: real): (string, string) {
    if score >= 80.0 then ("A", "优秀")
    else if score >= 70.0 then ("B", "良好")
    else if score >= 60.0 then ("C", "一般")
    else if score >= 50.0 then ("D", "较差")
    else ("E", "差")
  }

  function Graded(raw: nat, notes: seq<string>): ScoreResult {
    var score := Percent(raw, 100);
    ScoreResult(score, Rating(score).0, Rating(score).1, JoinOr(notes, "暂无评分说明"))
  }

  // ---------------------------------------------------------------------------
  // Technical score (30/30/20/20)
  // ---------------------------------------------------------------------------

  function TechnicalProbes(a: TechnicalAnalysis): seq<Probe> {
    [Check(a.emaTrends, "均线多头排列", "均线空头排列",
       Probe(30, "均线多头排列，趋势良好"), Probe(10, "均线空头排列，趋势较弱"), Probe(20, "均线趋势中性")),
     Check(a.priceEmaRelation, "价格位于所有均线之上", "价格位于所有均线之下",
       Probe(30, "价格位于所有均线之上，强势特征明显"), Probe(10, "价格位于所有均线之下，弱势特征明显"), Probe(20, "价格与均线关系中性")),
     Check(a.trendJudgment, "强势上涨", "强势下跌",
       Probe(20, "强势上涨趋势"), Probe(5, "强势下跌趋势"), Probe(12, "趋势中性")),
     Check(a.emaCrosses, "金叉", "死叉",
       Probe(20, "出现金叉信号，看涨"), Probe(5, "出现死叉信号，看跌"), Probe(10, "无明显交叉信号"))]
  }

  /** `calculate_technical_score(technical_analysis)`. */
  function TechnicalScore(a: TechnicalAnalysis): ScoreResult {
    var ps := TechnicalProbes(a);
    Graded(Points(ps), Notes(ps))
  }

  /** Whatever the texts say, the technical score lies between 30 and 100. */
  lemma TechnicalScoreBounds(a: TechnicalAnalysis)
    ensures 30.0 <= TechnicalScore(a).score <= 100.0
  {
    var ps := TechnicalProbes(a);
    PointsOf(ps);
    PercentOfHundred(Points(ps));
  }

  // ---------------------------------------------------------------------------
  // Capital score (60/40)
  // ---------------------------------------------------------------------------

  function CapitalProbes(c: CapitalFlowAnalysis): seq<Probe> {
    [Check(c.mainCapital, "净流入", "净流出",
       Probe(60, "主力资金持续净流入"), Probe(20, "主力资金持续净流出"), Probe(40, "主力资金流向中性")),
     Check(c.strengthAssessment, "资金实力雄厚", "资金实力较弱",
       Probe(40, "资金实力雄厚"), Probe(10, "资金实力较弱"), Probe(25, "资金实力一般"))]
  }

  /** `calculate_capital_score(capital_flow_analysis)`; a missing analysis raises on `.get` and scores as the error. */
  function CapitalScore(c: Option<CapitalFlowAnalysis>): ScoreResult {
    match c
    case None => ScoreError
    case Some(a) =>
      var ps := CapitalProbes(a);
      Graded(Points(ps), Notes(ps))
  }

  /** A present analysis scores between 30 and 100; a missing one scores 0 with rating E. */
  lemma CapitalScoreBounds(c: Option<CapitalFlowAnalysis>)
    ensures c.Some? ==> 30.0 <= CapitalScore(c).score <= 100.0
    ensures c.None? ==> CapitalScore(c).score == 0.0 && CapitalScore(c).rating == "E"
  {
    if c.Some? {
      var ps := CapitalProbes(c.value);
      PointsOf(ps);
      PercentOfHundred(Points(ps));
    }
  }

  // ---------------------------------------------------------------------------
  // Grades
  // ---------------------------------------------------------------------------

  /** `get_score_grade(score)`: like the rating, but the lowest grade is F. */
  function GetScoreGrade(score: real): string {
    if score >= 80.0 then "A"
    else if score >= 70.0 then "B"
    else if score >= 60.0 then "C"
    else if score >= 50.0 then "D"
    else "F"
  }

  /** `get_score_grade` on a scorer's dictionary reads its score. */
  function GradeOf(r: ScoreResult): string {
    GetScoreGrade(r.score)
  }

  /** Position of a grade from best (0) to worst (4). */
  function LetterRank(g: string): nat {
    if g == "A" then 0 else if g == "B" then 1 else if g == "C" then 2 else if g == "D" then 3 else 4
  }

  /** A higher score never gets a worse grade. */
  lemma GradeMonotone(s: real, t: real)
    requires s <= t
    ensures LetterRank(GetScoreGrade(t)) <= LetterRank(GetScoreGrade(s))
  {
  }

  /** The rating letter and the grade agree from 50 up, and are E and F below. */
  lemma RatingAndGrade(s: real)
    ensures s >= 50.0 ==> Rating(s).0 == GetScoreGrade(s)
    ensures s < 50.0 ==> Rating(s).0 == "E" && GetScoreGrade(s) == "F"
  {
  }

  /** A scorer's error result is graded F, not the E it carries. */
  lemma ErrorGradesF()
    ensures GradeOf(ScoreError) == "F" && ScoreError.rating == "E"
  {
  }

  // ---------------------------------------------------------------------------
  // Overall score (40/30/20/10)
  // ---------------------------------------------------------------------------

  /** One news item; `sentiment` is None when the item has no such key. */
  datatype NewsItem = NewsItem(sentiment: Option<string>)

  /**
   * The diagnosis dictionary as the overall scorer sees it: the three
   * analyses and the lists stored under other keys, by key.
   */
  datatype DiagnosisResult = DiagnosisResult(
    technical: TechnicalAnalysis,
    capitalFlow: Option<CapitalFlowAnalysis>,
    capitalDistribution: Option<DistributionAnalysis>,
    lists: map<string, seq<NewsItem>>)

  /** The key the overall scorer reads the news from. */
  const NewsKey: string := "news_analysis"

  /** The largest possible sum: 40 + 30 + 20 + 10, the news weight counted even without news. */
  const MaxScore: nat := 40 + 30 + 20 + 10

  function OverallTechProbes(a: TechnicalAnalysis): seq<Probe> {
    [Check(a.emaTrends, "均线多头排列", "均线空头排列",
       Probe(15, "均线多头排列，趋势良好"), Probe(5, "均线空头排列，趋势较弱"), Probe(10, "均线趋势中性")),
     Check(a.priceEmaRelation, "价格位于所有均线之上", "价格位于所有均线之下",
       Probe(15, "价格位于所有均线之上，强势特征明显"), Probe(5, "价格位于所有均线之下，弱势特征明显"), Probe(10, "价格与均线关系中性")),
     Check(a.trendJudgment, "强势上涨", "强势下跌",
       Probe(10, "强势上涨趋势"), Probe(2, "强势下跌趋势"), Probe(6, "趋势中性"))]
  }

  function OverallCapitalProbes(c: CapitalFlowAnalysis): seq<Probe> {
    [Check(c.mainCapital, "净流入", "净流出",
       Probe(15, "主力资金持续净流入"), Probe(5, "主力资金持续净流出"), Probe(10, "主力资金流向中性")),
     Check(c.strengthAssessment, "资金实力雄厚", "资金实力较弱",
       Probe(15, "资金实力雄厚"), Probe(5, "资金实力较弱"), Probe(10, "资金实力一般"))]
  }

  /** The share of main money read back out of the structure text; None where `float` or the split fails. */
  function ParsedShare(text: string): Option<real> {
    match SplitSecond(text, "主力资金占比")
    case None => None
    case Some(seg) => ParseDecimal(BeforeFirst(seg, '%'))
  }

  function ShareProbe(share: Option<real>): Probe {
    match share
    case None => Probe(4, "主力资金占比信息解析失败")
    case Some(v) =>
      if v > 60.0 then Probe(10, "主力资金占比高，市场结构良好")
      else if v > 40.0 then Probe(7, "主力资金占比适中")
      else Probe(4, "主力资金占比偏低")
  }

  function DistributionProbes(d: DistributionAnalysis): seq<Probe> {
    var text := d.capitalStructure;
    (if Contains(text, "主力资金占比") then [ShareProbe(ParsedShare(text))] else [])
    + [Check(text, "市场结构良好", "需警惕风险",
         Probe(10, "资金结构趋势良好"), Probe(3, "资金结构存在风险"), Probe(6, "资金结构趋势中性"))]
  }

  /** Items whose sentiment is exactly `tag`. */
  function CountLabel(news: seq<NewsItem>, tag: string): (n: nat)
    ensures n <= |news|
    decreases |news|
  {
    if |news| == 0 then 0
    else CountLabel(news[..|news| - 1], tag) + (if news[|news| - 1].sentiment == Some(tag) then 1 else 0)
  }

  /** The news probe from the counts; none at all for an empty list. */
  function NewsProbes(positive: nat, negative: nat, total: nat): seq<Probe> {
    if total == 0 then []
    else
      var pr, nr := positive as real / total as real, negative as real / total as real;
      if pr > 0.6 then [Probe(10, "新闻舆情非常正面")]
      else if pr > 0.4 then [Probe(7, "新闻舆情偏正面")]
      else if nr > 0.6 then [Probe(2, "新闻舆情非常负面")]
      else if nr > 0.4 then [Probe(4, "新闻舆情偏负面")]
      else [Probe(6, "新闻舆情中性")]
  }

  /** `f'{title}{points}/{max}，' + '；'.join(notes)`. */
  function Section(title: string, ps: seq<Probe>, max: nat): string {
    title + NatToString(Points(ps)) + "/" + NatToString(max) + "，" + Join(Notes(ps), Sep)
  }

  /** The news list under the key the scorer reads, or the empty default. */
  function NewsOf(d: DiagnosisResult): seq<NewsItem> {
    if NewsKey in d.lists then d.lists[NewsKey] else []
  }

  /**
   * `calculate_overall_score(diagnosis_result)` given the sentiment counts of
   * its news list. A missing capital-flow or distribution analysis raises on
   * `.get` and scores as the error.
   */
  function OverallFromCounts(d: DiagnosisResult, positive: nat, negative: nat): ScoreResult {
    if d.capitalFlow.None? || d.capitalDistribution.None? then ScoreError
    else
      OverallFromParts(OverallTechProbes(d.technical), OverallCapitalProbes(d.capitalFlow.value),
        DistributionProbes(d.capitalDistribution.value), NewsProbes(positive, negative, |NewsOf(d)|))
  }

  /** The sum of the four parts as a percentage of 100, with one section of notes per part (none for missing news). */
  function OverallFromParts(tech: seq<Probe>, cap: seq<Probe>, dist: seq<Probe>, news: seq<Probe>): ScoreResult {
    var score := Percent(Points(tech) + Points(cap) + Points(dist) + Points(news), MaxScore);
    ScoreResult(score, Rating(score).0, Rating(score).1, OverallNotes(tech, cap, dist, news))
  }

  function OverallNotes(tech: seq<Probe>, cap: seq<Probe>, dist: seq<Probe>, news: seq<Probe>): string {
    var sections := [Section("技术分析得分：", tech, 40), Section("资金流向得分：", cap, 30), Section("资金分布得分：", dist, 20)]
      + (if |news| == 0 then [] else [Section("新闻舆情得分：", news, 10)]);
    Join(sections, Sep)
  }

  /** The overall score is the plain sum of the parts' points. */
  lemma PartsScore(tech: seq<Probe>, cap: seq<Probe>, dist: seq<Probe>, news: seq<Probe>)
    ensures OverallFromParts(tech, cap, dist, news).score == (Points(tech) + Points(cap) + Points(dist) + Points(news)) as real
  {
    var raw := Points(tech) + Points(cap) + Points(dist) + Points(news);
    assert MaxScore == 100;
    PercentOfHundred(raw);
  }

  /** The overall score, specified with the counting functions. */
  function OverallScore(d: DiagnosisResult): ScoreResult {
    var news := NewsOf(d);
    OverallFromCounts(d, CountLabel(news, "positive"), CountLabel(news, "negative"))
  }

  /** The sentiment-counting loop. */
  method CountSentiments(news: seq<NewsItem>) returns (positive: nat, negative: nat)
    ensures positive == CountLabel(news, "positive") && negative == CountLabel(news, "negative")
  {
    positive, negative := 0, 0;
    var i := 0;
    while i < |news|
      invariant 0 <= i <= |news|
      invariant positive == CountLabel(news[..i], "positive")
      invariant negative == CountLabel(news[..i], "negative")
    {
      assert news[..i + 1][..i] == news[..i];
      if news[i].sentiment == Some("positive") {
        positive := positive + 1;
      } else if news[i].sentiment == Some("negative") {
        negative := negative + 1;
      }
      i := i + 1;
    }
    assert news[..|news|] == news;
  }

  /** `calculate_overall_score(diagnosis_result)`. */
  method CalculateOverallScore(d: DiagnosisResult) returns (r: ScoreResult)
    ensures r == OverallScore(d)
  {
    var positive, negative := CountSentiments(NewsOf(d));
    r := OverallFromCounts(d, positive, negative);
  }

  /** The sum of a short list of probes, written out. */
  lemma {:induction false} PointsOf(ps: seq<Probe>)
    ensures |ps| == 1 ==> Points(ps) == ps[0].points
    ensures |ps| == 2 ==> Points(ps) == ps[0].points + ps[1].points
    ensures |ps| == 3 ==> Points(ps) == ps[0].points + ps[1].points + ps[2].points
    ensures |ps| == 4 ==> Points(ps) == ps[0].points + ps[1].points + ps[2].points + ps[3].points
  {
    if 1 <= |ps| <= 4 {
      var init := ps[..|ps| - 1];
      PointsOf(init);
      if |ps| == 1 { assert Points(init) == 0; }
    }
  }

  /** The technical part of the overall sum lies between 12 and 40. */
  lemma OverallTechBounds(a: TechnicalAnalysis)
    ensures 12 <= Points(OverallTechProbes(a)) <= 40
  {
    PointsOf(OverallTechProbes(a));
  }

  /** The capital part of the overall sum lies between 10 and 30. */
  lemma OverallCapitalBounds(c: CapitalFlowAnalysis)
    ensures 10 <= Points(OverallCapitalProbes(c)) <= 30
  {
    PointsOf(OverallCapitalProbes(c));
  }

  /** The distribution part lies between 3 and 20. */
  lemma DistributionBounds(d: DistributionAnalysis)
    ensures 3 <= Points(DistributionProbes(d)) <= 20
  {
    PointsOf(DistributionProbes(d));
  }

  /** The news part adds at most 10. */
  lemma NewsBounds(positive: nat, negative: nat, total: nat)
    ensures Points(NewsProbes(positive, negative, total)) <= 10
  {
    PointsOf(NewsProbes(positive, negative, total));
  }

  /** The overall score is the raw sum (out of a fixed 100) and lies in [0, 100]; without the capital analyses it is the error. */
  lemma OverallScoreRange(d: DiagnosisResult)
    ensures d.capitalFlow.None? || d.capitalDistribution.None? ==> OverallScore(d) == ScoreError
    ensures d.capitalFlow.Some? && d.capitalDistribution.Some? ==> 25.0 <= OverallScore(d).score <= 100.0
  {
    if d.capitalFlow.Some? && d.capitalDistribution.Some? {
      var news := NewsOf(d);
      OverallTechBounds(d.technical);
      OverallCapitalBounds(d.capitalFlow.value);
      DistributionBounds(d.capitalDistribution.value);
      NewsBounds(CountLabel(news, "positive"), CountLabel(news, "negative"), |news|);
      OverallIsSum(d);
    }
  }

  /** With both capital analyses present, the overall score is the plain sum of the four parts. */
  lemma OverallIsSum(d: DiagnosisResult)
    requires d.capitalFlow.Some? && d.capitalDistribution.Some?
    ensures var news := NewsOf(d);
      OverallScore(d).score == (Points(OverallTechProbes(d.technical)) + Points(OverallCapitalProbes(d.capitalFlow.value))
        + Points(DistributionProbes(d.capitalDistribution.value))
        + Points(NewsProbes(CountLabel(news, "positive"), CountLabel(news, "negative"), |news|))) as real
  {
    var news := NewsOf(d);
    PartsScore(OverallTechProbes(d.technical), OverallCapitalProbes(d.capitalFlow.value),
      DistributionProbes(d.capitalDistribution.value),
      NewsProbes(CountLabel(news, "positive"), CountLabel(news, "negative"), |news|));
  }

  /** Without a list under 'news_analysis' the news part is empty and adds nothing. */
  lemma NoNewsKeyNoNewsPoints(d: DiagnosisResult, positive: nat, negative: nat)
    requires NewsKey !in d.lists
    ensures NewsProbes(positive, negative, |NewsOf(d)|) == []
    ensures Points(NewsProbes(positive, negative, |NewsOf(d)|)) == 0
  {
  }

  /** A share read back as over 60 earns the full 10, over 40 earns 7, anything else 4. */
  lemma ShareProbePoints(v: real)
    ensures ShareProbe(Some(v)).points == (if v > 60.0 then 10 else if v > 40.0 then 7 else 4)
    ensures ShareProbe(None).points == 4
  {
  }
}
