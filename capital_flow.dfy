/**
 * The capital-flow data the backend gathers for a symbol and
 * `analyze_capital_flow`, which turns the daily history into three texts:
 * the 30-day trend, the main-capital movements and a strength assessment
 * built on a three-tier score out of 100. Amounts are in units of 亿元.
 */
module CapitalFlow {
  import opened Wrappers
  import opened Text
  import opened Order

  /** One day of the historical flow series. */
  datatype FlowDay = FlowDay(
    date: string, inFlow: real, mainInFlow: real, superInFlow: real,
    bigInFlow: real, midInFlow: real, smlInFlow: real)

  /** Amounts by order size: super-large, large, medium and small orders. */
  datatype Sizes = Sizes(super: real, big: real, mid: real, small: real)

  /** One snapshot of the capital distribution: money in and money out by order size. */
  datatype DistributionEntry = DistributionEntry(updateTime: string, capitalIn: Sizes, capitalOut: Sizes)

  /** What `get_capital_flow_data` returns when it succeeds. */
  datatype CapitalFlowData = CapitalFlowData(historical: seq<FlowDay>, distribution: seq<DistributionEntry>)

  /** The analyzer's three texts. */
  datatype CapitalFlowAnalysis = CapitalFlowAnalysis(trend30d: string, mainCapital: string, strengthAssessment: string)

  const NoFlowData: string := "暂无资金流向数据"
  const NoHistoryData: string := "暂无历史资金流向数据"
  const NoMainData: string := "暂无主力资金数据"
  const NoStrengthData: string := "暂无资金实力评估"

  // ---------------------------------------------------------------------------
  // Windows and sums
  // ---------------------------------------------------------------------------

  /** `df.tail(n)`: the last `n` rows, or all of them when there are fewer. */
  function Tail<T>(s: seq<T>, n: nat): (r: seq<T>)
    ensures |r| == if |s| < n then |s| else n
    ensures forall i | 0 <= i < |r| :: r[i] == s[|s| - |r| + i]
  {
    if |s| < n then s else s[|s| - n..]
  }

  function Sum(days: seq<FlowDay>, f: FlowDay -> real): real
    decreases |days|
  {
    if |days| == 0 then 0.0 else Sum(days[..|days| - 1], f) + f(days[|days| - 1])
  }

  /** A sum of one column over days where that column is positive everywhere is positive. */
  lemma {:induction false} SumPositive(days: seq<FlowDay>, f: FlowDay -> real)
    requires |days| > 0 && forall i | 0 <= i < |days| :: f(days[i]) > 0.0
    ensures Sum(days, f) > 0.0
    decreases |days|
  {
    if |days| > 1 {
      SumPositive(days[..|days| - 1], f);
    }
  }

  function DateOf(d: FlowDay): string { d.date }
  function InFlowOf(d: FlowDay): real { d.inFlow }
  function MainOf(d: FlowDay): real { d.mainInFlow }
  function SuperOf(d: FlowDay): real { d.superInFlow }
  function BigOf(d: FlowDay): real { d.bigInFlow }

  /** The figures the analyzer reads off the history: 30-day sums, the daily mean and the 5-day sum. */
  datatype FlowSums = FlowSums(total: real, avg: real, main: real, super: real, big: real, recent: real)

  /** The history in date order, as `df.sort_values('date')`. */
  function ByDate(days: seq<FlowDay>): seq<FlowDay> {
    SortBy(days, DateOf)
  }

  function SumsOf(days: seq<FlowDay>): FlowSums
    requires |days| > 0
  {
    var sorted := ByDate(days);
    SortByCorrect(days, DateOf);
    var last30 := Tail(sorted, 30);
    var last5 := Tail(sorted, 5);
    var total := Sum(last30, InFlowOf);
    FlowSums(total, total / |last30| as real,
      Sum(last30, MainOf), Sum(last30, SuperOf), Sum(last30, BigOf),
      Sum(last5, InFlowOf))
  }

  /** The 30-day window holds the latest days by date: no day left out is later than a day kept. */
  lemma WindowIsLatest(days: seq<FlowDay>)
    requires |days| > 0
    ensures var sorted := ByDate(days);
      var w := Tail(sorted, 30);
      && |w| == (if |days| < 30 then |days| else 30)
      && multiset(sorted) == multiset(days)
      && forall i, j | 0 <= i < |sorted| - |w| <= j < |sorted| :: StrLe(sorted[i].date, sorted[j].date)
  {
    SortByCorrect(days, DateOf);
  }

  /** When every day had a net inflow, all three figures the score looks at are positive. */
  lemma AllInflowDays(days: seq<FlowDay>)
    requires |days| > 0
    requires forall i | 0 <= i < |days| :: days[i].inFlow > 0.0 && days[i].mainInFlow > 0.0
    ensures SumsOf(days).total > 0.0 && SumsOf(days).main > 0.0 && SumsOf(days).recent > 0.0
  {
    var sorted := ByDate(days);
    SortByCorrect(days, DateOf);
    PermutedInflows(days, sorted);
    TailSumsPositive(sorted);
    SumsOfWindows(days);
  }

  /** Rearranging the days keeps every day's inflows positive. */
  lemma PermutedInflows(days: seq<FlowDay>, sorted: seq<FlowDay>)
    requires multiset(sorted) == multiset(days)
    requires forall i | 0 <= i < |days| :: days[i].inFlow > 0.0 && days[i].mainInFlow > 0.0
    ensures forall k | 0 <= k < |sorted| :: sorted[k].inFlow > 0.0 && sorted[k].mainInFlow > 0.0
  {
    forall k | 0 <= k < |sorted| ensures sorted[k].inFlow > 0.0 && sorted[k].mainInFlow > 0.0 {
      assert sorted[k] in multiset(days);
    }
  }

  lemma TailSumsPositive(sorted: seq<FlowDay>)
    requires |sorted| > 0
    requires forall k | 0 <= k < |sorted| :: sorted[k].inFlow > 0.0 && sorted[k].mainInFlow > 0.0
    ensures Sum(Tail(sorted, 30), InFlowOf) > 0.0 && Sum(Tail(sorted, 30), MainOf) > 0.0
    ensures Sum(Tail(sorted, 5), InFlowOf) > 0.0
  {
    SumPositive(Tail(sorted, 30), InFlowOf);
    SumPositive(Tail(sorted, 30), MainOf);
    SumPositive(Tail(sorted, 5), InFlowOf);
  }

  /** The three figures are sums over the last 30 and the last 5 days in date order. */
  lemma SumsOfWindows(days: seq<FlowDay>)
    requires |days| > 0
    ensures SumsOf(days).total == Sum(Tail(ByDate(days), 30), InFlowOf)
    ensures SumsOf(days).main == Sum(Tail(ByDate(days), 30), MainOf)
    ensures SumsOf(days).recent == Sum(Tail(ByDate(days), 5), InFlowOf)
  {
  }

  // ---------------------------------------------------------------------------
  // Texts
  // ---------------------------------------------------------------------------

  function Abs(x: real): real { if x < 0.0 then -x else x }

  /** An amount as `f'{x:.2f}'`. */
  function Money(x: real): string { FormatFixed(x, 2) }

  function TrendText(s: FlowSums): string {
    if s.total > 0.0 then "近30日累计净流入" + Money(s.total) + "亿元，日均净流入" + Money(s.avg) + "亿元"
    else "近30日累计净流出" + Money(Abs(s.total)) + "亿元，日均净流出" + Money(Abs(s.avg)) + "亿元"
  }

  /** `净流入{x}亿元` after `lead` when `x` is positive, `净流出{|x|}亿元` otherwise. */
  function NetPhrase(lead: string, x: real, tail: string): string {
    if x > 0.0 then lead + "净流入" + Money(x) + tail
    else lead + "净流出" + Money(Abs(x)) + tail
  }

  function MainPhrases(s: FlowSums): seq<string> {
    [NetPhrase("主力资金近30日", s.main, "亿元"),
     NetPhrase("超大单", s.super, "亿元"),
     NetPhrase("大单", s.big, "亿元"),
     if s.recent > 0.0 then "近5日净流入" + Money(s.recent) + "亿元，资金活跃度较高"
     else "近5日净流出" + Money(Abs(s.recent)) + "亿元，资金活跃度较低"]
  }

  /** Points for one tier: `full` above zero, `half` above `floor`, nothing otherwise. */
  function Tier(x: real, floor: real, full: nat, half: nat): nat {
    if x > 0.0 then full else if x > floor then half else 0
  }

  /** The strength score: 40/20/0 for the 30-day total, 30/15/0 for the main total, 30/15/0 for the last 5 days. */
  function StrengthScore(s: FlowSums): (score: nat)
    ensures score <= 100
  {
    Tier(s.total, -1000.0, 40, 20) + Tier(s.main, -500.0, 30, 15) + Tier(s.recent, -200.0, 30, 15)
  }

  /** Some tier earned nothing. */
  predicate SomeTierEmpty(s: FlowSums) {
    s.total <= -1000.0 || s.main <= -500.0 || s.recent <= -200.0
  }

  function TierPhrase(x: real, floor: real, strong: string, fair: string, weak: string): string {
    if x > 0.0 then strong else if x > floor then fair else weak
  }

  const StrongVerdict: string := "综合评估：资金实力雄厚，有能力推动股价上涨"
  const FairVerdict: string := "综合评估：资金实力一般，可能维持震荡"
  const WeakVerdict: string := "综合评估：资金实力较弱，可能面临调整"

  function Verdict(score: nat): string {
    if score >= 80 then StrongVerdict else if score >= 50 then FairVerdict else WeakVerdict
  }

  function StrengthPhrases(s: FlowSums): seq<string> {
    [TierPhrase(s.total, -1000.0, "近30日资金持续流入，资金实力较强", "近30日资金小幅流出，资金实力一般", "近30日资金大幅流出，资金实力较弱"),
     TierPhrase(s.main, -500.0, "主力资金持续流入，主力资金实力较强", "主力资金小幅流出，主力资金实力一般", "主力资金大幅流出，主力资金实力较弱"),
     TierPhrase(s.recent, -200.0, "近期资金活跃度较高，短期资金实力较强", "近期资金活跃度一般，短期资金实力一般", "近期资金活跃度较低，短期资金实力较弱"),
     Verdict(StrengthScore(s))]
  }

  function MainText(s: FlowSums): string { Join(MainPhrases(s), Sep) }
  function StrengthText(s: FlowSums): string { Join(StrengthPhrases(s), Sep) }

  /** `analyze_capital_flow(capital_flow_data)`. */
  function AnalyzeCapitalFlow(data: Option<CapitalFlowData>): CapitalFlowAnalysis {
    if data.None? then CapitalFlowAnalysis(NoFlowData, NoMainData, NoStrengthData)
    else if |data.value.historical| == 0 then CapitalFlowAnalysis(NoHistoryData, NoMainData, NoStrengthData)
    else
      var s := SumsOf(data.value.historical);
      CapitalFlowAnalysis(TrendText(s), MainText(s), StrengthText(s))
  }

  // ---------------------------------------------------------------------------
  // The score and the verdict
  // ---------------------------------------------------------------------------

  /** A score of 80 or more leaves no tier empty; a score under 50 needs an empty tier. */
  lemma ScoreAndEmptyTiers(s: FlowSums)
    ensures StrengthScore(s) >= 80 ==> !SomeTierEmpty(s)
    ensures StrengthScore(s) < 50 ==> SomeTierEmpty(s)
    ensures !SomeTierEmpty(s) ==> StrengthScore(s) >= 50
  {
  }

  /** A larger figure never lowers the score. */
  lemma ScoreMonotone(s: FlowSums, t: FlowSums)
    requires s.total <= t.total && s.main <= t.main && s.recent <= t.recent
    ensures StrengthScore(s) <= StrengthScore(t)
  {
  }

  /** The assessment calls the money strong (资金实力雄厚) exactly when the score reaches 80. */
  lemma StrongIffEighty(s: FlowSums)
    ensures Contains(StrengthText(s), "资金实力雄厚") <==> StrengthScore(s) >= 80
  {
    var parts := StrengthPhrases(s);
    StrengthWords(s);
    if StrengthScore(s) >= 80 {
      JoinContains(parts, Sep, 3, "资金实力雄厚");
    } else {
      JoinMisses(parts, Sep, "资金实力雄厚", '雄');
    }
  }

  /** The assessment calls the money weak (资金实力较弱) exactly when some tier earned nothing. */
  lemma WeakIffEmptyTier(s: FlowSums)
    ensures Contains(StrengthText(s), "资金实力较弱") <==> SomeTierEmpty(s)
  {
    var parts := StrengthPhrases(s);
    StrengthWords(s);
    ScoreAndEmptyTiers(s);
    if s.total <= -1000.0 {
      JoinContains(parts, Sep, 0, "资金实力较弱");
    } else if s.main <= -500.0 {
      JoinContains(parts, Sep, 1, "资金实力较弱");
    } else if s.recent <= -200.0 {
      JoinContains(parts, Sep, 2, "资金实力较弱");
    } else {
      JoinMisses(parts, Sep, "资金实力较弱", '弱');
    }
  }

  /** Where 雄 and 较弱 can appear in the four phrases of the assessment. */
  lemma StrengthWords(s: FlowSums)
    ensures var parts := StrengthPhrases(s);
      && |parts| == 4
      && (forall k | 0 <= k < 3 :: '雄' !in parts[k])
      && (StrengthScore(s) >= 80 ==> Contains(parts[3], "资金实力雄厚"))
      && (StrengthScore(s) < 80 ==> '雄' !in parts[3])
      && (s.total <= -1000.0 ==> Contains(parts[0], "资金实力较弱"))
      && (s.main <= -500.0 ==> Contains(parts[1], "资金实力较弱"))
      && (s.recent <= -200.0 ==> Contains(parts[2], "资金实力较弱"))
      && (!SomeTierEmpty(s) ==> forall k | 0 <= k < 4 :: '弱' !in parts[k])
  {
    TotalTierWords(s.total);
    MainTierWords(s.main);
    RecentTierWords(s.recent);
    VerdictWords(StrengthScore(s));
    ScoreAndEmptyTiers(s);
  }

  /** A tier phrase without 雄; it holds 资金实力较弱 when the figure is at or under the floor and has no 弱 otherwise. */
  lemma TierWords(x: real, floor: real, strong: string, fair: string, weak: string)
    requires floor < 0.0
    requires '雄' !in strong && '雄' !in fair && '雄' !in weak
    requires '弱' !in strong && '弱' !in fair && Contains(weak, "资金实力较弱")
    ensures '雄' !in TierPhrase(x, floor, strong, fair, weak)
    ensures x <= floor ==> Contains(TierPhrase(x, floor, strong, fair, weak), "资金实力较弱")
    ensures x > floor ==> '弱' !in TierPhrase(x, floor, strong, fair, weak)
  {
  }

  lemma TotalTierWords(x: real)
    ensures var t := TierPhrase(x, -1000.0, "近30日资金持续流入，资金实力较强", "近30日资金小幅流出，资金实力一般", "近30日资金大幅流出，资金实力较弱");
      && '雄' !in t && (x <= -1000.0 ==> Contains(t, "资金实力较弱")) && (x > -1000.0 ==> '弱' !in t)
  {
    assert OccursAt("近30日资金大幅流出，资金实力较弱", "资金实力较弱", 11);
    TierWords(x, -1000.0, "近30日资金持续流入，资金实力较强", "近30日资金小幅流出，资金实力一般", "近30日资金大幅流出，资金实力较弱");
  }

  lemma MainTierWords(x: real)
    ensures var t := TierPhrase(x, -500.0, "主力资金持续流入，主力资金实力较强", "主力资金小幅流出，主力资金实力一般", "主力资金大幅流出，主力资金实力较弱");
      && '雄' !in t && (x <= -500.0 ==> Contains(t, "资金实力较弱")) && (x > -500.0 ==> '弱' !in t)
  {
    assert OccursAt("主力资金大幅流出，主力资金实力较弱", "资金实力较弱", 11);
    TierWords(x, -500.0, "主力资金持续流入，主力资金实力较强", "主力资金小幅流出，主力资金实力一般", "主力资金大幅流出，主力资金实力较弱");
  }

  lemma RecentTierWords(x: real)
    ensures var t := TierPhrase(x, -200.0, "近期资金活跃度较高，短期资金实力较强", "近期资金活跃度一般，短期资金实力一般", "近期资金活跃度较低，短期资金实力较弱");
      && '雄' !in t && (x <= -200.0 ==> Contains(t, "资金实力较弱")) && (x > -200.0 ==> '弱' !in t)
  {
    assert OccursAt("近期资金活跃度较低，短期资金实力较弱", "资金实力较弱", 12);
    TierWords(x, -200.0, "近期资金活跃度较高，短期资金实力较强", "近期资金活跃度一般，短期资金实力一般", "近期资金活跃度较低，短期资金实力较弱");
  }

  /** The verdict says 资金实力雄厚 from 80 points, 资金实力一般 from 50 to 79, and 资金实力较弱 under 50. */
  lemma VerdictWords(score: nat)
    ensures score >= 80 ==> Contains(Verdict(score), "资金实力雄厚")
    ensures score < 80 ==> '雄' !in Verdict(score)
    ensures 50 <= score < 80 ==> Contains(Verdict(score), "资金实力一般")
    ensures score >= 50 ==> '弱' !in Verdict(score)
    ensures score < 50 ==> Contains(Verdict(score), "资金实力较弱")
  {
    if score >= 80 {
      assert OccursAt(StrongVerdict, "资金实力雄厚", 5);
    } else if score >= 50 {
      assert OccursAt(FairVerdict, "资金实力一般", 5);
    } else {
      assert OccursAt(WeakVerdict, "资金实力较弱", 5);
    }
  }

  // ---------------------------------------------------------------------------
  // Inflow and outflow words
  // ---------------------------------------------------------------------------

  /** A phrase about a positive figure says 净流入. */
  lemma NetPhraseIn(lead: string, x: real, tail: string)
    requires x > 0.0
    ensures Contains(NetPhrase(lead, x, tail), "净流入")
  {
    assert OccursAt("净流入", "净流入", 0);
    ContainsWithin(lead, "净流入", Money(x) + tail, "净流入");
    assert NetPhrase(lead, x, tail) == lead + "净流入" + (Money(x) + tail);
  }

  /** A phrase about any other figure says 净流出 and has no '入' at all. */
  lemma NetPhraseOut(lead: string, x: real, tail: string)
    requires x <= 0.0 && '入' !in lead && '入' !in tail
    ensures '入' !in NetPhrase(lead, x, tail) && Contains(NetPhrase(lead, x, tail), "净流出")
  {
    assert NetPhrase(lead, x, tail) == lead + "净流出" + Money(Abs(x)) + tail;
    OutflowPhrase(lead, Money(Abs(x)), tail);
  }

  /** `lead + 净流出 + amount + tail`, none of which holds '入', says 净流出 and has no '入'. */
  lemma OutflowPhrase(lead: string, amount: string, tail: string)
    requires '入' !in lead && '入' !in tail && forall c | c in amount :: IsNumberChar(c)
    ensures '入' !in lead + "净流出" + amount + tail
    ensures Contains(lead + "净流出" + amount + tail, "净流出")
  {
    assert !IsNumberChar('入');
    assert OccursAt("净流出", "净流出", 0);
    ContainsWithin(lead, "净流出", amount + tail, "净流出");
    assert lead + "净流出" + amount + tail == lead + "净流出" + (amount + tail);
  }

  /** One main-capital phrase, by the sign of its figure. */
  lemma NetPhraseWords(lead: string, x: real, tail: string)
    requires '入' !in lead && '入' !in tail
    ensures x > 0.0 ==> Contains(NetPhrase(lead, x, tail), "净流入")
    ensures x <= 0.0 ==> '入' !in NetPhrase(lead, x, tail) && Contains(NetPhrase(lead, x, tail), "净流出")
  {
    if x > 0.0 { NetPhraseIn(lead, x, tail); } else { NetPhraseOut(lead, x, tail); }
  }

  /** The figure behind the `k`-th main-capital phrase. */
  function Figure(s: FlowSums, k: nat): real
    requires k < 4
  {
    if k == 0 then s.main else if k == 1 then s.super else if k == 2 then s.big else s.recent
  }

  /** Some main-capital figure is positive. */
  predicate AnyInflow(s: FlowSums) {
    exists k | 0 <= k < 4 :: Figure(s, k) > 0.0
  }

  /** Each main-capital phrase says 净流入 when its figure is positive, and has no '入' otherwise. */
  lemma PartWords(s: FlowSums, k: nat)
    requires k < 4
    ensures Figure(s, k) > 0.0 ==> Contains(MainPhrases(s)[k], "净流入")
    ensures Figure(s, k) <= 0.0 ==> '入' !in MainPhrases(s)[k]
  {
    if k == 0 {
      NetPhraseWords("主力资金近30日", s.main, "亿元");
    } else if k == 1 {
      NetPhraseWords("超大单", s.super, "亿元");
    } else if k == 2 {
      NetPhraseWords("大单", s.big, "亿元");
    } else {
      RecentWords(s);
    }
  }

  /** The main-capital text says 净流入 exactly when one of its four figures is positive. */
  lemma MainTextInflow(s: FlowSums)
    ensures Contains(MainText(s), "净流入") <==> AnyInflow(s)
  {
    var parts := MainPhrases(s);
    if AnyInflow(s) {
      var k :| 0 <= k < 4 && Figure(s, k) > 0.0;
      PartWords(s, k);
      JoinContains(parts, Sep, k, "净流入");
    } else {
      forall k | 0 <= k < |parts| ensures '入' !in parts[k] {
        PartWords(s, k);
      }
      JoinMisses(parts, Sep, "净流入", '入');
    }
  }

  /** With no positive figure, the text says 净流出 (its first phrase reports the main outflow). */
  lemma MainTextOutflow(s: FlowSums)
    requires !AnyInflow(s)
    ensures Contains(MainText(s), "净流出")
  {
    assert Figure(s, 0) <= 0.0;
    NetPhraseOut("主力资金近30日", s.main, "亿元");
    JoinContains(MainPhrases(s), Sep, 0, "净流出");
  }

  lemma RecentWords(s: FlowSums)
    ensures var p := MainPhrases(s)[3];
      && (s.recent > 0.0 ==> Contains(p, "净流入"))
      && (s.recent <= 0.0 ==> '入' !in p)
  {
    var p := MainPhrases(s)[3];
    if s.recent > 0.0 {
      assert p == "近5日净流入" + (Money(s.recent) + "亿元，资金活跃度较高");
      assert OccursAt("近5日净流入", "净流入", 3);
      ContainsPrefix("近5日净流入", Money(s.recent) + "亿元，资金活跃度较高", "净流入");
    } else {
      AmountSentenceLacks("近5日净流出", Abs(s.recent), 2, "亿元，资金活跃度较低", '入');
    }
  }

  /** The 30-day trend text says 净流入 exactly when the 30-day total is positive. */
  lemma TrendTextWords(s: FlowSums)
    ensures Contains(TrendText(s), "净流入") <==> s.total > 0.0
  {
    var t := TrendText(s);
    if s.total > 0.0 {
      var rest := Money(s.total) + "亿元，日均净流入" + Money(s.avg) + "亿元";
      assert t == "近30日累计净流入" + rest;
      assert OccursAt("近30日累计净流入", "净流入", 6);
      ContainsPrefix("近30日累计净流入", rest, "净流入");
    } else {
      var head := "近30日累计净流出" + Money(Abs(s.total)) + "亿元，日均净流出";
      AmountSentenceLacks("近30日累计净流出", Abs(s.total), 2, "亿元，日均净流出", '入');
      AmountSentenceLacks(head, Abs(s.avg), 2, "亿元", '入');
      assert t == head + Money(Abs(s.avg)) + "亿元";
      AbsentChar(t, "净流入", '入');
    }
  }

  // ---------------------------------------------------------------------------
  // Missing data
  // ---------------------------------------------------------------------------

  /**
   * Without flow data, or with an empty history, the texts are placeholders
   * that mention neither inflow (入) nor outflow (出) nor strong (雄) or weak (弱) money.
   */
  lemma MissingDataTexts(data: Option<CapitalFlowData>, pat: string, c: char)
    requires data.None? || |data.value.historical| == 0
    requires c == '入' || c == '出' || c == '雄' || c == '弱'
    requires c in pat
    ensures AnalyzeCapitalFlow(data).mainCapital == NoMainData
    ensures AnalyzeCapitalFlow(data).strengthAssessment == NoStrengthData
    ensures !Contains(AnalyzeCapitalFlow(data).mainCapital, pat)
    ensures !Contains(AnalyzeCapitalFlow(data).strengthAssessment, pat)
  {
    AbsentChar(NoMainData, pat, c);
    AbsentChar(NoStrengthData, pat, c);
  }
}
