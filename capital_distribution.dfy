/**
 * `analyze_capital_distribution`: the latest distribution snapshot split into
 * main money (super-large + large orders) and retail money (medium + small
 * orders), their nets, their shares of the traded volume and a four-way
 * structure verdict.
 */
module CapitalDistribution {
  import opened Wrappers
  import opened Text
  import opened CapitalFlow

  /** The analyzer's three texts. */
  datatype DistributionAnalysis = DistributionAnalysis(
    mainDistribution: string, retailDistribution: string, capitalStructure: string)

  const NoDistribution: string := "暂无资金分布数据"
  const DistributionError: string := "资金分布分析出错"

  /** The figures of one snapshot. */
  datatype Nets = Nets(superNet: real, bigNet: real, midNet: real, smallNet: real,
                       mainNet: real, retailNet: real, totalNet: real)

  function NetsOf(e: DistributionEntry): Nets {
    var i, o := e.capitalIn, e.capitalOut;
    var mainIn, mainOut := i.super + i.big, o.super + o.big;
    var retailIn, retailOut := i.mid + i.small, o.mid + o.small;
    Nets(i.super - o.super, i.big - o.big, i.mid - o.mid, i.small - o.small,
      mainIn - mainOut, retailIn - retailOut, (mainIn + retailIn) - (mainOut + retailOut))
  }

  /** Money in plus money out, over all order sizes: the divisor of both shares. */
  function Volume(e: DistributionEntry): real {
    var i, o := e.capitalIn, e.capitalOut;
    (i.super + i.big + i.mid + i.small) + (o.super + o.big + o.mid + o.small)
  }

  /** Main money's share of the volume, in percent. */
  function MainRatio(e: DistributionEntry): real
    requires Volume(e) != 0.0
  {
    var i, o := e.capitalIn, e.capitalOut;
    ((i.super + i.big) + (o.super + o.big)) / Volume(e) * 100.0
  }

  function RetailRatio(e: DistributionEntry): real
    requires Volume(e) != 0.0
  {
    var i, o := e.capitalIn, e.capitalOut;
    ((i.mid + i.small) + (o.mid + o.small)) / Volume(e) * 100.0
  }

  function MainPoints(n: Nets): seq<string> {
    [NetPhrase("主力资金（超大单+大单）", n.mainNet, "亿元"),
     NetPhrase("超大单", n.superNet, "亿元"),
     NetPhrase("大单", n.bigNet, "亿元")]
  }

  function RetailPoints(n: Nets): seq<string> {
    [NetPhrase("散户资金（中单+小单）", n.retailNet, "亿元"),
     NetPhrase("中单", n.midNet, "亿元"),
     NetPhrase("小单", n.smallNet, "亿元")]
  }

  const GoodStructure: string := "主力资金流入，散户资金流出，市场结构良好"
  const RiskyStructure: string := "主力资金流出，散户资金流入，需警惕风险"
  const BothIn: string := "主力资金和散户资金同步流入，市场情绪较好"
  const BothOut: string := "主力资金和散户资金同步流出，市场情绪较差"

  /** The structure verdict: one of four, or none when either net is zero. */
  function StructureVerdict(n: Nets): seq<string> {
    if n.mainNet > 0.0 && n.retailNet < 0.0 then [GoodStructure]
    else if n.mainNet < 0.0 && n.retailNet > 0.0 then [RiskyStructure]
    else if n.mainNet > 0.0 && n.retailNet > 0.0 then [BothIn]
    else if n.mainNet < 0.0 && n.retailNet < 0.0 then [BothOut]
    else []
  }

  /** The share sentence, each share as `f'{x:.1f}'`. */
  function ShareText(mainRatio: real, retailRatio: real): string {
    "主力资金占比" + FormatFixed(mainRatio, 1) + "%，散户资金占比" + FormatFixed(retailRatio, 1) + "%"
  }

  function StructurePoints(e: DistributionEntry): seq<string>
    requires Volume(e) != 0.0
  {
    var n := NetsOf(e);
    [NetPhrase("总体资金", n.totalNet, "亿元"), ShareText(MainRatio(e), RetailRatio(e))] + StructureVerdict(n)
  }

  /** `analyze_capital_distribution(capital_flow_data)`; a zero volume is the division error `analyze_capital_distribution` catches. */
  function AnalyzeCapitalDistribution(data: Option<CapitalFlowData>): DistributionAnalysis {
    if data.None? || |data.value.distribution| == 0 then
      DistributionAnalysis(NoDistribution, NoDistribution, NoDistribution)
    else
      var e := data.value.distribution[|data.value.distribution| - 1];
      if Volume(e) == 0.0 then DistributionAnalysis(DistributionError, DistributionError, DistributionError)
      else
        var n := NetsOf(e);
        DistributionAnalysis(Join(MainPoints(n), Sep), Join(RetailPoints(n), Sep), Join(StructurePoints(e), Sep))
  }

  // ---------------------------------------------------------------------------
  // Properties
  // ---------------------------------------------------------------------------

  /** Main money is super-large plus large, retail is medium plus small, and the total is their sum. */
  lemma NetsAddUp(e: DistributionEntry)
    ensures var n := NetsOf(e);
      && n.mainNet == n.superNet + n.bigNet
      && n.retailNet == n.midNet + n.smallNet
      && n.totalNet == n.mainNet + n.retailNet
  {
  }

  /** The two shares always make up the whole volume. */
  lemma SharesMakeHundred(e: DistributionEntry)
    requires Volume(e) != 0.0
    ensures MainRatio(e) + RetailRatio(e) == 100.0
  {
    var i, o := e.capitalIn, e.capitalOut;
    var m, r, v := (i.super + i.big) + (o.super + o.big), (i.mid + i.small) + (o.mid + o.small), Volume(e);
    assert m + r == v;
    assert m / v + r / v == (m + r) / v;
  }

  /** A structure verdict is given exactly when both nets are nonzero, and then it is one phrase. */
  lemma VerdictOnlyWhenBothMove(n: Nets)
    ensures |StructureVerdict(n)| <= 1
    ensures |StructureVerdict(n)| == 1 <==> n.mainNet != 0.0 && n.retailNet != 0.0
  {
  }

  /** With no data, or no snapshot, every text is the placeholder. */
  lemma NoSnapshot(data: Option<CapitalFlowData>)
    requires data.None? || |data.value.distribution| == 0
    ensures AnalyzeCapitalDistribution(data) == DistributionAnalysis(NoDistribution, NoDistribution, NoDistribution)
  {
  }

  /** A snapshot with nothing traded takes the error path for all three texts. */
  lemma ZeroVolumeFails(data: CapitalFlowData)
    requires |data.distribution| > 0 && Volume(data.distribution[|data.distribution| - 1]) == 0.0
    ensures AnalyzeCapitalDistribution(Some(data)) == DistributionAnalysis(DistributionError, DistributionError, DistributionError)
  {
  }

  /** A pattern with a character that neither leading phrase holds, nor any verdict but `v`, occurs exactly when `v` is the verdict. */
  lemma VerdictWord(e: DistributionEntry, v: string, pat: string, c: char)
    requires Volume(e) != 0.0
    requires Contains(v, pat) && c in pat && c !in Sep
    requires c !in NetPhrase("总体资金", NetsOf(e).totalNet, "亿元") && c !in ShareText(MainRatio(e), RetailRatio(e))
    requires var verdict := StructureVerdict(NetsOf(e)); verdict == [] || verdict == [v] || c !in verdict[0]
    ensures Contains(Join(StructurePoints(e), Sep), pat) <==> StructureVerdict(NetsOf(e)) == [v]
  {
    var n := NetsOf(e);
    VerdictInList(NetPhrase("总体资金", n.totalNet, "亿元"), ShareText(MainRatio(e), RetailRatio(e)), StructureVerdict(n), v, pat, c);
  }

  lemma TotalPhraseLacks(x: real, c: char)
    requires c !in "总体资金净流入亿元" && c !in "总体资金净流出亿元" && !IsNumberChar(c)
    ensures c !in NetPhrase("总体资金", x, "亿元")
  {
    AmountSentenceLacks("总体资金净流入", x, 2, "亿元", c);
    AmountSentenceLacks("总体资金净流出", Abs(x), 2, "亿元", c);
  }

  lemma ShareTextLacks(m: real, r: real, c: char)
    requires c !in "主力资金占比，散户资金占比" && c != '%' && !IsNumberChar(c)
    ensures c !in ShareText(m, r)
  {
    AmountSentenceLacks("主力资金占比", m, 1, "%，散户资金占比", c);
    AmountSentenceLacks("主力资金占比" + FormatFixed(m, 1) + "%，散户资金占比", r, 1, "%", c);
  }

  /**
   * Two phrases without `c`, then at most one verdict: a pattern holding `c`
   * that occurs in `v` is found exactly when the verdict is `v`, provided any
   * other verdict lacks `c`.
   */
  lemma VerdictInList(p0: string, p1: string, verdict: seq<string>, v: string, pat: string, c: char)
    requires c !in p0 && c !in p1 && c !in Sep && c in pat && Contains(v, pat)
    requires verdict == [] || verdict == [v] || (|verdict| == 1 && c !in verdict[0])
    ensures Contains(Join([p0, p1] + verdict, Sep), pat) <==> verdict == [v]
  {
    var parts := [p0, p1] + verdict;
    if verdict == [v] {
      JoinContains(parts, Sep, 2, pat);
    } else {
      assert forall k | 0 <= k < |parts| :: c !in parts[k];
      JoinMisses(parts, Sep, pat, c);
    }
  }

  /** The structure text says 市场结构良好 exactly when main money came in and retail money went out. */
  lemma GoodStructureIff(e: DistributionEntry)
    requires Volume(e) != 0.0
    ensures var n := NetsOf(e);
      Contains(Join(StructurePoints(e), Sep), "市场结构良好") <==> n.mainNet > 0.0 && n.retailNet < 0.0
  {
    var n := NetsOf(e);
    GoodLetterInVerdicts();
    GoodLetterElsewhere();
    TotalPhraseLacks(n.totalNet, '良');
    ShareTextLacks(MainRatio(e), RetailRatio(e), '良');
    VerdictWord(e, GoodStructure, "市场结构良好", '良');
    GoodVerdict(n);
  }

  lemma GoodVerdict(n: Nets)
    ensures StructureVerdict(n) == [GoodStructure] <==> n.mainNet > 0.0 && n.retailNet < 0.0
  {
    GoodLetterInVerdicts();
    var verdict := StructureVerdict(n);
    if verdict == [GoodStructure] {
      assert '良' in verdict[0];
    }
  }

  lemma GoodLetterInVerdicts()
    ensures OccursAt(GoodStructure, "市场结构良好", 14) && '良' in "市场结构良好"
    ensures '良' !in RiskyStructure && '良' !in BothIn && '良' !in BothOut
  {
  }

  lemma GoodLetterElsewhere()
    ensures '良' !in "总体资金净流入亿元" && '良' !in "总体资金净流出亿元"
    ensures '良' !in "主力资金占比，散户资金占比" && '良' !in Sep && !IsNumberChar('良')
  {
  }

  /** The structure text says 需警惕风险 exactly when main money went out and retail money came in. */
  lemma RiskyStructureIff(e: DistributionEntry)
    requires Volume(e) != 0.0
    ensures var n := NetsOf(e);
      Contains(Join(StructurePoints(e), Sep), "需警惕风险") <==> n.mainNet < 0.0 && n.retailNet > 0.0
  {
    var n := NetsOf(e);
    RiskyLetterInVerdicts();
    RiskyLetterElsewhere();
    TotalPhraseLacks(n.totalNet, '警');
    ShareTextLacks(MainRatio(e), RetailRatio(e), '警');
    VerdictWord(e, RiskyStructure, "需警惕风险", '警');
    RiskyVerdict(n);
  }

  lemma RiskyVerdict(n: Nets)
    ensures StructureVerdict(n) == [RiskyStructure] <==> n.mainNet < 0.0 && n.retailNet > 0.0
  {
    RiskyLetterInVerdicts();
    var verdict := StructureVerdict(n);
    if verdict == [RiskyStructure] {
      assert '警' in verdict[0];
    }
  }

  lemma RiskyLetterInVerdicts()
    ensures OccursAt(RiskyStructure, "需警惕风险", 14) && '警' in "需警惕风险"
    ensures '警' !in GoodStructure && '警' !in BothIn && '警' !in BothOut
  {
  }

  lemma RiskyLetterElsewhere()
    ensures '警' !in "总体资金净流入亿元" && '警' !in "总体资金净流出亿元"
    ensures '警' !in "主力资金占比，散户资金占比" && '警' !in Sep && !IsNumberChar('警')
  {
  }

  /** Two or three phrases joined with the separator. */
  lemma JoinStructure(p0: string, p1: string, v: seq<string>)
    requires |v| <= 1
    ensures Join([p0, p1] + v, Sep) == p0 + Sep + p1 + (if |v| == 0 then "" else Sep + v[0])
  {
    if |v| == 1 {
      var w := [p0, p1] + v;
      assert w == [p0, p1, v[0]];
      assert w[1..] == [p1, v[0]] && w[1..][1..] == [v[0]];
      assert Join(w[1..][1..], Sep) == v[0];
      assert Join(w[1..], Sep) == p1 + Sep + v[0];
      assert Join(w, Sep) == p0 + Sep + (p1 + Sep + v[0]);
    } else {
      assert [p0, p1] + v == [p0, p1];
      assert [p0, p1][1..] == [p1];
    }
  }

  /** The net-total sentence never holds '主'. */
  lemma TotalPhraseLacksMain(x: real)
    ensures '主' !in NetPhrase("总体资金", x, "亿元")
  {
    AmountSentenceLacks("总体资金净流入", x, 2, "亿元", '主');
    AmountSentenceLacks("总体资金净流出", Abs(x), 2, "亿元", '主');
  }

  /** Reading the main share back out of the share sentence and what follows it. */
  lemma ShareTextReadBack(p0: string, mainRatio: real, retailRatio: real, rest: string)
    requires '主' !in p0
    ensures var text := p0 + Sep + ShareText(mainRatio, retailRatio) + rest;
      && SplitSecond(text, "主力资金占比").Some?
      && ParseDecimal(BeforeFirst(SplitSecond(text, "主力资金占比").value, '%')) == Some(Rounded(mainRatio, 1))
  {
    var text := p0 + Sep + ShareText(mainRatio, retailRatio) + rest;
    var a := FormatFixed(mainRatio, 1);
    var b := "，散户资金占比" + FormatFixed(retailRatio, 1) + "%" + rest;
    ShareTextShape(p0, mainRatio, retailRatio, rest);
    FormatParseRoundTrip(mainRatio, 1);
    PieceReadBack(text, p0 + Sep, a, b, Rounded(mainRatio, 1));
  }

  lemma ShareTextShape(p0: string, mainRatio: real, retailRatio: real, rest: string)
    ensures p0 + Sep + ShareText(mainRatio, retailRatio) + rest
      == (p0 + Sep) + "主力资金占比" + FormatFixed(mainRatio, 1) + ['%']
        + ("，散户资金占比" + FormatFixed(retailRatio, 1) + "%" + rest)
  {
    Regroup(p0 + Sep, FormatFixed(mainRatio, 1), FormatFixed(retailRatio, 1), rest);
  }

  lemma Regroup(p: string, a: string, b: string, rest: string)
    ensures p + ("主力资金占比" + a + "%，散户资金占比" + b + "%") + rest
      == p + "主力资金占比" + a + ['%'] + ("，散户资金占比" + b + "%" + rest)
  {
    assert "%，散户资金占比" == ['%'] + "，散户资金占比";
  }

  /** The number between 主力资金占比 and the next '%' reads back as the value it spells. */
  lemma PieceReadBack(text: string, p: string, a: string, b: string, x: real)
    requires text == p + "主力资金占比" + a + ['%'] + b
    requires '主' !in p && (forall ch | ch in a :: IsNumberChar(ch)) && ParseDecimal(a) == Some(x)
    ensures SplitSecond(text, "主力资金占比").Some?
    ensures ParseDecimal(BeforeFirst(SplitSecond(text, "主力资金占比").value, '%')) == Some(x)
  {
    assert !IsNumberChar('%') && !IsNumberChar('主');
    SplitThenBefore(p, "主力资金占比", a, '%', b);
  }

  /**
   * Reading the main share back out of the structure text, as the overall
   * score does (`split('主力资金占比')[1].split('%')[0]` then `float`), gives
   * the share rounded to one decimal place.
   */
  lemma ShareReadBack(e: DistributionEntry)
    requires Volume(e) != 0.0
    ensures var text := Join(StructurePoints(e), Sep);
      && SplitSecond(text, "主力资金占比").Some?
      && ParseDecimal(BeforeFirst(SplitSecond(text, "主力资金占比").value, '%')) == Some(Rounded(MainRatio(e), 1))
  {
    var n := NetsOf(e);
    var p0 := NetPhrase("总体资金", n.totalNet, "亿元");
    var verdict := StructureVerdict(n);
    VerdictOnlyWhenBothMove(n);
    JoinStructure(p0, ShareText(MainRatio(e), RetailRatio(e)), verdict);
    TotalPhraseLacksMain(n.totalNet);
    ShareTextReadBack(p0, MainRatio(e), RetailRatio(e), if |verdict| == 0 then "" else Sep + verdict[0]);
  }

  /** The share sentence is written whenever the snapshot traded anything. */
  lemma ShareWritten(data: CapitalFlowData)
    requires |data.distribution| > 0
    ensures var e := data.distribution[|data.distribution| - 1];
      Volume(e) != 0.0 ==>
        AnalyzeCapitalDistribution(Some(data)).capitalStructure == Join(StructurePoints(e), Sep)
  {
  }
}
