/**
 * `generate_investment_advice` and `generate_risk_warning`: each runs a fixed
 * list of rules on the latest two K-line rows and the latest two days of the
 * flow history, joins the phrases of the rules that fire with '；', and falls
 * back to a fixed sentence when none fires.
 */
module Advisory {
  import opened Wrappers
  import opened Text
  import opened KlineSource
  import opened CapitalFlow

  const AdviceNoData: string := "数据不足，无法给出投资建议"
  const AdviceError: string := "生成投资建议时出错"
  const AdviceNone: string := "暂无明确投资建议，建议观望为主"

  const RiskNoData: string := "数据不足，无法给出风险提示"
  const RiskError: string := "生成风险提示时出错"
  const RiskNone: string := "暂无明确风险提示，但仍需注意市场风险"

  /** The advice rules, one constructor per phrase. */
  datatype AdviceRule =
    | AboveBoth | UnderBoth | ShortCrossUp | ShortCrossDown | FlowSpeedsIn | FlowSpeedsOut
    | RsiHigh | RsiLow | MacdUp | MacdDown

  function AdvicePhrase(r: AdviceRule): string {
    match r
    case AboveBoth => "当前价格位于短期和中期均线之上，技术面偏强"
    case UnderBoth => "当前价格位于短期和中期均线之下，技术面偏弱"
    case ShortCrossUp => "短期均线上穿中期均线，可考虑逢低布局"
    case ShortCrossDown => "短期均线下穿中期均线，建议观望为主"
    case FlowSpeedsIn => "资金持续流入且加速，可考虑适当加仓"
    case FlowSpeedsOut => "资金持续流出且加速，建议控制仓位"
    case RsiHigh => "RSI处于超买区域，注意回调风险"
    case RsiLow => "RSI处于超卖区域，可考虑逢低布局"
    case MacdUp => "MACD金叉，可考虑逢低布局"
    case MacdDown => "MACD死叉，建议观望为主"
  }

  /** The risk rules, one constructor per phrase; the volatility phrase carries its percentage. */
  datatype RiskRule =
    | RiskUnderBoth | RiskRsiHigh | RiskRsiLow | RiskMacdDown | RiskFlowOut | RiskMainOut
    | RiskVolatile(percent: real)

  function RiskPhrase(r: RiskRule): string {
    match r
    case RiskUnderBoth => "价格位于短期和中期均线之下，存在继续下跌风险"
    case RiskRsiHigh => "RSI处于严重超买区域，存在大幅回调风险"
    case RiskRsiLow => "RSI处于严重超卖区域，存在继续下跌风险"
    case RiskMacdDown => "MACD死叉，存在下跌风险"
    case RiskFlowOut => "资金持续流出且加速，存在继续下跌风险"
    case RiskMainOut => "主力资金持续流出且加速，存在较大下跌风险"
    case RiskVolatile(v) => "近期波动率较大（" + FormatFixed(v, 1) + "%），存在较大波动风险"
  }

  function AdviceText(rules: seq<AdviceRule>): string {
    JoinOr(seq(|rules|, i requires 0 <= i < |rules| => AdvicePhrase(rules[i])), AdviceNone)
  }

  function RiskText(rules: seq<RiskRule>): string {
    JoinOr(seq(|rules|, i requires 0 <= i < |rules| => RiskPhrase(rules[i])), RiskNone)
  }

  /**
   * `rsi > k` on a pandas column: a missing value is NaN there, and NaN
   * compares false.
   */
  predicate RsiAbove(r: Option<real>, k: real) {
    r.Some? && r.value > k
  }

  predicate RsiBelow(r: Option<real>, k: real) {
    r.Some? && r.value < k
  }

  /**
   * No row has an RSI: pandas then keeps the column as Python `None`s, and
   * `None > 70` raises a TypeError, which `generate_investment_advice` and `generate_risk_warning` turn into their error texts.
   */
  predicate RsiColumnEmpty(rows: seq<KlineRow>) {
    forall i | 0 <= i < |rows| :: rows[i].rsi.None?
  }

  /** `historical_flow[-1]` and `historical_flow[-2]`, when there are two days. */
  function LastTwo(h: seq<FlowDay>): Option<(FlowDay, FlowDay)> {
    if |h| >= 2 then Some((h[|h| - 1], h[|h| - 2])) else None
  }

  /** The MACD turned positive on the latest bar. */
  predicate MacdTurnsUp(latest: KlineRow, prev: KlineRow) {
    latest.macd > 0.0 && prev.macd <= 0.0
  }

  /** The MACD turned negative on the latest bar. */
  predicate MacdTurnsDown(latest: KlineRow, prev: KlineRow) {
    latest.macd < 0.0 && prev.macd >= 0.0
  }

  /** The close is under both EMA5 and EMA20. */
  predicate UnderShortAndMedium(latest: KlineRow) {
    latest.close < latest.ema5 && latest.close < latest.ema20
  }

  /** The close is over both EMA5 and EMA20. */
  predicate AboveShortAndMedium(latest: KlineRow) {
    latest.close > latest.ema5 && latest.close > latest.ema20
  }

  /** EMA5 crossed over EMA20 on the latest bar. */
  predicate ShortCrossesUp(latest: KlineRow, prev: KlineRow) {
    latest.ema5 > latest.ema20 && prev.ema5 <= prev.ema20
  }

  /** EMA5 crossed under EMA20 on the latest bar. */
  predicate ShortCrossesDown(latest: KlineRow, prev: KlineRow) {
    latest.ema5 < latest.ema20 && prev.ema5 >= prev.ema20
  }

  /** The latest day's net inflow is positive and above the day before's. */
  predicate InflowSpeedsUp(flows: Option<(FlowDay, FlowDay)>) {
    flows.Some? && flows.value.0.inFlow > 0.0 && flows.value.0.inFlow > flows.value.1.inFlow
  }

  /** The latest day's net inflow is negative and below the day before's. */
  predicate OutflowSpeedsUp(flows: Option<(FlowDay, FlowDay)>) {
    flows.Some? && flows.value.0.inFlow < 0.0 && flows.value.0.inFlow < flows.value.1.inFlow
  }

  /** The latest day's main net inflow is negative and below the day before's. */
  predicate MainOutflowSpeedsUp(flows: Option<(FlowDay, FlowDay)>) {
    flows.Some? && flows.value.0.mainInFlow < 0.0 && flows.value.0.mainInFlow < flows.value.1.mainInFlow
  }

  function TrendAdvice(latest: KlineRow): seq<AdviceRule> {
    if AboveShortAndMedium(latest) then [AboveBoth]
    else if UnderShortAndMedium(latest) then [UnderBoth] else []
  }

  function CrossAdvice(latest: KlineRow, prev: KlineRow): seq<AdviceRule> {
    if ShortCrossesUp(latest, prev) then [ShortCrossUp]
    else if ShortCrossesDown(latest, prev) then [ShortCrossDown] else []
  }

  function FlowAdvice(flows: Option<(FlowDay, FlowDay)>): seq<AdviceRule> {
    if InflowSpeedsUp(flows) then [FlowSpeedsIn]
    else if OutflowSpeedsUp(flows) then [FlowSpeedsOut] else []
  }

  function RsiAdvice(latest: KlineRow): seq<AdviceRule> {
    if RsiAbove(latest.rsi, 70.0) then [RsiHigh] else if RsiBelow(latest.rsi, 30.0) then [RsiLow] else []
  }

  function MacdAdvice(latest: KlineRow, prev: KlineRow): seq<AdviceRule> {
    if MacdTurnsUp(latest, prev) then [MacdUp] else if MacdTurnsDown(latest, prev) then [MacdDown] else []
  }

  /** The phrases of the advice rules that fire, in rule order. */
  function AdvicePoints(latest: KlineRow, prev: KlineRow, flows: Option<(FlowDay, FlowDay)>): seq<AdviceRule> {
    TrendAdvice(latest) + CrossAdvice(latest, prev) + FlowAdvice(flows) + RsiAdvice(latest) + MacdAdvice(latest, prev)
  }

  /** Each advice rule's own condition, read independently of the others. */
  predicate AdviceFires(r: AdviceRule, latest: KlineRow, prev: KlineRow, flows: Option<(FlowDay, FlowDay)>) {
    match r
    case AboveBoth => AboveShortAndMedium(latest)
    case UnderBoth => UnderShortAndMedium(latest)
    case ShortCrossUp => ShortCrossesUp(latest, prev)
    case ShortCrossDown => ShortCrossesDown(latest, prev)
    case FlowSpeedsIn => InflowSpeedsUp(flows)
    case FlowSpeedsOut => OutflowSpeedsUp(flows)
    case RsiHigh => RsiAbove(latest.rsi, 70.0)
    case RsiLow => RsiBelow(latest.rsi, 30.0)
    case MacdUp => MacdTurnsUp(latest, prev)
    case MacdDown => MacdTurnsDown(latest, prev)
  }

  function FlowRisks(flows: Option<(FlowDay, FlowDay)>): seq<RiskRule> {
    (if OutflowSpeedsUp(flows) then [RiskFlowOut] else [])
    + (if MainOutflowSpeedsUp(flows) then [RiskMainOut] else [])
  }

  function RsiRisks(latest: KlineRow): seq<RiskRule> {
    if RsiAbove(latest.rsi, 80.0) then [RiskRsiHigh] else if RsiBelow(latest.rsi, 20.0) then [RiskRsiLow] else []
  }

  function VolatilityRisks(volatility: Option<real>): seq<RiskRule> {
    if volatility.Some? && volatility.value > 5.0 then [RiskVolatile(volatility.value)] else []
  }

  /**
   * The phrases of the risk rules that fire, in rule order. `volatility` is the
   * standard deviation of the close's percentage change times 100, None where
   * pandas gives NaN.
   */
  function RiskPoints(latest: KlineRow, prev: KlineRow, flows: Option<(FlowDay, FlowDay)>,
                      volatility: Option<real>): seq<RiskRule> {
    (if UnderShortAndMedium(latest) then [RiskUnderBoth] else [])
    + RsiRisks(latest)
    + (if MacdTurnsDown(latest, prev) then [RiskMacdDown] else [])
    + FlowRisks(flows)
    + VolatilityRisks(volatility)
  }

  /** Each risk rule's own condition; the volatility rule carries the volatility it reports. */
  predicate RiskFires(r: RiskRule, latest: KlineRow, prev: KlineRow, flows: Option<(FlowDay, FlowDay)>,
                      volatility: Option<real>) {
    match r
    case RiskUnderBoth => UnderShortAndMedium(latest)
    case RiskRsiHigh => RsiAbove(latest.rsi, 80.0)
    case RiskRsiLow => RsiBelow(latest.rsi, 20.0)
    case RiskMacdDown => MacdTurnsDown(latest, prev)
    case RiskFlowOut => OutflowSpeedsUp(flows)
    case RiskMainOut => MainOutflowSpeedsUp(flows)
    case RiskVolatile(v) => volatility == Some(v) && v > 5.0
  }

  /** Both functions give up without rows or without flow data. */
  predicate MissingInput(kline: Option<seq<KlineRow>>, flow: Option<CapitalFlowData>) {
    kline.None? || |kline.value| == 0 || flow.None?
  }

  /** Past the data check, the row lookups and the RSI comparison raise on these inputs. */
  predicate Raises(rows: seq<KlineRow>) {
    |rows| < 2 || RsiColumnEmpty(rows)
  }

  /** `generate_investment_advice(kline_data, capital_flow_data)`. */
  function GenerateInvestmentAdvice(kline: Option<seq<KlineRow>>, flow: Option<CapitalFlowData>): string {
    if MissingInput(kline, flow) then AdviceNoData
    else if Raises(kline.value) then AdviceError
    else
      var rows := kline.value;
      AdviceText(AdvicePoints(rows[|rows| - 1], rows[|rows| - 2], LastTwo(flow.value.historical)))
  }

  /** `generate_risk_warning(kline_data, capital_flow_data)`, with the volatility as an input. */
  function GenerateRiskWarning(kline: Option<seq<KlineRow>>, flow: Option<CapitalFlowData>,
                               volatility: Option<real>): string {
    if MissingInput(kline, flow) then RiskNoData
    else if Raises(kline.value) then RiskError
    else
      var rows := kline.value;
      RiskText(RiskPoints(rows[|rows| - 1], rows[|rows| - 2], LastTwo(flow.value.historical), volatility))
  }

  // ---------------------------------------------------------------------------
  // Properties
  // ---------------------------------------------------------------------------

  /** Without rows or flow data both texts are the insufficient-data sentences. */
  lemma MissingInputTexts(kline: Option<seq<KlineRow>>, flow: Option<CapitalFlowData>, volatility: Option<real>)
    requires MissingInput(kline, flow)
    ensures GenerateInvestmentAdvice(kline, flow) == AdviceNoData
    ensures GenerateRiskWarning(kline, flow, volatility) == RiskNoData
  {
  }

  /** A single row, or rows without any RSI, end in the error sentences. */
  lemma RaisingInputs(rows: seq<KlineRow>, flow: CapitalFlowData, volatility: Option<real>)
    requires |rows| == 1 || (|rows| > 0 && RsiColumnEmpty(rows))
    ensures GenerateInvestmentAdvice(Some(rows), Some(flow)) == AdviceError
    ensures GenerateRiskWarning(Some(rows), Some(flow), volatility) == RiskError
  {
  }

  /** `x` is in five concatenated sequences exactly when it is in one of them. */
  lemma InFive<T>(x: T, a: seq<T>, b: seq<T>, c: seq<T>, d: seq<T>, e: seq<T>)
    ensures x in a + b + c + d + e <==> x in a || x in b || x in c || x in d || x in e
  {
  }

  /** An advice rule is given exactly when its own condition holds: the `elif`s never hide a rule. */
  lemma AdviceMembership(r: AdviceRule, latest: KlineRow, prev: KlineRow, flows: Option<(FlowDay, FlowDay)>)
    ensures r in AdvicePoints(latest, prev, flows) <==> AdviceFires(r, latest, prev, flows)
  {
    InFive(r, TrendAdvice(latest), CrossAdvice(latest, prev), FlowAdvice(flows), RsiAdvice(latest), MacdAdvice(latest, prev));
  }

  /** A risk rule is given exactly when its own condition holds. */
  lemma RiskMembership(r: RiskRule, latest: KlineRow, prev: KlineRow, flows: Option<(FlowDay, FlowDay)>,
                       volatility: Option<real>)
    ensures r in RiskPoints(latest, prev, flows, volatility) <==> RiskFires(r, latest, prev, flows, volatility)
  {
    InFive(r, if UnderShortAndMedium(latest) then [RiskUnderBoth] else [], RsiRisks(latest),
      if MacdTurnsDown(latest, prev) then [RiskMacdDown] else [], FlowRisks(flows), VolatilityRisks(volatility));
  }

  /** The advice rules never say both "strong" and "weak", nor both crossing directions, and give at most five phrases. */
  lemma AdviceNeverContradicts(latest: KlineRow, prev: KlineRow, flows: Option<(FlowDay, FlowDay)>)
    ensures var pts := AdvicePoints(latest, prev, flows);
      && !(AboveBoth in pts && UnderBoth in pts)
      && !(ShortCrossUp in pts && ShortCrossDown in pts)
      && !(FlowSpeedsIn in pts && FlowSpeedsOut in pts)
      && !(MacdUp in pts && MacdDown in pts)
      && !(RsiHigh in pts && RsiLow in pts)
      && |pts| <= 5
  {
    var pts := AdvicePoints(latest, prev, flows);
    forall r ensures r in pts <==> AdviceFires(r, latest, prev, flows) {
      AdviceMembership(r, latest, prev, flows);
    }
    AdviceExclusive(pts, latest, prev, flows);
    AdviceLength(latest, prev, flows);
  }

  /** Any list holding exactly the rules that fire holds no contradictory pair. */
  lemma AdviceExclusive(pts: seq<AdviceRule>, latest: KlineRow, prev: KlineRow, flows: Option<(FlowDay, FlowDay)>)
    requires forall r :: r in pts <==> AdviceFires(r, latest, prev, flows)
    ensures !(AboveBoth in pts && UnderBoth in pts)
    ensures !(ShortCrossUp in pts && ShortCrossDown in pts)
    ensures !(FlowSpeedsIn in pts && FlowSpeedsOut in pts)
    ensures !(MacdUp in pts && MacdDown in pts)
    ensures !(RsiHigh in pts && RsiLow in pts)
  {
    assert AdviceFires(AboveBoth, latest, prev, flows) ==> !AdviceFires(UnderBoth, latest, prev, flows);
    assert AdviceFires(ShortCrossUp, latest, prev, flows) ==> !AdviceFires(ShortCrossDown, latest, prev, flows);
    assert AdviceFires(FlowSpeedsIn, latest, prev, flows) ==> !AdviceFires(FlowSpeedsOut, latest, prev, flows);
    assert AdviceFires(MacdUp, latest, prev, flows) ==> !AdviceFires(MacdDown, latest, prev, flows);
    assert AdviceFires(RsiHigh, latest, prev, flows) ==> !AdviceFires(RsiLow, latest, prev, flows);
  }

  lemma AdviceLength(latest: KlineRow, prev: KlineRow, flows: Option<(FlowDay, FlowDay)>)
    ensures |AdvicePoints(latest, prev, flows)| <= 5
  {
    assert |TrendAdvice(latest)| <= 1 && |CrossAdvice(latest, prev)| <= 1 && |FlowAdvice(flows)| <= 1;
    assert |RsiAdvice(latest)| <= 1 && |MacdAdvice(latest, prev)| <= 1;
  }

  /** A missing RSI on the latest row fires no RSI rule in either text. */
  lemma MissingRsiIsSilent(latest: KlineRow, prev: KlineRow, flows: Option<(FlowDay, FlowDay)>, volatility: Option<real>)
    requires latest.rsi.None?
    ensures var a := AdvicePoints(latest, prev, flows);
      var r := RiskPoints(latest, prev, flows, volatility);
      RsiHigh !in a && RsiLow !in a && RiskRsiHigh !in r && RiskRsiLow !in r
  {
    FiresRsi(latest, prev, flows, volatility);
    AdviceMembership(RsiHigh, latest, prev, flows);
    AdviceMembership(RsiLow, latest, prev, flows);
    RiskMembership(RiskRsiHigh, latest, prev, flows, volatility);
    RiskMembership(RiskRsiLow, latest, prev, flows, volatility);
  }

  /** A MACD death cross is reported by both texts, and only a death cross is. */
  lemma MacdDeathInBoth(latest: KlineRow, prev: KlineRow, flows: Option<(FlowDay, FlowDay)>, volatility: Option<real>)
    ensures (MacdDown in AdvicePoints(latest, prev, flows)) <==> MacdTurnsDown(latest, prev)
    ensures (RiskMacdDown in RiskPoints(latest, prev, flows, volatility)) <==> MacdTurnsDown(latest, prev)
  {
    FiresMacdDown(latest, prev, flows, volatility);
    AdviceMembership(MacdDown, latest, prev, flows);
    RiskMembership(RiskMacdDown, latest, prev, flows, volatility);
  }

  lemma FiresMacdDown(latest: KlineRow, prev: KlineRow, flows: Option<(FlowDay, FlowDay)>, volatility: Option<real>)
    ensures AdviceFires(MacdDown, latest, prev, flows) == MacdTurnsDown(latest, prev)
    ensures RiskFires(RiskMacdDown, latest, prev, flows, volatility) == MacdTurnsDown(latest, prev)
  {
  }

  /** The advice calls the chart weak exactly when the risk text warns of a price under both averages. */
  lemma WeakChartInBoth(latest: KlineRow, prev: KlineRow, flows: Option<(FlowDay, FlowDay)>, volatility: Option<real>)
    ensures (UnderBoth in AdvicePoints(latest, prev, flows)) <==> UnderShortAndMedium(latest)
    ensures (RiskUnderBoth in RiskPoints(latest, prev, flows, volatility)) <==> UnderShortAndMedium(latest)
  {
    FiresUnderBoth(latest, prev, flows, volatility);
    AdviceMembership(UnderBoth, latest, prev, flows);
    RiskMembership(RiskUnderBoth, latest, prev, flows, volatility);
  }

  lemma FiresUnderBoth(latest: KlineRow, prev: KlineRow, flows: Option<(FlowDay, FlowDay)>, volatility: Option<real>)
    ensures AdviceFires(UnderBoth, latest, prev, flows) == UnderShortAndMedium(latest)
    ensures RiskFires(RiskUnderBoth, latest, prev, flows, volatility) == UnderShortAndMedium(latest)
  {
  }

  lemma FiresRsi(latest: KlineRow, prev: KlineRow, flows: Option<(FlowDay, FlowDay)>, volatility: Option<real>)
    ensures AdviceFires(RsiHigh, latest, prev, flows) == RsiAbove(latest.rsi, 70.0)
    ensures AdviceFires(RsiLow, latest, prev, flows) == RsiBelow(latest.rsi, 30.0)
    ensures RiskFires(RiskRsiHigh, latest, prev, flows, volatility) == RsiAbove(latest.rsi, 80.0)
    ensures RiskFires(RiskRsiLow, latest, prev, flows, volatility) == RsiBelow(latest.rsi, 20.0)
  {
  }

  /** No advice phrase starts the way the fallback does ('暂', "not yet"). */
  lemma AdvicePhraseHead(r: AdviceRule)
    ensures |AdvicePhrase(r)| > 0 && AdvicePhrase(r)[0] != '暂'
  {
  }

  lemma RiskPhraseHead(r: RiskRule)
    ensures |RiskPhrase(r)| > 0 && RiskPhrase(r)[0] != '暂'
  {
  }

  /** The advice text is the fallback sentence exactly when no rule fired. */
  lemma AdviceFallbackIff(rules: seq<AdviceRule>)
    ensures AdviceText(rules) == AdviceNone <==> |rules| == 0
  {
    var ps := seq(|rules|, i requires 0 <= i < |rules| => AdvicePhrase(rules[i]));
    if |rules| > 0 {
      AdvicePhraseHead(rules[0]);
      JoinHead(ps, Sep);
      assert AdviceNone[0] == '暂';
    }
  }

  /** The risk text is the fallback sentence exactly when no rule fired. */
  lemma RiskFallbackIff(rules: seq<RiskRule>)
    ensures RiskText(rules) == RiskNone <==> |rules| == 0
  {
    var ps := seq(|rules|, i requires 0 <= i < |rules| => RiskPhrase(rules[i]));
    if |rules| > 0 {
      RiskPhraseHead(rules[0]);
      JoinHead(ps, Sep);
      assert RiskNone[0] == '暂';
    }
  }

  /** With fewer than two flow days no flow rule fires. */
  lemma ShortHistoryNoFlowRule(h: seq<FlowDay>)
    requires |h| < 2
    ensures FlowAdvice(LastTwo(h)) == [] && FlowRisks(LastTwo(h)) == []
  {
  }
}
