/**
 * `analyze_technical`: EMA crosses, EMA trends, the price against its EMAs, and
 * a trend judgment, each a list of phrases joined with '；'. The three trend
 * measures (the mean `pct_change` of the last 5 EMA5, 10 EMA20 and 20 EMA60
 * values) are inputs; only their classification against ±0.001 is modelled.
 */
module Technical {
  import opened Wrappers
  import opened Text
  import opened KlineSource
  import opened Order

  const Insufficient: string := "数据不足，无法进行技术分析"
  const NoCrossText: string := "暂无均线交叉信号"
  const NoTrendText: string := "暂无明确均线趋势"
  const NoRelationText: string := "暂无明确价格与均线关系"
  const NoJudgmentText: string := "暂无明确趋势判断"

  /** The analyzer's four texts. */
  datatype TechnicalAnalysis = TechnicalAnalysis(
    emaCrosses: string, emaTrends: string, priceEmaRelation: string, trendJudgment: string)

  /** Mean percentage change of EMA5 over 5 bars, EMA20 over 10 bars and EMA60 over 20 bars. */
  datatype Trends = Trends(short: real, medium: real, long: real)

  /** The analyzer needs at least this many bars. */
  const MinBars: nat := 60

  /** The ±0.1% band inside which a trend counts as flat. */
  const TrendBand: real := 0.001

  // ---------------------------------------------------------------------------
  // Crosses
  // ---------------------------------------------------------------------------

  /** The fast average moved from at or below the slow one to above it. */
  predicate GoldenCross(fastNow: real, slowNow: real, fastPrev: real, slowPrev: real) {
    fastNow > slowNow && fastPrev <= slowPrev
  }

  /** The fast average moved from at or above the slow one to below it. */
  predicate DeathCross(fastNow: real, slowNow: real, fastPrev: real, slowPrev: real) {
    fastNow < slowNow && fastPrev >= slowPrev
  }

  const ShortGolden: string := "EMA5上穿EMA10，形成短期金叉，预示短期看涨"
  const ShortDeath: string := "EMA5下穿EMA10，形成短期死叉，预示短期看跌"
  const MediumGolden: string := "EMA10上穿EMA20，形成中期金叉，预示中期看涨"
  const MediumDeath: string := "EMA10下穿EMA20，形成中期死叉，预示中期看跌"
  const LongGolden: string := "EMA20上穿EMA60，形成长期金叉，预示长期看涨"
  const LongDeath: string := "EMA20下穿EMA60，形成长期死叉，预示长期看跌"

  /** One pair's `if golden ... elif death ...`: at most one phrase, and never both signals. */
  function CrossPhrase(fastNow: real, slowNow: real, fastPrev: real, slowPrev: real,
                       golden: string, death: string): (r: seq<string>)
    ensures |r| <= 1
    ensures !(GoldenCross(fastNow, slowNow, fastPrev, slowPrev) && DeathCross(fastNow, slowNow, fastPrev, slowPrev))
  {
    if GoldenCross(fastNow, slowNow, fastPrev, slowPrev) then [golden]
    else if DeathCross(fastNow, slowNow, fastPrev, slowPrev) then [death]
    else []
  }

  function ShortCross(latest: KlineRow, prev: KlineRow): seq<string> {
    CrossPhrase(latest.ema5, latest.ema10, prev.ema5, prev.ema10, ShortGolden, ShortDeath)
  }

  function MediumCross(latest: KlineRow, prev: KlineRow): seq<string> {
    CrossPhrase(latest.ema10, latest.ema20, prev.ema10, prev.ema20, MediumGolden, MediumDeath)
  }

  function LongCross(latest: KlineRow, prev: KlineRow): seq<string> {
    CrossPhrase(latest.ema20, latest.ema60, prev.ema20, prev.ema60, LongGolden, LongDeath)
  }

  function CrossPhrases(latest: KlineRow, prev: KlineRow): seq<string> {
    ShortCross(latest, prev) + MediumCross(latest, prev) + LongCross(latest, prev)
  }

  predicate AnyGolden(latest: KlineRow, prev: KlineRow) {
    GoldenCross(latest.ema5, latest.ema10, prev.ema5, prev.ema10)
    || GoldenCross(latest.ema10, latest.ema20, prev.ema10, prev.ema20)
    || GoldenCross(latest.ema20, latest.ema60, prev.ema20, prev.ema60)
  }

  predicate AnyDeath(latest: KlineRow, prev: KlineRow) {
    DeathCross(latest.ema5, latest.ema10, prev.ema5, prev.ema10)
    || DeathCross(latest.ema10, latest.ema20, prev.ema10, prev.ema20)
    || DeathCross(latest.ema20, latest.ema60, prev.ema20, prev.ema60)
  }

  // ---------------------------------------------------------------------------
  // Trends, price against averages, judgment
  // ---------------------------------------------------------------------------

  const ShortUp: string := "短期均线（EMA5）呈上升趋势，短期看涨"
  const ShortDown: string := "短期均线（EMA5）呈下降趋势，短期看跌"
  const MediumUp: string := "中期均线（EMA20）呈上升趋势，中期看涨"
  const MediumDown: string := "中期均线（EMA20）呈下降趋势，中期看跌"
  const LongUp: string := "长期均线（EMA60）呈上升趋势，长期看涨"
  const LongDown: string := "长期均线（EMA60）呈下降趋势，长期看跌"

  function TrendPhrase(trend: real, up: string, down: string): seq<string> {
    if trend > TrendBand then [up] else if trend < -TrendBand then [down] else []
  }

  function TrendPhrases(t: Trends): seq<string> {
    TrendPhrase(t.short, ShortUp, ShortDown)
    + TrendPhrase(t.medium, MediumUp, MediumDown)
    + TrendPhrase(t.long, LongUp, LongDown)
  }

  const AboveEma5: string := "当前价格位于EMA5之上，短期支撑较强"
  const BelowEma5: string := "当前价格位于EMA5之下，短期压力较大"
  const AboveEma20: string := "当前价格位于EMA20之上，中期支撑较强"
  const BelowEma20: string := "当前价格位于EMA20之下，中期压力较大"
  const AboveEma60: string := "当前价格位于EMA60之上，长期支撑较强"
  const BelowEma60: string := "当前价格位于EMA60之下，长期压力较大"

  /** The bullish alignment phrase: it goes into the price/EMA relation, not into the trends. */
  const BullishAlignment: string := "均线呈多头排列，整体趋势向上"
  const BearishAlignment: string := "均线呈空头排列，整体趋势向下"

  function PricePhrase(close: real, ema: real, above: string, below: string): seq<string> {
    if close > ema then [above] else [below]
  }

  function AlignmentPhrase(latest: KlineRow): seq<string> {
    if latest.ema5 > latest.ema20 > latest.ema60 then [BullishAlignment]
    else if latest.ema5 < latest.ema20 < latest.ema60 then [BearishAlignment]
    else []
  }

  function PricePhrases(latest: KlineRow): seq<string> {
    PricePhrase(latest.close, latest.ema5, AboveEma5, BelowEma5)
    + PricePhrase(latest.close, latest.ema20, AboveEma20, BelowEma20)
    + PricePhrase(latest.close, latest.ema60, AboveEma60, BelowEma60)
  }

  function RelationPhrases(latest: KlineRow): seq<string> {
    PricePhrases(latest) + AlignmentPhrase(latest)
  }

  const ShortRising: string := "短期趋势向上，可考虑逢低布局"
  const ShortFalling: string := "短期趋势向下，建议观望为主"
  const MediumRising: string := "中期趋势向上，可考虑中线布局"
  const MediumFalling: string := "中期趋势向下，建议谨慎操作"
  const LongRising: string := "长期趋势向上，可考虑长线布局"
  const LongFalling: string := "长期趋势向下，建议等待企稳"

  function JudgmentPhrase(trend: real, close: real, ema: real, up: string, down: string): seq<string> {
    if trend > TrendBand && close > ema then [up]
    else if trend < -TrendBand && close < ema then [down]
    else []
  }

  function JudgmentPhrases(t: Trends, latest: KlineRow): seq<string> {
    JudgmentPhrase(t.short, latest.close, latest.ema5, ShortRising, ShortFalling)
    + JudgmentPhrase(t.medium, latest.close, latest.ema20, MediumRising, MediumFalling)
    + JudgmentPhrase(t.long, latest.close, latest.ema60, LongRising, LongFalling)
  }

  function CrossText(latest: KlineRow, prev: KlineRow): string {
    JoinOr(CrossPhrases(latest, prev), NoCrossText)
  }

  function TrendText(t: Trends): string {
    JoinOr(TrendPhrases(t), NoTrendText)
  }

  function RelationText(latest: KlineRow): string {
    JoinOr(RelationPhrases(latest), NoRelationText)
  }

  function JudgmentText(t: Trends, latest: KlineRow): string {
    JoinOr(JudgmentPhrases(t, latest), NoJudgmentText)
  }

  /** `analyze_technical(kline_data)`: the latest bar is compared with the one before it. */
  function AnalyzeTechnical(kline: Option<seq<KlineRow>>, trends: Trends): TechnicalAnalysis {
    if kline.None? || |kline.value| < MinBars then
      TechnicalAnalysis(Insufficient, Insufficient, Insufficient, Insufficient)
    else
      var rows := kline.value;
      var latest, prev := rows[|rows| - 1], rows[|rows| - 2];
      TechnicalAnalysis(CrossText(latest, prev), TrendText(trends), RelationText(latest), JudgmentText(trends, latest))
  }

  function RowTime(r: KlineRow): string { r.time }

  /**
   * `df.sort_values('time')` (a stable sort here) leaves rows that are already
   * in date order, as `get_kline_data` returns them, exactly as they are: the
   * latest two rows are then the list's last two.
   */
  lemma ResortKeepsDateOrder(rows: seq<KlineRow>)
    requires forall i, j | 0 <= i < j < |rows| :: StrLe(rows[i].time, rows[j].time)
    ensures SortBy(rows, RowTime) == rows
  {
    SortSortedUnchanged(rows, RowTime);
  }

  // ---------------------------------------------------------------------------
  // What the texts can and cannot say
  // ---------------------------------------------------------------------------

  /** With no rows or fewer than 60, every text is the insufficient-data text. */
  lemma TechnicalInsufficient(kline: Option<seq<KlineRow>>, trends: Trends)
    requires kline.None? || |kline.value| < MinBars
    ensures var a := AnalyzeTechnical(kline, trends);
      a.emaCrosses == Insufficient && a.emaTrends == Insufficient
      && a.priceEmaRelation == Insufficient && a.trendJudgment == Insufficient
  {
  }

  /** The insufficient-data text holds none of the characters the scorers' patterns rely on. */
  lemma InsufficientWords()
    ensures '金' !in Insufficient && '死' !in Insufficient && '排' !in Insufficient
    ensures '所' !in Insufficient && '强' !in Insufficient
  {
  }

  lemma GoldenWords()
    ensures Contains(ShortGolden, "金叉") && Contains(MediumGolden, "金叉") && Contains(LongGolden, "金叉")
  {
    assert OccursAt(ShortGolden, "金叉", 16);
    assert OccursAt(MediumGolden, "金叉", 17);
    assert OccursAt(LongGolden, "金叉", 17);
  }

  lemma DeathWords()
    ensures Contains(ShortDeath, "死叉") && Contains(MediumDeath, "死叉") && Contains(LongDeath, "死叉")
  {
    assert OccursAt(ShortDeath, "死叉", 16);
    assert OccursAt(MediumDeath, "死叉", 17);
    assert OccursAt(LongDeath, "死叉", 17);
  }

  /** Only golden-cross phrases say "golden", and only death-cross phrases say "death". */
  lemma GoldenMisses()
    ensures '金' !in ShortDeath && '金' !in MediumDeath && '金' !in LongDeath
  {
  }

  lemma DeathMisses()
    ensures '死' !in ShortGolden && '死' !in MediumGolden && '死' !in LongGolden
  {
  }

  lemma NoCrossWords()
    ensures '金' !in NoCrossText && '金' !in Sep && '死' !in NoCrossText && '死' !in Sep
  {
  }

  /** The cross text mentions a golden cross exactly when some pair crossed upward. */
  lemma CrossGolden(latest: KlineRow, prev: KlineRow)
    ensures Contains(CrossText(latest, prev), "金叉") <==> AnyGolden(latest, prev)
  {
    GoldenWords();
    GoldenMisses();
    NoCrossWords();
    ThreeMentions(ShortCross(latest, prev), MediumCross(latest, prev), LongCross(latest, prev),
      NoCrossText, "金叉", '金', ShortGolden, MediumGolden, LongGolden, ShortDeath, MediumDeath, LongDeath,
      GoldenCross(latest.ema5, latest.ema10, prev.ema5, prev.ema10),
      GoldenCross(latest.ema10, latest.ema20, prev.ema10, prev.ema20),
      GoldenCross(latest.ema20, latest.ema60, prev.ema20, prev.ema60));
  }

  /** The cross text mentions a death cross exactly when some pair crossed downward. */
  lemma CrossDeath(latest: KlineRow, prev: KlineRow)
    ensures Contains(CrossText(latest, prev), "死叉") <==> AnyDeath(latest, prev)
  {
    DeathWords();
    DeathMisses();
    NoCrossWords();
    ThreeMentions(ShortCross(latest, prev), MediumCross(latest, prev), LongCross(latest, prev),
      NoCrossText, "死叉", '死', ShortDeath, MediumDeath, LongDeath, ShortGolden, MediumGolden, LongGolden,
      DeathCross(latest.ema5, latest.ema10, prev.ema5, prev.ema10),
      DeathCross(latest.ema10, latest.ema20, prev.ema10, prev.ema20),
      DeathCross(latest.ema20, latest.ema60, prev.ema20, prev.ema60));
  }

  /** With enough rows, the analysis mentions a golden cross exactly when the last two bars show one. */
  lemma CrossTextGolden(kline: Option<seq<KlineRow>>, trends: Trends)
    requires kline.Some? && |kline.value| >= MinBars
    ensures var rows := kline.value;
      Contains(AnalyzeTechnical(kline, trends).emaCrosses, "金叉") <==> AnyGolden(rows[|rows| - 1], rows[|rows| - 2])
  {
    var latest, prev := kline.value[|kline.value| - 1], kline.value[|kline.value| - 2];
    assert AnalyzeTechnical(kline, trends).emaCrosses == CrossText(latest, prev);
    CrossGolden(latest, prev);
  }

  /** With enough rows, the analysis mentions a death cross exactly when the last two bars show one. */
  lemma CrossTextDeath(kline: Option<seq<KlineRow>>, trends: Trends)
    requires kline.Some? && |kline.value| >= MinBars
    ensures var rows := kline.value;
      Contains(AnalyzeTechnical(kline, trends).emaCrosses, "死叉") <==> AnyDeath(rows[|rows| - 1], rows[|rows| - 2])
  {
    var latest, prev := kline.value[|kline.value| - 1], kline.value[|kline.value| - 2];
    assert AnalyzeTechnical(kline, trends).emaCrosses == CrossText(latest, prev);
    CrossDeath(latest, prev);
  }

  lemma RisingTrendWordsLack()
    ensures '排' !in ShortUp && '排' !in MediumUp && '排' !in LongUp
  {
  }

  lemma FallingTrendWordsLack()
    ensures '排' !in ShortDown && '排' !in MediumDown && '排' !in LongDown
  {
  }

  /** No trend phrase mentions an alignment. */
  lemma TrendPartsLack(t: Trends)
    ensures forall x | x in TrendPhrases(t) :: '排' !in x
  {
    RisingTrendWordsLack();
    FallingTrendWordsLack();
    ThreeLack(TrendPhrase(t.short, ShortUp, ShortDown), TrendPhrase(t.medium, MediumUp, MediumDown),
      TrendPhrase(t.long, LongUp, LongDown), ShortUp, ShortDown, MediumUp, MediumDown, LongUp, LongDown, '排');
  }

  /** The price phrases say neither "all" nor "bull". */
  lemma Ema5WordsLack()
    ensures '所' !in AboveEma5 && '所' !in BelowEma5 && '多' !in AboveEma5 && '多' !in BelowEma5
  {
  }

  lemma Ema20WordsLack()
    ensures '所' !in AboveEma20 && '所' !in BelowEma20 && '多' !in AboveEma20 && '多' !in BelowEma20
  {
  }

  lemma Ema60WordsLack()
    ensures '所' !in AboveEma60 && '所' !in BelowEma60 && '多' !in AboveEma60 && '多' !in BelowEma60
  {
  }

  /** The alignment phrases and the relation fallback never say "all"; only the bullish alignment says "bull". */
  lemma AlignmentWordsLack()
    ensures '所' !in BullishAlignment && '所' !in BearishAlignment && '多' !in BearishAlignment
  {
  }

  lemma NoRelationWords()
    ensures '所' !in NoRelationText && '所' !in Sep && '多' !in NoRelationText && '多' !in Sep
  {
  }

  /** The three price phrases lack any character that none of the six price phrases holds. */
  lemma PricePartsLack(latest: KlineRow, ch: char)
    requires ch !in AboveEma5 && ch !in BelowEma5 && ch !in AboveEma20
    requires ch !in BelowEma20 && ch !in AboveEma60 && ch !in BelowEma60
    ensures forall x | x in PricePhrases(latest) :: ch !in x
  {
    ThreeLack(PricePhrase(latest.close, latest.ema5, AboveEma5, BelowEma5),
      PricePhrase(latest.close, latest.ema20, AboveEma20, BelowEma20),
      PricePhrase(latest.close, latest.ema60, AboveEma60, BelowEma60),
      AboveEma5, BelowEma5, AboveEma20, BelowEma20, AboveEma60, BelowEma60, ch);
  }

  /** No relation phrase mentions "all averages", so no pattern containing '所' occurs. */
  lemma RelationTextLacks(latest: KlineRow, pat: string)
    requires '所' in pat
    ensures !Contains(RelationText(latest), pat)
  {
    Ema5WordsLack();
    Ema20WordsLack();
    Ema60WordsLack();
    AlignmentWordsLack();
    NoRelationWords();
    PricePartsLack(latest, '所');
    AppendLacks(PricePhrases(latest), AlignmentPhrase(latest), BullishAlignment, BearishAlignment, '所');
    JoinOrMisses(RelationPhrases(latest), NoRelationText, pat, '所');
  }

  lemma RisingJudgmentWordsLack()
    ensures '强' !in ShortRising && '强' !in MediumRising && '强' !in LongRising
  {
  }

  lemma FallingJudgmentWordsLack()
    ensures '强' !in ShortFalling && '强' !in MediumFalling && '强' !in LongFalling
    ensures '强' !in NoJudgmentText && '强' !in Sep
  {
  }

  lemma JudgmentPartsLack(t: Trends, latest: KlineRow)
    ensures forall x | x in JudgmentPhrases(t, latest) :: '强' !in x
  {
    RisingJudgmentWordsLack();
    FallingJudgmentWordsLack();
    ThreeLack(JudgmentPhrase(t.short, latest.close, latest.ema5, ShortRising, ShortFalling),
      JudgmentPhrase(t.medium, latest.close, latest.ema20, MediumRising, MediumFalling),
      JudgmentPhrase(t.long, latest.close, latest.ema60, LongRising, LongFalling),
      ShortRising, ShortFalling, MediumRising, MediumFalling, LongRising, LongFalling, '强');
  }

  /**
   * The scorers look for an EMA alignment in the trend text; this analyzer
   * writes the alignment into the relation text instead, so neither alignment
   * phrase can occur in the trends.
   */
  lemma TrendsNeverAligned(kline: Option<seq<KlineRow>>, trends: Trends)
    ensures var a := AnalyzeTechnical(kline, trends);
      !Contains(a.emaTrends, "均线多头排列") && !Contains(a.emaTrends, "均线空头排列")
  {
    var text := AnalyzeTechnical(kline, trends).emaTrends;
    if kline.None? || |kline.value| < MinBars {
      assert text == Insufficient;
      InsufficientWords();
    } else {
      assert text == TrendText(trends);
      TrendPartsLack(trends);
      assert '排' !in NoTrendText && '排' !in Sep;
      JoinOrLacks(TrendPhrases(trends), NoTrendText, '排');
    }
    AbsentChar(text, "均线多头排列", '排');
    AbsentChar(text, "均线空头排列", '排');
  }

  /** No pattern containing '所' occurs in the relation text, whatever the rows. */
  lemma RelationLacks(kline: Option<seq<KlineRow>>, trends: Trends, pat: string)
    requires '所' in pat
    ensures !Contains(AnalyzeTechnical(kline, trends).priceEmaRelation, pat)
  {
    var text := AnalyzeTechnical(kline, trends).priceEmaRelation;
    if kline.None? || |kline.value| < MinBars {
      assert text == Insufficient;
      InsufficientWords();
      AbsentChar(text, pat, '所');
    } else {
      var latest := kline.value[|kline.value| - 1];
      assert text == RelationText(latest);
      RelationTextLacks(latest, pat);
    }
  }

  /** The scorers' "price above / below all averages" phrases are never written. */
  lemma RelationNeverAll(kline: Option<seq<KlineRow>>, trends: Trends)
    ensures var a := AnalyzeTechnical(kline, trends);
      !Contains(a.priceEmaRelation, "价格位于所有均线之上") && !Contains(a.priceEmaRelation, "价格位于所有均线之下")
  {
    RelationLacks(kline, trends, "价格位于所有均线之上");
    RelationLacks(kline, trends, "价格位于所有均线之下");
  }

  /** The scorers' "strong rise / strong fall" phrases are never written. */
  lemma JudgmentNeverStrong(kline: Option<seq<KlineRow>>, trends: Trends)
    ensures var a := AnalyzeTechnical(kline, trends);
      !Contains(a.trendJudgment, "强势上涨") && !Contains(a.trendJudgment, "强势下跌")
  {
    var text := AnalyzeTechnical(kline, trends).trendJudgment;
    if kline.None? || |kline.value| < MinBars {
      assert text == Insufficient;
      InsufficientWords();
    } else {
      var latest := kline.value[|kline.value| - 1];
      assert text == JudgmentText(trends, latest);
      JudgmentPartsLack(trends, latest);
      FallingJudgmentWordsLack();
      JoinOrLacks(JudgmentPhrases(trends, latest), NoJudgmentText, '强');
    }
    AbsentChar(text, "强势上涨", '强');
    AbsentChar(text, "强势下跌", '强');
  }

  /** The relation text reports the bullish alignment exactly when EMA5 > EMA20 > EMA60. */
  lemma RelationAlignment(latest: KlineRow)
    ensures Contains(RelationText(latest), "均线呈多头排列") <==> latest.ema5 > latest.ema20 > latest.ema60
  {
    var parts := RelationPhrases(latest);
    Ema5WordsLack();
    Ema20WordsLack();
    Ema60WordsLack();
    AlignmentWordsLack();
    NoRelationWords();
    PricePartsLack(latest, '多');
    if latest.ema5 > latest.ema20 > latest.ema60 {
      assert OccursAt(BullishAlignment, "均线呈多头排列", 0);
      assert BullishAlignment in parts;
      JoinOrHas(parts, NoRelationText, BullishAlignment, "均线呈多头排列");
    } else {
      AppendLacks(PricePhrases(latest), AlignmentPhrase(latest), BearishAlignment, BearishAlignment, '多');
      JoinOrMisses(parts, NoRelationText, "均线呈多头排列", '多');
    }
  }

  /** With enough rows, the analysis reports the bullish alignment exactly when the latest bar is aligned. */
  lemma AlignmentInRelation(kline: Option<seq<KlineRow>>, trends: Trends)
    requires kline.Some? && |kline.value| >= MinBars
    ensures var latest := kline.value[|kline.value| - 1];
      var has := Contains(AnalyzeTechnical(kline, trends).priceEmaRelation, "均线呈多头排列");
      has <==> latest.ema5 > latest.ema20 > latest.ema60
  {
    var latest := kline.value[|kline.value| - 1];
    assert AnalyzeTechnical(kline, trends).priceEmaRelation == RelationText(latest);
    RelationAlignment(latest);
  }
}
