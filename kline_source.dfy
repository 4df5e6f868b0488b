/**
 * Daily K-line bars for a symbol (`get_kline_data` and its fallback
 * `ak_get_kline_data`). The primary provider is asked first; when it fails or
 * returns no bars, Shanghai and Shenzhen symbols are asked of the fallback
 * provider, whose native column names are renamed to the canonical ones and
 * whose dates are normalised to 'YYYY-MM-DD'. Either way the bars are sorted by
 * date and the indicator columns are added before the rows are returned.
 *
 * The providers, the connection and the clock are parameters: a provider is a
 * function from the request it is sent to what it answers.
 */
module KlineSource {
  import opened Wrappers
  import opened Text
  import opened Order
  import opened StockCode
  import opened Indicators

  // ---------------------------------------------------------------------------
  // Bars and returned rows
  // ---------------------------------------------------------------------------

  /** A bar in the canonical columns time_key, open, close, high, low, volume. */
  datatype Bar = Bar(timeKey: string, open: real, close: real, high: real, low: real, volume: real)

  function TimeKey(b: Bar): string {
    b.timeKey
  }

  /** One dictionary of the returned list. */
  datatype KlineRow = KlineRow(
    time: string, open: real, high: real, low: real, close: real, volume: int,
    ema5: real, ema10: real, ema20: real, ema60: real, macd: real, rsi: Option<real>)

  /** Python's `int(x)` on a float: the whole part, cut toward zero. */
  function IntOf(x: real): (r: int)
    ensures x >= 0.0 ==> 0 <= r && r as real <= x < r as real + 1.0
    ensures x < 0.0 ==> r <= 0 && r as real - 1.0 < x <= r as real
  {
    if x >= 0.0 then x.Floor else -((-x).Floor)
  }

  function Closes(bars: seq<Bar>): (r: seq<real>)
    ensures |r| == |bars|
  {
    seq(|bars|, i requires 0 <= i < |bars| => bars[i].close)
  }

  /** The row for bar `i` once the indicator columns have been added to the sorted bars. */
  function RowOf(bars: seq<Bar>, i: nat): KlineRow
    requires i < |bars|
  {
    var closes := Closes(bars);
    var b := bars[i];
    KlineRow(b.timeKey, b.open, b.high, b.low, b.close, IntOf(b.volume),
      Ema(closes, 5)[i], Ema(closes, 10)[i], Ema(closes, 20)[i], Ema(closes, 60)[i],
      Macd(closes)[i], RsiAt(closes, i))
  }

  function EnrichedRows(bars: seq<Bar>): (rows: seq<KlineRow>)
    ensures |rows| == |bars|
  {
    seq(|bars|, i requires 0 <= i < |bars| => RowOf(bars, i))
  }

  /** The indicator columns, then the loop that appends one dictionary per bar. */
  method BuildKlineRows(bars: seq<Bar>) returns (rows: seq<KlineRow>)
    ensures rows == EnrichedRows(bars)
  {
    var closes := Closes(bars);
    var ema5, ema10, ema20, ema60 := Ema(closes, 5), Ema(closes, 10), Ema(closes, 20), Ema(closes, 60);
    var macd, rsi := Macd(closes), Rsi(closes);
    rows := [];
    var i := 0;
    while i < |bars|
      invariant 0 <= i <= |bars|
      invariant rows == EnrichedRows(bars)[..i]
    {
      var b := bars[i];
      rows := rows + [KlineRow(b.timeKey, b.open, b.high, b.low, b.close, IntOf(b.volume),
        ema5[i], ema10[i], ema20[i], ema60[i], macd[i], rsi[i])];
      assert EnrichedRows(bars)[..i + 1] == EnrichedRows(bars)[..i] + [RowOf(bars, i)];
      i := i + 1;
    }
  }

  /**
   * Each row keeps its bar's date and prices; its EMAs lie between the lowest
   * and highest close so far; its RSI is missing for the first 13 bars and
   * lies in [0, 100] when present.
   */
  lemma RowFacts(bars: seq<Bar>, i: nat)
    requires i < |bars|
    ensures var row, seen := EnrichedRows(bars)[i], Closes(bars)[..i + 1];
      && row.time == bars[i].timeKey && row.close == bars[i].close
      && Min(seen) <= row.ema5 <= Max(seen) && Min(seen) <= row.ema10 <= Max(seen)
      && Min(seen) <= row.ema20 <= Max(seen) && Min(seen) <= row.ema60 <= Max(seen)
      && (i < 13 ==> row.rsi.None?)
      && (row.rsi.Some? ==> 0.0 <= row.rsi.value <= 100.0)
  {
    var closes := Closes(bars);
    EmaWithinSeenRange(closes, 5, i);
    EmaWithinSeenRange(closes, 10, i);
    EmaWithinSeenRange(closes, 20, i);
    EmaWithinSeenRange(closes, 60, i);
    RsiFacts(closes, i);
  }

  /** Rows built from bars sorted by date are in ascending date order. */
  lemma RowsSortedByTime(bars: seq<Bar>)
    ensures var rows := EnrichedRows(SortBy(bars, TimeKey));
      forall i, j | 0 <= i < j < |rows| :: StrLe(rows[i].time, rows[j].time)
  {
    SortByCorrect(bars, TimeKey);
  }

  // ---------------------------------------------------------------------------
  // Dates
  // ---------------------------------------------------------------------------

  datatype Date = Date(year: nat, month: nat, day: nat)

  function DaysInMonth(year: nat, month: nat): nat
    requires 1 <= month <= 12
  {
    if month == 2 then (if (year % 4 == 0 && year % 100 != 0) || year % 400 == 0 then 29 else 28)
    else if month == 4 || month == 6 || month == 9 || month == 11 then 30
    else 31
  }

  predicate ValidDate(d: Date) {
    1 <= d.year <= 9999 && 1 <= d.month <= 12 && 1 <= d.day <= DaysInMonth(d.year, d.month)
  }

  /** `str(date)`: 'YYYY-MM-DD'. */
  function IsoText(d: Date): string
    requires ValidDate(d)
  {
    PadNumber(d.year, 4) + "-" + PadNumber(d.month, 2) + "-" + PadNumber(d.day, 2)
  }

  /** Text laid out as 'YYYY-MM-DD'. */
  predicate IsIsoShape(s: string) {
    |s| == 10 && s[4] == '-' && s[7] == '-'
    && AllDigits(s[..4]) && AllDigits(s[5..7]) && AllDigits(s[8..])
  }

  /** The date texts `pd.to_datetime` is modelled to read: 'YYYY-MM-DD' and 'YYYYMMDD'. */
  function ParseDateText(s: string): Option<Date> {
    if IsIsoShape(s) then
      var d := Date(ParseNat(s[..4]), ParseNat(s[5..7]), ParseNat(s[8..]));
      if ValidDate(d) then Some(d) else None
    else if |s| == 8 && AllDigits(s) then
      AllDigitsSlice(s, 0, 4);
      AllDigitsSlice(s, 4, 6);
      AllDigitsSlice(s, 6, 8);
      var d := Date(ParseNat(s[..4]), ParseNat(s[4..6]), ParseNat(s[6..]));
      if ValidDate(d) then Some(d) else None
    else None
  }

  /** A cell of a provider's frame: a number, a text, or a `datetime.date`. */
  datatype Cell = Num(x: real) | Str(s: string) | Day(year: nat, month: nat, day: nat)

  /** `pd.to_datetime(cell).date()` written back with `str`; None where pandas raises. */
  function NormaliseDate(c: Cell): (r: Option<string>)
    ensures r.Some? ==> IsIsoShape(r.value)
  {
    match c
    case Str(s) =>
      (match ParseDateText(s)
       case Some(d) => IsoFacts(d); Some(IsoText(d))
       case None => None)
    case Day(y, m, dd) =>
      var d := Date(y, m, dd);
      if ValidDate(d) then IsoFacts(d); Some(IsoText(d)) else None
    case Num(_) => None
  }

  /** The text of a valid date has the 'YYYY-MM-DD' layout and reads back as that date. */
  lemma IsoFacts(d: Date)
    requires ValidDate(d)
    ensures IsIsoShape(IsoText(d)) && ParseDateText(IsoText(d)) == Some(d)
  {
    PadNumberFacts(d.year, 4);
    PadNumberFacts(d.month, 2);
    PadNumberFacts(d.day, 2);
    var s := IsoText(d);
    assert s[..4] == PadNumber(d.year, 4);
    assert s[5..7] == PadNumber(d.month, 2);
    assert s[8..] == PadNumber(d.day, 2);
  }

  /** Normalising a date that is already 'YYYY-MM-DD' leaves it as it is. */
  lemma NormaliseIdempotent(c: Cell)
    requires NormaliseDate(c).Some?
    ensures NormaliseDate(Str(NormaliseDate(c).value)) == NormaliseDate(c)
  {
    match c
    case Str(s) => IsoFacts(ParseDateText(s).value);
    case Day(y, m, dd) => IsoFacts(Date(y, m, dd));
  }

  // ---------------------------------------------------------------------------
  // The fallback provider
  // ---------------------------------------------------------------------------

  /** A provider's table: its columns by name, each holding `height` cells. */
  datatype Frame = Frame(columns: map<string, seq<Cell>>, height: nat)

  /** `df.empty`: no rows or no columns. */
  predicate IsEmpty(f: Frame) {
    f.height == 0 || |f.columns| == 0
  }

  /** What a fallback call gives back: a frame, `None`, or an exception. */
  datatype AkFetch = AkData(frame: Frame) | AkNone | AkRaised

  /** The three fallback calls: A-share history between two dates, Hong Kong and US daily bars. */
  datatype AkRequest =
    | AShareHist(code: string, startDate: string, endDate: string)
    | HkDaily(code: string)
    | UsDaily(code: string)

  predicate EndsWith(s: string, suffix: string) {
    |s| >= |suffix| && s[|s| - |suffix|..] == suffix
  }

  /** `s.replace('-', '')`. */
  function RemoveDashes(s: string): (r: string)
    ensures '-' !in r
    decreases |s|
  {
    if |s| == 0 then ""
    else (if s[0] == '-' then "" else [s[0]]) + RemoveDashes(s[1..])
  }

  /** The call the fallback makes for a symbol, chosen by its case-sensitive suffix. */
  function AkRequestFor(symbol: string, startDate: string, endDate: string): Option<AkRequest> {
    var code := Split(symbol, '.')[0];
    if EndsWith(symbol, ".SZ") || EndsWith(symbol, ".SH") then
      Some(AShareHist(code, RemoveDashes(startDate), RemoveDashes(endDate)))
    else if EndsWith(symbol, ".HK") then Some(HkDaily(code))
    else if EndsWith(symbol, ".US") then Some(UsDaily(code))
    else None
  }

  /** The native names of date, open, close, high, low and volume. */
  datatype NativeNames = NativeNames(date: string, open: string, close: string, high: string, low: string, volume: string)

  function NamesFor(req: AkRequest): NativeNames {
    match req
    case HkDaily(_) => NativeNames("日期", "开盘价", "收盘价", "最高价", "最低价", "成交量")
    case _ => NativeNames("日期", "开盘", "收盘", "最高", "最低", "成交量")
  }

  /**
   * The column `canonical` after `df.rename(columns={native: canonical})`: the
   * native column when there is one, else a column already called `canonical`.
   * None where the later `df[canonical]` raises a KeyError.
   */
  function Renamed(f: Frame, native: string, canonical: string): Option<seq<Cell>> {
    if native in f.columns && |f.columns[native]| == f.height then Some(f.columns[native])
    else if native !in f.columns && canonical in f.columns && |f.columns[canonical]| == f.height then Some(f.columns[canonical])
    else None
  }

  /** One row in the renamed columns, before its cells are converted. */
  datatype RawBar = RawBar(time: Cell, open: Cell, close: Cell, high: Cell, low: Cell, volume: Cell)

  /** The frame's rows in the canonical columns; None when one of them is missing. */
  function RawBars(f: Frame, names: NativeNames): (r: Option<seq<RawBar>>)
    ensures r.Some? ==> |r.value| == f.height
  {
    match (Renamed(f, names.date, "time_key"), Renamed(f, names.open, "open"), Renamed(f, names.close, "close"),
           Renamed(f, names.high, "high"), Renamed(f, names.low, "low"), Renamed(f, names.volume, "volume"))
    case (Some(t), Some(o), Some(c), Some(h), Some(l), Some(v)) =>
      Some(seq(f.height, i requires 0 <= i < f.height => RawBar(t[i], o[i], c[i], h[i], l[i], v[i])))
    case _ => None
  }

  /** `start_date <= time_key <= end_date`; None where the comparison raises (a cell that is not text). */
  function InWindow(c: Cell, startDate: string, endDate: string): Option<bool> {
    match c
    case Str(s) => Some(StrLe(startDate, s) && StrLe(s, endDate))
    case _ => None
  }

  /**
   * The rows kept by the Hong Kong and US date filter; None exactly when the
   * comparison raises on some row. The kept rows are exactly the rows inside
   * the window; FilterWindowAppend shows their order is the input's.
   */
  function FilterWindow(rows: seq<RawBar>, startDate: string, endDate: string): (r: Option<seq<RawBar>>)
    ensures r.None? <==> exists i | 0 <= i < |rows| :: InWindow(rows[i].time, startDate, endDate).None?
    ensures r.Some? ==> |r.value| <= |rows|
    ensures r.Some? ==> forall k | 0 <= k < |r.value| :: r.value[k] in rows && InWindow(r.value[k].time, startDate, endDate) == Some(true)
    ensures r.Some? ==> forall i | 0 <= i < |rows| && InWindow(rows[i].time, startDate, endDate) == Some(true) :: rows[i] in r.value
    decreases |rows|
  {
    if |rows| == 0 then Some([])
    else
      match (InWindow(rows[0].time, startDate, endDate), FilterWindow(rows[1..], startDate, endDate))
      case (Some(keep), Some(rest)) => Some(if keep then [rows[0]] + rest else rest)
      case _ => None
  }

  /** Filtering two runs of rows one after the other keeps each run's rows in turn: the filter keeps the input order. */
  lemma {:induction false} FilterWindowAppend(a: seq<RawBar>, b: seq<RawBar>, startDate: string, endDate: string)
    ensures var fa := FilterWindow(a, startDate, endDate);
      var fb := FilterWindow(b, startDate, endDate);
      FilterWindow(a + b, startDate, endDate) == if fa.Some? && fb.Some? then Some(fa.value + fb.value) else None
    decreases |a|
  {
    var ab := a + b;
    if |a| == 0 {
      assert ab == b;
      var fb := FilterWindow(b, startDate, endDate);
      if fb.Some? {
        assert [] + fb.value == fb.value;
      }
    } else {
      assert ab[0] == a[0] && ab[1..] == a[1..] + b;
      FilterWindowAppend(a[1..], b, startDate, endDate);
      var head := InWindow(a[0].time, startDate, endDate);
      var rest := FilterWindow(a[1..], startDate, endDate);
      var fb := FilterWindow(b, startDate, endDate);
      var tail := FilterWindow(ab[1..], startDate, endDate);
      assert tail == if rest.Some? && fb.Some? then Some(rest.value + fb.value) else None;
      if head.Some? && rest.Some? && fb.Some? {
        assert |ab| > 0 && InWindow(ab[0].time, startDate, endDate) == head;
        if head.value {
          assert FilterWindow(ab, startDate, endDate) == Some([a[0]] + tail.value);
          assert [a[0]] + (rest.value + fb.value) == ([a[0]] + rest.value) + fb.value;
        }
      }
    }
  }

  /** A window holding every row keeps them all, in order. */
  lemma {:induction false} FilterWindowKeepsAll(rows: seq<RawBar>, startDate: string, endDate: string)
    requires forall i | 0 <= i < |rows| :: InWindow(rows[i].time, startDate, endDate) == Some(true)
    ensures FilterWindow(rows, startDate, endDate) == Some(rows)
    decreases |rows|
  {
    if |rows| > 0 {
      FilterWindowKeepsAll(rows[1..], startDate, endDate);
      assert [rows[0]] + rows[1..] == rows;
    }
  }

  /** `float(cell)`: a number, or text in plain decimal notation. */
  function FloatOf(c: Cell): Option<real> {
    match c
    case Num(x) => Some(x)
    case Str(s) => ParseDecimal(s)
    case Day(_, _, _) => None
  }

  /** `int(cell)` on a volume cell: a number, or whole-number text with an optional '-'. */
  function VolumeOf(c: Cell): Option<real> {
    match c
    case Num(x) => Some(x)
    case Str(s) =>
      if |s| > 0 && s[0] == '-' && |s| > 1 && AllDigits(s[1..]) then
        Some(-(ParseNat(s[1..]) as real))
      else if |s| > 0 && AllDigits(s) then Some(ParseNat(s) as real)
      else None
    case Day(_, _, _) => None
  }

  /** A row converted: its date normalised, a numeric close (the averages need one), the other prices read as floats. */
  function ConvertBar(r: RawBar): (b: Option<Bar>)
    ensures b.Some? ==> IsIsoShape(b.value.timeKey)
  {
    match (NormaliseDate(r.time), r.close, FloatOf(r.open), FloatOf(r.high), FloatOf(r.low), VolumeOf(r.volume))
    case (Some(t), Num(c), Some(o), Some(h), Some(l), Some(v)) => Some(Bar(t, o, c, h, l, v))
    case _ => None
  }

  function ConvertBars(rows: seq<RawBar>): (r: Option<seq<Bar>>)
    ensures r.Some? ==> |r.value| == |rows|
    ensures r.Some? ==> forall k | 0 <= k < |r.value| :: IsIsoShape(r.value[k].timeKey)
    decreases |rows|
  {
    if |rows| == 0 then Some([])
    else
      match (ConvertBar(rows[0]), ConvertBars(rows[1..]))
      case (Some(b), Some(rest)) => Some([b] + rest)
      case _ => None
  }

  /** The fallback's bars before sorting; None where `ak_get_kline_data` raises and answers []. */
  function AkBars(req: AkRequest, f: Frame, startDate: string, endDate: string): (r: Option<seq<Bar>>)
    ensures r.Some? ==> forall k | 0 <= k < |r.value| :: IsIsoShape(r.value[k].timeKey)
  {
    match RawBars(f, NamesFor(req))
    case None => None
    case Some(raw) =>
      var kept := if req.AShareHist? then Some(raw) else FilterWindow(raw, startDate, endDate);
      match kept
      case None => None
      case Some(rows) => ConvertBars(rows)
  }

  /**
   * What `ak_get_kline_data(symbol, start_date, end_date)` returns. Every
   * failure (an unsupported suffix, an exception, no frame, an empty frame, a
   * missing or unreadable column) gives the empty list.
   */
  function AkRows(symbol: string, startDate: string, endDate: string, ak: AkRequest -> AkFetch): seq<KlineRow> {
    match AkRequestFor(symbol, startDate, endDate)
    case None => []
    case Some(req) =>
      match ak(req)
      case AkData(f) =>
        if IsEmpty(f) then []
        else
          (match AkBars(req, f, startDate, endDate)
           case Some(bars) => EnrichedRows(SortBy(bars, TimeKey))
           case None => [])
      case _ => []
  }

  /** The fallback's rows carry 'YYYY-MM-DD' dates in ascending order. */
  lemma AkRowsFacts(symbol: string, startDate: string, endDate: string, ak: AkRequest -> AkFetch)
    ensures var rows := AkRows(symbol, startDate, endDate, ak);
      && (forall k | 0 <= k < |rows| :: IsIsoShape(rows[k].time))
      && (forall i, j | 0 <= i < j < |rows| :: StrLe(rows[i].time, rows[j].time))
  {
    var rows := AkRows(symbol, startDate, endDate, ak);
    var request := AkRequestFor(symbol, startDate, endDate);
    if request.Some? && ak(request.value).AkData? && !IsEmpty(ak(request.value).frame) {
      var bars := AkBars(request.value, ak(request.value).frame, startDate, endDate);
      if bars.Some? {
        assert rows == EnrichedRows(SortBy(bars.value, TimeKey));
        SortedRowsFacts(bars.value);
      } else {
        assert rows == [];
      }
    } else {
      assert rows == [];
    }
  }

  /** Sorting ISO-shaped bars by date gives rows with ISO dates in ascending order. */
  lemma SortedRowsFacts(bars: seq<Bar>)
    requires forall k | 0 <= k < |bars| :: IsIsoShape(bars[k].timeKey)
    ensures var rows := EnrichedRows(SortBy(bars, TimeKey));
      && (forall k | 0 <= k < |rows| :: IsIsoShape(rows[k].time))
      && (forall i, j | 0 <= i < j < |rows| :: StrLe(rows[i].time, rows[j].time))
  {
    var sorted := SortBy(bars, TimeKey);
    SortByCorrect(bars, TimeKey);
    forall k | 0 <= k < |sorted| ensures IsIsoShape(sorted[k].timeKey) {
      assert sorted[k] in multiset(bars);
    }
    RowsSortedByTime(bars);
  }

  /** `ak_get_kline_data`: pick the call, fetch, convert, sort, add the indicators. */
  method AkGetKlineData(symbol: string, startDate: string, endDate: string, ak: AkRequest -> AkFetch)
    returns (rows: seq<KlineRow>)
    ensures rows == AkRows(symbol, startDate, endDate, ak)
  {
    rows := [];
    var request := AkRequestFor(symbol, startDate, endDate);
    if request.None? {
      return;
    }
    var req := request.value;
    var fetched := ak(req);
    if !fetched.AkData? || IsEmpty(fetched.frame) {
      return;
    }
    var bars := AkBars(req, fetched.frame, startDate, endDate);
    if bars.None? {
      return;
    }
    rows := BuildKlineRows(SortBy(bars.value, TimeKey));
  }

  // ---------------------------------------------------------------------------
  // The primary provider and the fallback decision
  // ---------------------------------------------------------------------------

  /** The primary provider's daily history request: '<MARKET>.<code>' between two dates. */
  datatype HistoryRequest = HistoryRequest(code: string, startDate: string, endDate: string)

  /** `RET_OK` with a frame of bars, or anything else (an error code, a non-frame, an exception). */
  datatype History = HistoryOk(bars: seq<Bar>) | HistoryFailed

  /** The primary answer is used only when it is OK and holds at least one bar. */
  predicate Usable(h: History) {
    h.HistoryOk? && |h.bars| > 0
  }

  /**
   * `get_kline_data(symbol)`. `connected` is whether the primary provider's
   * context exists; `startDate`/`endDate` are the clock's two-years-ago and
   * today. None for `get_kline_data`'s `None`.
   */
  method GetKlineData(connected: bool, symbol: string, startDate: string, endDate: string,
                      futu: HistoryRequest -> History, ak: AkRequest -> AkFetch)
    returns (r: Option<seq<KlineRow>>)
    ensures !connected || ParseStockCode(symbol).None? ==> r.None?
    ensures connected && ParseStockCode(symbol).Some? ==>
      var (code, market) := ParseStockCode(symbol).value;
      var answer := futu(HistoryRequest(MarketName(market) + "." + code, startDate, endDate));
      && (code == "" ==> r.None?)
      && (code != "" && Usable(answer) ==> r == Some(EnrichedRows(SortBy(answer.bars, TimeKey))))
      && (code != "" && !Usable(answer) && market == HK ==> r.None?)
      && (code != "" && !Usable(answer) && market != HK ==> r == Some(AkRows(symbol, startDate, endDate, ak)))
    ensures r.Some? ==> forall i, j | 0 <= i < j < |r.value| :: StrLe(r.value[i].time, r.value[j].time)
  {
    if !connected {
      return None;
    }
    var parsed := ParseStockCode(symbol);
    if parsed.None? || parsed.value.0 == "" {
      return None;
    }
    var (code, market) := parsed.value;
    var answer := futu(HistoryRequest(MarketName(market) + "." + code, startDate, endDate));
    if !Usable(answer) {
      if market == SH || market == SZ {
        var rows := AkGetKlineData(symbol, startDate, endDate, ak);
        AkRowsFacts(symbol, startDate, endDate, ak);
        return Some(rows);
      }
      return None;
    }
    RowsSortedByTime(answer.bars);
    var rows := BuildKlineRows(SortBy(answer.bars, TimeKey));
    return Some(rows);
  }

  /**
   * The fallback is asked with the symbol as typed, and its suffix test is
   * case-sensitive: a lower-case Shanghai or Shenzhen suffix passes the symbol
   * check but never reaches a fallback call, so the fallback path answers [].
   */
  lemma LowerCaseSuffixFallsFlat(startDate: string, endDate: string, ak: AkRequest -> AkFetch)
    ensures ParseStockCode("000001.sz") == Some(("000001", SZ))
    ensures AkRows("000001.sz", startDate, endDate, ak) == []
  {
    assert "000001.sz" == "000001" + "." + "sz";
    assert Upper("sz") == "SZ";
    ParseJoined("000001", "sz");
    NoKnownSuffix("000001.sz", startDate, endDate);
  }

  /** A symbol ending in none of the four upper-case suffixes gets no fallback call. */
  lemma NoKnownSuffix(s: string, startDate: string, endDate: string)
    requires |s| >= 3 && s[|s| - 3..] !in {".SZ", ".SH", ".HK", ".US"}
    ensures AkRequestFor(s, startDate, endDate) == None
  {
  }
}
