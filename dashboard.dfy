/**
 * The dashboard page's symbol handling and option-chain table: the code
 * check, the input filter, the two guards that refuse to go on with a
 * malformed code, and the flattening of the option chain into table rows.
 */
module Dashboard {
  import opened Wrappers
  import opened Text
  import opened StockCode
  import opened OptionChain

  // ---------------------------------------------------------------------------
  // The stock code
  // ---------------------------------------------------------------------------

  /** The markets the page accepts: Hong Kong, Shanghai, Shenzhen, Beijing and the US. */
  const PageMarkets: set<string> := {"HK", "SH", "SZ", "BJ", "US"}

  /** `/^(\d+)\.(HK|SH|SZ|BJ|US)$/.test(code)`. */
  predicate ValidateStockCode(code: string) {
    '.' in code
    && var i := IndexOf(code, '.');
    i >= 1 && AllDigits(code[..i]) && code[i + 1..] in PageMarkets
  }

  /** A code passes exactly when it is one or more digits, a dot and one of the five markets. */
  lemma ValidateIff(code: string)
    ensures ValidateStockCode(code) <==>
      exists i | 0 < i < |code| :: code[i] == '.' && AllDigits(code[..i]) && code[i + 1..] in PageMarkets
  {
    if exists i | 0 < i < |code| :: code[i] == '.' && AllDigits(code[..i]) && code[i + 1..] in PageMarkets {
      var i :| 0 < i < |code| && code[i] == '.' && AllDigits(code[..i]) && code[i + 1..] in PageMarkets;
      var j := IndexOf(code, '.');
      if j < i {
        assert code[j] in code[..i];
      }
      assert '.' !in code[..j];
    }
  }

  /** Digits, a dot and a page market always pass. */
  lemma ValidWritten(digits: string, market: string)
    requires |digits| >= 1 && AllDigits(digits) && market in PageMarkets
    ensures ValidateStockCode(digits + "." + market)
  {
    var code := digits + "." + market;
    assert code[|digits|] == '.';
    assert code[..|digits|] == digits && code[|digits| + 1..] == market;
    ValidateIff(code);
  }

  /** The market part of a code that passes. */
  function PageMarket(code: string): string
    requires ValidateStockCode(code)
  {
    code[IndexOf(code, '.') + 1..]
  }

  /**
   * Of the codes the page accepts, the server parses exactly those of its
   * three markets: a Beijing or US code passes the page and is refused with
   * HTTP 400 by the server.
   */
  lemma PageAndServerMarkets(code: string)
    requires ValidateStockCode(code)
    ensures ParseStockCode(code).Some? <==> PageMarket(code) in {"HK", "SH", "SZ"}
    ensures ParseStockCode(code).Some? ==> ParseStockCode(code).value.0 == code[..IndexOf(code, '.')]
  {
    var i := IndexOf(code, '.');
    var m := code[i + 1..];
    assert '.' !in m;
    assert DotAt(code, i);
    ParseOneDot(code, i);
    assert Upper(m) == m by {
      assert m in PageMarkets;
      forall k | 0 <= k < |m|
        ensures UpperChar(m[k]) == m[k]
      {
        assert m == "HK" || m == "SH" || m == "SZ" || m == "BJ" || m == "US";
      }
    }
  }

  /** A Beijing or US code (digits, a dot, BJ or US) passes the page and is refused by the server. */
  lemma PageOnlyMarket(digits: string, market: string)
    requires |digits| >= 1 && AllDigits(digits) && market in PageMarkets - {"HK", "SH", "SZ"}
    ensures ValidateStockCode(digits + "." + market) && ParseStockCode(digits + "." + market).None?
  {
    ValidWritten(digits, market);
    assert !IsDigit('.');
    assert market == "BJ" || market == "US";
    assert Upper(market) == market;
    ParseJoined(digits, market);
  }

  /** The characters `/[^0-9.HKSZBJUS]/g` leaves in place. */
  predicate Allowed(c: char) {
    IsDigit(c) || c == '.' || c == 'H' || c == 'K' || c == 'S' || c == 'Z' || c == 'B' || c == 'J' || c == 'U'
  }

  /** `s.replace(/[^0-9.HKSZBJUS]/g, '')`: the allowed characters in their order. */
  function KeepAllowed(s: string): (r: string)
    ensures |r| <= |s| && forall c | c in r :: Allowed(c)
    decreases |s|
  {
    if |s| == 0 then []
    else KeepAllowed(s[..|s| - 1]) + (if Allowed(s[|s| - 1]) then [s[|s| - 1]] else [])
  }

  /** A single character is kept exactly when it is allowed. */
  lemma KeepAllowedOne(c: char)
    ensures KeepAllowed([c]) == if Allowed(c) then [c] else []
  {
    assert [c][..0] == [];
  }

  /** The filter works character by character: filtering a + b is filtering a, then b, so every allowed character stays, in order. */
  lemma {:induction false} KeepAllowedAppend(a: string, b: string)
    ensures KeepAllowed(a + b) == KeepAllowed(a) + KeepAllowed(b)
    decreases |b|
  {
    if |b| == 0 {
      assert a + b == a;
    } else {
      var init := b[..|b| - 1];
      var last := b[|b| - 1];
      assert (a + b)[..|a + b| - 1] == a + init && (a + b)[|a + b| - 1] == last;
      KeepAllowedAppend(a, init);
    }
  }

  /** A letter outside the market codes is dropped and the digits around it stay: `0x700` becomes `0700`. */
  lemma FilterDropsStrayLetter()
    ensures FilterSymbol("0x700") == "0700"
  {
    UpperStray();
    KeepStray();
  }

  lemma UpperStray()
    ensures Upper("0x700") == "0X700"
  {
    assert UpperChar('x') == 'X';
  }

  lemma KeepStray()
    ensures KeepAllowed("0X700") == "0700"
  {
    assert "0X700" == "0" + "X700";
    KeepAllowedAppend("0", "X700");
    AllAllowedKept("0");
    KeepStrayTail();
  }

  lemma KeepStrayTail()
    ensures KeepAllowed("X700") == "700"
  {
    assert "X700" == "X" + "700";
    KeepAllowedAppend("X", "700");
    AllAllowedKept("700");
    KeepAllowedOne('X');
  }

  /** `handleStockCodeChange`: upper-case the input, then drop every character that is not allowed. */
  function FilterSymbol(input: string): (r: string)
    ensures forall c | c in r :: Allowed(c)
  {
    KeepAllowed(Upper(input))
  }

  /** Text made only of allowed characters passes the filter unchanged, and only such text does. */
  lemma KeepAllowedFixed(s: string)
    ensures KeepAllowed(s) == s <==> forall c | c in s :: Allowed(c)
  {
    if forall c | c in s :: Allowed(c) {
      assert forall i | 0 <= i < |s| :: s[i] in s;
      AllAllowedKept(s);
    }
  }

  lemma {:induction false} AllAllowedKept(s: string)
    requires forall i | 0 <= i < |s| :: Allowed(s[i])
    ensures KeepAllowed(s) == s
    decreases |s|
  {
    if |s| > 0 {
      var init := s[..|s| - 1];
      AllAllowedKept(init);
      assert s == init + [s[|s| - 1]];
    }
  }

  /** The filter never invents a character: whatever it keeps was in the input. */
  lemma {:induction false} KeepAllowedFromInput(s: string)
    ensures forall c | c in KeepAllowed(s) :: c in s
    decreases |s|
  {
    if |s| > 0 {
      var init := s[..|s| - 1];
      KeepAllowedFromInput(init);
      assert s == init + [s[|s| - 1]];
    }
  }

  /** Filtering twice is filtering once. */
  lemma FilterIdempotent(input: string)
    ensures FilterSymbol(FilterSymbol(input)) == FilterSymbol(input)
  {
    var r := FilterSymbol(input);
    assert Upper(r) == r by {
      forall k | 0 <= k < |r|
        ensures UpperChar(r[k]) == r[k]
      {
        assert r[k] in r && Allowed(r[k]);
      }
    }
    KeepAllowedFixed(r);
  }

  /** A code the check accepts is left as it is by the filter. */
  lemma FilterKeepsValid(code: string)
    requires ValidateStockCode(code)
    ensures FilterSymbol(code) == code
  {
    var i := IndexOf(code, '.');
    var m := code[i + 1..];
    assert m == "HK" || m == "SH" || m == "SZ" || m == "BJ" || m == "US";
    assert code == code[..i] + [code[i]] + m;
    forall c | c in code
      ensures Allowed(c)
    {
      if c in code[..i] {
        assert IsDigit(c);
      } else if c != '.' {
        assert c in m;
      }
    }
    forall k | 0 <= k < |code|
      ensures UpperChar(code[k]) == code[k]
    {
      assert code[k] in code;
    }
    assert Upper(code) == code;
    KeepAllowedFixed(code);
  }

  // ---------------------------------------------------------------------------
  // The page state and its guards
  // ---------------------------------------------------------------------------

  const InvalidCodeMessage: string := "请输入正确的股票代码格式，例如：00700.HK, 600300.SH"

  /** The part of the page's state that the symbol handlers touch. */
  class SymbolBox {
    var selectedSymbol: string
    var shouldFetchData: bool
    /** The last error shown to the user, if any. */
    var shownError: Option<string>
    /** How many diagnosis requests the page has started. */
    var diagnosisRequests: nat

    constructor(symbol: string)
      ensures selectedSymbol == symbol && !shouldFetchData && shownError == None && diagnosisRequests == 0
    {
      selectedSymbol := symbol;
      shouldFetchData := false;
      shownError := None;
      diagnosisRequests := 0;
    }

    /** `handleStockCodeChange`. */
    method Change(input: string)
      modifies this
      ensures selectedSymbol == FilterSymbol(input)
      ensures shouldFetchData == old(shouldFetchData) && shownError == old(shownError)
      ensures diagnosisRequests == old(diagnosisRequests)
    {
      selectedSymbol := FilterSymbol(input);
    }

    /** `handleStockCodeConfirm`: a malformed code shows the error and nothing is fetched. */
    method Confirm()
      modifies this
      ensures selectedSymbol == old(selectedSymbol) && diagnosisRequests == old(diagnosisRequests)
      ensures ValidateStockCode(selectedSymbol) ==> shouldFetchData && shownError == old(shownError)
      ensures !ValidateStockCode(selectedSymbol) ==>
        shouldFetchData == old(shouldFetchData) && shownError == Some(InvalidCodeMessage)
    {
      if !ValidateStockCode(selectedSymbol) {
        shownError := Some(InvalidCodeMessage);
        return;
      }
      shouldFetchData := true;
    }

    /** `handleDiagnosis`: the request starts only for a well-formed code. */
    method Diagnose() returns (requested: bool)
      modifies this
      ensures requested <==> ValidateStockCode(selectedSymbol)
      ensures selectedSymbol == old(selectedSymbol) && shouldFetchData == old(shouldFetchData)
      ensures diagnosisRequests == old(diagnosisRequests) + (if requested then 1 else 0)
      ensures !requested ==> shownError == Some(InvalidCodeMessage)
      ensures requested ==> shownError == old(shownError)
    {
      if !ValidateStockCode(selectedSymbol) {
        shownError := Some(InvalidCodeMessage);
        return false;
      }
      diagnosisRequests := diagnosisRequests + 1;
      requested := true;
    }
  }

  // ---------------------------------------------------------------------------
  // The option-chain table
  // ---------------------------------------------------------------------------

  /**
   * One table row. `key` is None where the page falls back to a random key;
   * `strikePrice` is None where it is left undefined.
   */
  datatype TableRow = TableRow(
    key: Option<string>,
    strikeTime: string,
    strikePrice: Option<real>,
    call: Option<OptionInfo>,
    put: Option<OptionInfo>)

  /** `a || b` on strings: the empty string is falsy. */
  function OrText(a: Option<string>, b: Option<string>): Option<string> {
    if a.Some? && a.value != "" then a else b
  }

  /** `callBasic?.id || putBasic?.id || random`. */
  function KeyOf(opt: OptionPair): Option<string> {
    OrText(if opt.call.Some? then Some(opt.call.value.basic.id) else None,
      OrText(if opt.put.Some? then Some(opt.put.value.basic.id) else None, None))
  }

  /** `callExData?.strikeTime || putExData?.strikeTime || chain.strikeTime`. */
  function TimeFor(chain: StrikeChain, opt: OptionPair): string {
    if opt.call.Some? && opt.call.value.ex.strikeTime != "" then opt.call.value.ex.strikeTime
    else if opt.put.Some? && opt.put.value.ex.strikeTime != "" then opt.put.value.ex.strikeTime
    else chain.strikeTime
  }

  /** `callExData?.strikePrice || putExData?.strikePrice`: a zero price is falsy. */
  function PriceFor(opt: OptionPair): Option<real> {
    if opt.call.Some? && opt.call.value.ex.strikePrice != 0.0 then Some(opt.call.value.ex.strikePrice)
    else if opt.put.Some? then Some(opt.put.value.ex.strikePrice)
    else None
  }

  function RowFor(chain: StrikeChain, opt: OptionPair): TableRow {
    TableRow(KeyOf(opt), TimeFor(chain, opt), PriceFor(opt), opt.call, opt.put)
  }

  /** A pair with a call or a put. */
  predicate Shown(opt: OptionPair) {
    opt.call.Some? || opt.put.Some?
  }

  /** The table rows of the first `n` pairs of a chain. */
  function ChainRows(chain: StrikeChain, n: nat): seq<TableRow>
    requires n <= |chain.options|
  {
    if n == 0 then []
    else ChainRows(chain, n - 1) + (if Shown(chain.options[n - 1]) then [RowFor(chain, chain.options[n - 1])] else [])
  }

  /** `processOptionChainData(data)`, as a function of the chains. */
  function Processed(chains: seq<StrikeChain>): seq<TableRow>
    decreases |chains|
  {
    if |chains| == 0 then []
    else
      var last := chains[|chains| - 1];
      Processed(chains[..|chains| - 1]) + ChainRows(last, |last.options|)
  }

  /** The page's two `forEach` loops. */
  method ProcessOptionChainData(chains: seq<StrikeChain>) returns (processed: seq<TableRow>)
    ensures processed == Processed(chains)
  {
    processed := [];
    var i := 0;
    while i < |chains|
      invariant 0 <= i <= |chains|
      invariant processed == Processed(chains[..i])
    {
      var chain := chains[i];
      var j := 0;
      while j < |chain.options|
        invariant 0 <= j <= |chain.options|
        invariant processed == Processed(chains[..i]) + ChainRows(chain, j)
      {
        var opt := chain.options[j];
        if opt.call.Some? || opt.put.Some? {
          processed := processed + [RowFor(chain, opt)];
        }
        j := j + 1;
      }
      assert chains[..i + 1][..i] == chains[..i];
      i := i + 1;
    }
    assert chains[..|chains|] == chains;
  }

  /** Every pair's records carry its chain's date. */
  predicate DatesAgree(chain: StrikeChain) {
    forall k | 0 <= k < |chain.options| ::
      && (chain.options[k].call.Some? ==> chain.options[k].call.value.ex.strikeTime == chain.strikeTime)
      && (chain.options[k].put.Some? ==> chain.options[k].put.value.ex.strikeTime == chain.strikeTime)
  }

  /** The rows of a chain: one per pair with a call or a put, each showing a pair and its chain's date. */
  lemma {:induction false} ChainRowsFacts(chain: StrikeChain, n: nat)
    requires n <= |chain.options| && DatesAgree(chain)
    ensures forall r | r in ChainRows(chain, n) :: (r.call.Some? || r.put.Some?) && r.strikeTime == chain.strikeTime
    ensures |ChainRows(chain, n)| == |set k | 0 <= k < n && Shown(chain.options[k])|
  {
    if n > 0 {
      ChainRowsFacts(chain, n - 1);
      var before := set k | 0 <= k < n - 1 && Shown(chain.options[k]);
      var now := set k | 0 <= k < n && Shown(chain.options[k]);
      if Shown(chain.options[n - 1]) {
        assert now == before + {n - 1};
      } else {
        assert now == before;
      }
    }
  }

  /**
   * On well-formed chains every table row holds a call or a put and shows the
   * date of a chain it came from.
   */
  lemma {:induction false} ProcessedFacts(chains: seq<StrikeChain>)
    requires forall c | c in chains :: DatesAgree(c)
    ensures forall r | r in Processed(chains) ::
      (r.call.Some? || r.put.Some?) && exists c | c in chains :: c.strikeTime == r.strikeTime
    decreases |chains|
  {
    if |chains| > 0 {
      var init := chains[..|chains| - 1];
      var last := chains[|chains| - 1];
      assert forall c | c in init :: c in chains;
      ProcessedFacts(init);
      ChainRowsFacts(last, |last.options|);
    }
  }

  /** The server's chains agree with their dates. */
  lemma ServerDatesAgree(rows: seq<OptionRow>)
    ensures forall c | c in ChainsOf(rows) :: DatesAgree(c)
  {
    var chains := ChainsOf(rows);
    var times := Times(rows);
    forall c | c in chains
      ensures DatesAgree(c)
    {
      var i :| 0 <= i < |chains| && chains[i] == c;
      var t := times[i];
      var prices := Prices(AtTime(rows, t));
      assert c == ChainAt(rows, t);
      forall k | 0 <= k < |c.options|
        ensures c.options[k].call.Some? ==> c.options[k].call.value.ex.strikeTime == c.strikeTime
        ensures c.options[k].put.Some? ==> c.options[k].put.value.ex.strikeTime == c.strikeTime
      {
        if c.options[k].call.Some? { PairCarriesGroupKeys(rows, t, prices[k], Call); }
        if c.options[k].put.Some? { PairCarriesGroupKeys(rows, t, prices[k], Put); }
      }
    }
  }

  /** Every table row built from the server's chains holds a call or a put and shows the expiry date of some option row. */
  lemma TableDatesFromServer(rows: seq<OptionRow>)
    ensures forall r | r in Processed(ChainsOf(rows)) ::
      (r.call.Some? || r.put.Some?) && exists o | o in rows :: o.strikeTime == r.strikeTime
  {
    var chains := ChainsOf(rows);
    ServerDatesAgree(rows);
    ProcessedFacts(chains);
    ChainDates(rows);
    forall r | r in Processed(chains)
      ensures exists o | o in rows :: o.strikeTime == r.strikeTime
    {
      var c :| c in chains && c.strikeTime == r.strikeTime;
      var i :| 0 <= i < |chains| && chains[i] == c;
      assert c.strikeTime in ChainDatesOf(chains);
      assert c.strikeTime in RowDates(rows);
      var o :| o in rows && o.strikeTime == c.strikeTime;
    }
  }

  /** A zero strike with only a call shows no price: `0 || undefined` is undefined. */
  lemma ZeroStrikeCallOnly(info: OptionInfo)
    requires info.ex.strikePrice == 0.0
    ensures PriceFor(OptionPair(Some(info), None)) == None
    ensures PriceFor(OptionPair(Some(info), Some(info))) == Some(0.0)
  {
  }

  /** A non-zero strike is shown as the call's price, or the put's when there is no call. */
  lemma PriceShown(opt: OptionPair)
    requires Shown(opt)
    ensures opt.call.Some? && opt.call.value.ex.strikePrice != 0.0 ==> PriceFor(opt) == Some(opt.call.value.ex.strikePrice)
    ensures opt.call.None? ==> PriceFor(opt) == Some(opt.put.value.ex.strikePrice)
  {
  }
}
