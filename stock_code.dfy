/**
 * The backend's reading of a symbol such as '00700.HK' or '600000.sh' into a
 * code and one of the three markets it serves (`parse_stock_code`).
 */
module StockCode {
  import opened Wrappers
  import opened Text

  /** The markets the backend accepts: Shanghai, Shenzhen and Hong Kong. */
  datatype Market = SH | SZ | HK

  function MarketName(m: Market): string {
    match m
    case SH => "SH"
    case SZ => "SZ"
    case HK => "HK"
  }

  /** `market in ['SH', 'SZ', 'HK']`, giving the market it names. */
  function MarketOf(s: string): (r: Option<Market>)
    ensures r.Some? <==> s == "SH" || s == "SZ" || s == "HK"
    ensures r.Some? ==> MarketName(r.value) == s
  {
    if s == "SH" then Some(SH)
    else if s == "SZ" then Some(SZ)
    else if s == "HK" then Some(HK)
    else None
  }

  /** Python's `s.split(c)` for a one-character separator. */
  function Split(s: string, c: char): (parts: seq<string>)
    ensures |parts| >= 1
    ensures forall k | 0 <= k < |parts| :: c !in parts[k]
    decreases |s|
  {
    if c !in s then [s]
    else
      var i := IndexOf(s, c);
      [s[..i]] + Split(s[i + 1..], c)
  }

  /** Joining the pieces back with the separator gives the text that was split. */
  lemma {:induction false} SplitJoin(s: string, c: char)
    ensures Join(Split(s, c), [c]) == s
    decreases |s|
  {
    if c in s {
      var i := IndexOf(s, c);
      SplitJoin(s[i + 1..], c);
      JoinCons(s[..i], Split(s[i + 1..], c), [c]);
      assert s == s[..i] + [c] + s[i + 1..];
    }
  }

  lemma JoinCons(x: string, rest: seq<string>, sep: string)
    requires |rest| >= 1
    ensures Join([x] + rest, sep) == x + sep + Join(rest, sep)
  {
    assert ([x] + rest)[1..] == rest;
  }

  /** A text with exactly one separator, at position `i`, splits into the two sides. */
  lemma SplitOnce(s: string, c: char, i: nat)
    requires i < |s| && s[i] == c && c !in s[..i] && c !in s[i + 1..]
    ensures Split(s, c) == [s[..i], s[i + 1..]]
  {
    assert s == s[..i] + [c] + s[i + 1..];
    IndexOfAfter(s[..i], c, s[i + 1..]);
  }

  /** `str.upper()` on the ASCII letters. */
  function UpperChar(c: char): char {
    if 'a' <= c <= 'z' then (c as int - 32) as char else c
  }

  function Upper(s: string): (r: string)
    ensures |r| == |s|
  {
    seq(|s|, i requires 0 <= i < |s| => UpperChar(s[i]))
  }

  /** `s` has exactly one '.', at position `i`. */
  predicate DotAt(s: string, i: int) {
    0 <= i < |s| && s[i] == '.' && '.' !in s[..i] && '.' !in s[i + 1..]
  }

  /**
   * `parse_stock_code(symbol)`: the code before the '.' and the upper-cased
   * market after it; None for `(None, None)`.
   */
  function ParseStockCode(symbol: string): (r: Option<(string, Market)>)
    ensures r.Some? ==> '.' !in r.value.0
  {
    var parts := Split(symbol, '.');
    if |parts| != 2 then None
    else
      match MarketOf(Upper(parts[1]))
      case None => None
      case Some(m) => Some((parts[0], m))
  }

  /** A symbol with one '.' is accepted exactly when its suffix, upper-cased, names a market. */
  lemma ParseOneDot(symbol: string, i: nat)
    requires DotAt(symbol, i)
    ensures ParseStockCode(symbol).Some? <==> MarketOf(Upper(symbol[i + 1..])).Some?
    ensures ParseStockCode(symbol).Some? ==>
      ParseStockCode(symbol).value == (symbol[..i], MarketOf(Upper(symbol[i + 1..])).value)
  {
    SplitOnce(symbol, '.', i);
  }

  /** Two pieces mean one '.', right after the first piece. */
  lemma SplitInTwo(symbol: string)
    ensures var parts := Split(symbol, '.');
      |parts| == 2 ==>
        DotAt(symbol, |parts[0]|) && symbol[..|parts[0]|] == parts[0] && symbol[|parts[0]| + 1..] == parts[1]
  {
    var parts := Split(symbol, '.');
    SplitJoin(symbol, '.');
    if |parts| == 2 {
      var i := |parts[0]|;
      assert symbol == parts[0] + "." + parts[1];
      assert symbol[..i] == parts[0] && symbol[i + 1..] == parts[1];
    }
  }

  /** A symbol with no '.' or with several is refused. */
  lemma ParseNeedsOneDot(symbol: string)
    requires forall i | 0 <= i < |symbol| :: !DotAt(symbol, i)
    ensures ParseStockCode(symbol) == None
  {
    SplitInTwo(symbol);
  }

  /** Whatever is accepted is `code + "." + suffix`, the suffix naming the market in any letter case. */
  lemma ParseAccepted(symbol: string)
    requires ParseStockCode(symbol).Some?
    ensures var (code, m) := ParseStockCode(symbol).value;
      exists i :: DotAt(symbol, i) && code == symbol[..i] && Upper(symbol[i + 1..]) == MarketName(m)
  {
    SplitInTwo(symbol);
    assert DotAt(symbol, |Split(symbol, '.')[0]|);
  }

  /** `code.suffix` with no other '.' is read as the code and the market the upper-cased suffix names. */
  lemma ParseJoined(code: string, suffix: string)
    requires '.' !in code && '.' !in suffix
    ensures ParseStockCode(code + "." + suffix) ==
      match MarketOf(Upper(suffix))
      case None => None
      case Some(m) => Some((code, m))
  {
    var s := code + "." + suffix;
    assert s[..|code|] == code && s[|code| + 1..] == suffix;
    assert DotAt(s, |code|);
    ParseOneDot(s, |code|);
  }

  /** A US symbol and an unknown suffix are refused. */
  lemma ParseRefusesOtherMarkets()
    ensures ParseStockCode("AAPL.US") == None
    ensures ParseStockCode("00700.XX") == None
  {
    assert "AAPL.US" == "AAPL" + "." + "US";
    assert Upper("US") == "US";
    ParseJoined("AAPL", "US");
    assert "00700.XX" == "00700" + "." + "XX";
    assert Upper("XX") == "XX";
    ParseJoined("00700", "XX");
  }

  /** The suffix is upper-cased before it is checked. */
  lemma ParseLowerCaseMarket()
    ensures ParseStockCode("00700.hk") == Some(("00700", HK))
  {
    assert "00700.hk" == "00700" + "." + "hk";
    assert Upper("hk") == "HK";
    ParseJoined("00700", "hk");
  }
}
