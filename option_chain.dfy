/**
 * The option-chain endpoint (`get_option_chain_data`): the provider's option
 * rows grouped by expiry date and, within a date, by strike price, with the
 * last CALL row and the last PUT row of each price group.
 */
module OptionChain {
  import opened Wrappers
  import opened Text
  import opened Order
  import opened StockCode

  /** One row of the provider's option-chain frame (the columns the endpoint reads). */
  datatype OptionRow = OptionRow(
    code: string,
    owner: string,
    stockId: Option<nat>,
    name: string,
    optionType: string,
    strikeTime: string,
    strikePrice: real)

  /** A market and a code, split out of `MARKET.CODE`. */
  datatype Security = Security(market: string, code: string)

  datatype OptionBasic = OptionBasic(security: Security, id: string, name: string)

  datatype OptionEx = OptionEx(typeCode: int, owner: Security, strikeTime: string, strikePrice: real, market: string)

  datatype OptionInfo = OptionInfo(basic: OptionBasic, ex: OptionEx)

  /** One strike price: its call and its put, either of which may be missing. */
  datatype OptionPair = OptionPair(call: Option<OptionInfo>, put: Option<OptionInfo>)

  /** All strike prices of one expiry date. */
  datatype StrikeChain = StrikeChain(strikeTime: string, options: seq<OptionPair>)

  const Call: string := "CALL"
  const Put: string := "PUT"

  /** `option_type_map.get(option_type, 0)`: 1 for a call, 2 for a put, 0 otherwise. */
  function TypeCode(t: string): (c: int)
    ensures c == 0 <==> t != Call && t != Put
  {
    if t == Call then 1 else if t == Put then 2 else 0
  }

  /** `MARKET.CODE` split at its first dot; without a dot the market is empty and the code is the whole text. */
  function SplitCode(full: string): (s: Security)
    ensures '.' !in full ==> s == Security("", full)
    ensures '.' in full ==> '.' !in s.market && '.' !in s.code && s.market + "." <= full
  {
    if '.' in full then
      var parts := Split(full, '.');
      var i := IndexOf(full, '.');
      assert parts[0] == full[..i];
      assert full[..i + 1] == full[..i] + ".";
      Security(parts[0], parts[1])
    else Security("", full)
  }

  /** The `call_info`/`put_info` record built from a row. */
  function InfoOf(r: OptionRow): OptionInfo {
    var security := SplitCode(r.code);
    OptionInfo(
      OptionBasic(security, NatToString(r.stockId.GetOr(0)), r.name),
      OptionEx(TypeCode(r.optionType), SplitCode(r.owner), r.strikeTime, r.strikePrice, security.market))
  }

  function TimeOf(r: OptionRow): string { r.strikeTime }
  function PriceOf(r: OptionRow): real { r.strikePrice }

  /** The rows of one expiry date, in their original order. */
  function AtTime(rows: seq<OptionRow>, t: string): seq<OptionRow>
    decreases |rows|
  {
    if |rows| == 0 then []
    else AtTime(rows[..|rows| - 1], t) + (if rows[|rows| - 1].strikeTime == t then [rows[|rows| - 1]] else [])
  }

  /** The date group holds exactly the rows of that date. */
  lemma {:induction false} AtTimeMembers(rows: seq<OptionRow>, t: string)
    ensures forall r | r in AtTime(rows, t) :: r in rows && r.strikeTime == t
    ensures forall r | r in rows && r.strikeTime == t :: r in AtTime(rows, t)
    decreases |rows|
  {
    if |rows| > 0 {
      var init := rows[..|rows| - 1];
      AtTimeMembers(init, t);
      assert rows == init + [rows[|rows| - 1]];
    }
  }

  /** The rows of one strike price, in their original order. */
  function AtPrice(rows: seq<OptionRow>, p: real): seq<OptionRow>
    decreases |rows|
  {
    if |rows| == 0 then []
    else AtPrice(rows[..|rows| - 1], p) + (if rows[|rows| - 1].strikePrice == p then [rows[|rows| - 1]] else [])
  }

  /** The price group holds exactly the rows of that price. */
  lemma {:induction false} AtPriceMembers(rows: seq<OptionRow>, p: real)
    ensures forall r | r in AtPrice(rows, p) :: r in rows && r.strikePrice == p
    ensures forall r | r in rows && r.strikePrice == p :: r in AtPrice(rows, p)
    decreases |rows|
  {
    if |rows| > 0 {
      var init := rows[..|rows| - 1];
      AtPriceMembers(init, p);
      assert rows == init + [rows[|rows| - 1]];
    }
  }

  /** The record of the last row of the given type: later rows overwrite earlier ones. */
  function LastOfType(group: seq<OptionRow>, t: string): Option<OptionInfo>
    decreases |group|
  {
    if |group| == 0 then None
    else if group[|group| - 1].optionType == t then Some(InfoOf(group[|group| - 1]))
    else LastOfType(group[..|group| - 1], t)
  }

  function PairOf(group: seq<OptionRow>): OptionPair {
    OptionPair(LastOfType(group, Call), LastOfType(group, Put))
  }

  function Times(rows: seq<OptionRow>): seq<string> {
    Keys(rows, TimeOf, StrLt)
  }

  function Prices(group: seq<OptionRow>): seq<real> {
    Keys(group, PriceOf, RealLt)
  }

  /** The chain of one expiry date: one pair per distinct price, in ascending order of price. */
  function ChainAt(rows: seq<OptionRow>, t: string): StrikeChain {
    var group := AtTime(rows, t);
    StrikeChain(t, PairsOf(group, Prices(group)))
  }

  /** One pair per price, in the order of the prices. */
  function PairsOf(group: seq<OptionRow>, prices: seq<real>): (r: seq<OptionPair>)
    ensures |r| == |prices| && forall k | 0 <= k < |prices| :: r[k] == PairOf(AtPrice(group, prices[k]))
  {
    seq(|prices|, k requires 0 <= k < |prices| => PairOf(AtPrice(group, prices[k])))
  }

  /** The whole chain: one entry per distinct expiry date, in ascending order of date. */
  function ChainsOf(rows: seq<OptionRow>): (r: seq<StrikeChain>)
    ensures |r| == |Times(rows)| && forall k | 0 <= k < |r| :: r[k] == ChainAt(rows, Times(rows)[k])
  {
    var times := Times(rows);
    seq(|times|, k requires 0 <= k < |times| => ChainAt(rows, times[k]))
  }

  /** The innermost loop: walk a price group, keeping the latest call and the latest put. */
  method PickPair(group: seq<OptionRow>) returns (pair: OptionPair)
    ensures pair == PairOf(group)
  {
    var call: Option<OptionInfo> := None;
    var put: Option<OptionInfo> := None;
    var k := 0;
    while k < |group|
      invariant 0 <= k <= |group|
      invariant call == LastOfType(group[..k], Call) && put == LastOfType(group[..k], Put)
    {
      assert group[..k + 1][..k] == group[..k];
      var r := group[k];
      if r.optionType == Call {
        call := Some(InfoOf(r));
      } else if r.optionType == Put {
        put := Some(InfoOf(r));
      }
      k := k + 1;
    }
    assert group[..|group|] == group;
    pair := OptionPair(call, put);
  }

  /** The loop over the price groups of one expiry date. */
  method BuildChainAt(rows: seq<OptionRow>, t: string) returns (chain: StrikeChain)
    ensures chain == ChainAt(rows, t)
  {
    var group := AtTime(rows, t);
    var prices := Prices(group);
    ghost var all := PairsOf(group, prices);
    var options: seq<OptionPair> := [];
    var j := 0;
    while j < |prices|
      invariant 0 <= j <= |prices|
      invariant options == all[..j]
    {
      var pair := PickPair(AtPrice(group, prices[j]));
      assert pair == all[j];
      options := options + [pair];
      j := j + 1;
    }
    assert all[..j] == all;
    chain := StrikeChain(t, options);
  }

  /** The loop over the expiry dates. */
  method BuildOptionChain(rows: seq<OptionRow>) returns (chains: seq<StrikeChain>)
    ensures chains == ChainsOf(rows)
  {
    var times := Times(rows);
    ghost var all := ChainsOf(rows);
    chains := [];
    var i := 0;
    while i < |times|
      invariant 0 <= i <= |times|
      invariant chains == all[..i]
    {
      var chain := BuildChainAt(rows, times[i]);
      assert chain == all[i];
      chains := chains + [chain];
      i := i + 1;
    }
    assert all[..i] == all;
  }

  // ---------------------------------------------------------------------------
  // Properties of the grouping
  // ---------------------------------------------------------------------------

  /** A record of a type exists exactly when a row of that type does. */
  lemma {:induction false} LastOfTypeNone(group: seq<OptionRow>, t: string)
    ensures LastOfType(group, t).None? <==> forall i | 0 <= i < |group| :: group[i].optionType != t
    decreases |group|
  {
    if |group| > 0 {
      var init := group[..|group| - 1];
      LastOfTypeNone(init, t);
      assert forall i | 0 <= i < |init| :: group[i] == init[i];
    }
  }

  /** The last row of a type wins: the record is built from a row of that type with none of that type after it. */
  lemma {:induction false} LastOfTypeIsLast(group: seq<OptionRow>, t: string)
    requires LastOfType(group, t).Some?
    ensures exists i | 0 <= i < |group| :: IsLastOfType(group, t, i) && LastOfType(group, t).value == InfoOf(group[i])
    decreases |group|
  {
    var n := |group| - 1;
    if group[n].optionType == t {
      assert IsLastOfType(group, t, n);
    } else {
      var init := group[..n];
      LastOfTypeIsLast(init, t);
      var i :| 0 <= i < |init| && IsLastOfType(init, t, i) && LastOfType(init, t).value == InfoOf(init[i]);
      assert group[i] == init[i];
      forall j | i < j < |group|
        ensures group[j].optionType != t
      {
        if j < n { assert group[j] == init[j]; }
      }
      assert IsLastOfType(group, t, i);
    }
  }

  /** Row `i` has type `t` and no later row does. */
  predicate IsLastOfType(group: seq<OptionRow>, t: string, i: int)
    requires 0 <= i < |group|
  {
    group[i].optionType == t && forall j | i < j < |group| :: group[j].optionType != t
  }

  /** The expiry dates of the rows. */
  function RowDates(rows: seq<OptionRow>): set<string> {
    set r | r in rows :: r.strikeTime
  }

  /** The dates of the chain's entries. */
  function ChainDatesOf(chains: seq<StrikeChain>): set<string> {
    set i | 0 <= i < |chains| :: chains[i].strikeTime
  }

  /**
   * The dates of the chain are ascending and distinct, and they are exactly
   * the dates some row expires on.
   */
  lemma ChainDates(rows: seq<OptionRow>)
    ensures var chains := ChainsOf(rows);
      forall i, j | 0 <= i < j < |chains| :: StrLt(chains[i].strikeTime, chains[j].strikeTime)
    ensures ChainDatesOf(ChainsOf(rows)) == RowDates(rows)
  {
    StrLtStrictTotal();
    KeysFacts(rows, TimeOf, StrLt);
    var chains := ChainsOf(rows);
    var times := Times(rows);
    var dates := ChainDatesOf(chains);
    forall r | r in rows
      ensures r.strikeTime in dates
    {
      var k :| 0 <= k < |rows| && rows[k] == r;
      assert TimeOf(rows[k]) == r.strikeTime;
      assert r.strikeTime in times;
      var i :| 0 <= i < |times| && times[i] == r.strikeTime;
      assert chains[i].strikeTime == r.strikeTime;
    }
    forall i | 0 <= i < |chains|
      ensures chains[i].strikeTime in RowDates(rows)
    {
      assert times[i] in times;
      var k :| 0 <= k < |rows| && TimeOf(rows[k]) == times[i];
      assert rows[k] in rows;
    }
  }

  /**
   * Within one date the prices are ascending and distinct, there is one pair
   * per price that some row of that date has, and each pair's call (put) is
   * present exactly when a CALL (PUT) row has that date and price.
   */
  lemma ChainPairs(rows: seq<OptionRow>, t: string)
    ensures var group := AtTime(rows, t);
      var prices := Prices(group);
      && (forall i, j | 0 <= i < j < |prices| :: prices[i] < prices[j])
      && (forall p :: p in prices <==> exists r | r in rows :: r.strikeTime == t && r.strikePrice == p)
    ensures var chain := ChainAt(rows, t);
      var prices := Prices(AtTime(rows, t));
      forall k | 0 <= k < |chain.options| ::
        && (chain.options[k].call.Some? <==> exists r | r in rows :: r.strikeTime == t && r.strikePrice == prices[k] && r.optionType == Call)
        && (chain.options[k].put.Some? <==> exists r | r in rows :: r.strikeTime == t && r.strikePrice == prices[k] && r.optionType == Put)
  {
    var group := AtTime(rows, t);
    var prices := Prices(group);
    AtTimeMembers(rows, t);
    RealLtStrictTotal();
    KeysFacts(group, PriceOf, RealLt);
    forall p
      ensures p in prices <==> exists r | r in rows :: r.strikeTime == t && r.strikePrice == p
    {
      if p in prices {
        var k :| 0 <= k < |group| && PriceOf(group[k]) == p;
        assert group[k] in group;
      }
      if exists r | r in rows :: r.strikeTime == t && r.strikePrice == p {
        var r :| r in rows && r.strikeTime == t && r.strikePrice == p;
        var k :| 0 <= k < |group| && group[k] == r;
        assert PriceOf(group[k]) == p;
      }
    }
    var chain := ChainAt(rows, t);
    forall k | 0 <= k < |chain.options|
      ensures chain.options[k].call.Some? <==> exists r | r in rows :: r.strikeTime == t && r.strikePrice == prices[k] && r.optionType == Call
      ensures chain.options[k].put.Some? <==> exists r | r in rows :: r.strikeTime == t && r.strikePrice == prices[k] && r.optionType == Put
    {
      var g := AtPrice(group, prices[k]);
      LastOfTypeNone(g, Call);
      LastOfTypeNone(g, Put);
      PresentIff(rows, t, prices[k], Call);
      PresentIff(rows, t, prices[k], Put);
    }
  }

  lemma PresentIff(rows: seq<OptionRow>, t: string, p: real, ty: string)
    ensures var g := AtPrice(AtTime(rows, t), p);
      (exists i | 0 <= i < |g| :: g[i].optionType == ty) <==> exists r | r in rows :: r.strikeTime == t && r.strikePrice == p && r.optionType == ty
  {
    var g := AtPrice(AtTime(rows, t), p);
    if exists r | r in rows :: r.strikeTime == t && r.strikePrice == p && r.optionType == ty {
      var r :| r in rows && r.strikeTime == t && r.strikePrice == p && r.optionType == ty;
      GroupMember(rows, t, p, r);
      PresentAt(g, r, ty);
    }
    if exists i | 0 <= i < |g| :: g[i].optionType == ty {
      var i :| 0 <= i < |g| && g[i].optionType == ty;
      assert g[i] in g;
      GroupMember(rows, t, p, g[i]);
    }
  }

  /** A row is in the group of a date and a price exactly when it carries both. */
  lemma GroupMember(rows: seq<OptionRow>, t: string, p: real, r: OptionRow)
    ensures r in AtPrice(AtTime(rows, t), p) <==> r in rows && r.strikeTime == t && r.strikePrice == p
  {
    AtTimeMembers(rows, t);
    AtPriceMembers(AtTime(rows, t), p);
  }

  lemma PresentAt(g: seq<OptionRow>, r: OptionRow, ty: string)
    requires r in g && r.optionType == ty
    ensures exists i | 0 <= i < |g| :: g[i].optionType == ty
  {
    var i :| 0 <= i < |g| && g[i] == r;
  }

  /** A pair's records carry the date and price of the group they were picked from. */
  lemma PairCarriesGroupKeys(rows: seq<OptionRow>, t: string, p: real, ty: string)
    requires LastOfType(AtPrice(AtTime(rows, t), p), ty).Some?
    ensures var info := LastOfType(AtPrice(AtTime(rows, t), p), ty).value;
      info.ex.strikeTime == t && info.ex.strikePrice == p && info.ex.typeCode == TypeCode(ty)
  {
    var g := AtPrice(AtTime(rows, t), p);
    AtTimeMembers(rows, t);
    AtPriceMembers(AtTime(rows, t), p);
    LastOfTypeIsLast(g, ty);
    var i :| 0 <= i < |g| && IsLastOfType(g, ty, i) && LastOfType(g, ty).value == InfoOf(g[i]);
    assert g[i] in g;
    assert g[i] in AtTime(rows, t);
  }

  // ---------------------------------------------------------------------------
  // The endpoint
  // ---------------------------------------------------------------------------

  const OnlyHongKong: string := "当前仅支持港股市场的期权链数据"
  const NotSupported: string := "暂不支持该股票的期权链数据"
  const NoOptions: string := "暂无期权链数据"

  /** HTTP 500, HTTP 400, an empty chain with a message, or the chain. */
  datatype ChainResponse = Unavailable | BadFormat | NoChain(message: string) | ChainList(chains: seq<StrikeChain>)

  /**
   * `get_option_chain_data(symbol)`: `connected` says whether the provider
   * connection exists, `fetch` answers a request code with the rows or None
   * when the provider reports an error.
   */
  function GetOptionChainData(connected: bool, symbol: string, fetch: string -> Option<seq<OptionRow>>): ChainResponse {
    if !connected then Unavailable
    else
      var parts := Split(symbol, '.');
      if |parts| != 2 then BadFormat
      else
        var market := Upper(parts[1]);
        if market != "HK" then NoChain(OnlyHongKong)
        else
          match fetch(market + "." + parts[0])
          case None => NoChain(NotSupported)
          case Some(rows) => if |rows| == 0 then NoChain(NoOptions) else ChainList(ChainsOf(rows))
  }

  /** A chain is returned only for a Hong Kong symbol with one dot and a non-empty answer, and then it has at least one date. */
  lemma ChainListOnlyForHongKong(connected: bool, symbol: string, fetch: string -> Option<seq<OptionRow>>)
    ensures var r := GetOptionChainData(connected, symbol, fetch);
      r.ChainList? ==> connected && |Split(symbol, '.')| == 2 && Upper(Split(symbol, '.')[1]) == "HK" && |r.chains| >= 1
    ensures var r := GetOptionChainData(connected, symbol, fetch);
      connected && |Split(symbol, '.')| == 2 && Upper(Split(symbol, '.')[1]) != "HK" ==> r == NoChain(OnlyHongKong)
  {
    var r := GetOptionChainData(connected, symbol, fetch);
    if r.ChainList? {
      var parts := Split(symbol, '.');
      var rows := fetch(Upper(parts[1]) + "." + parts[0]).value;
      StrLtStrictTotal();
      KeysFacts(rows, TimeOf, StrLt);
      assert TimeOf(rows[0]) in Times(rows);
    }
  }
}
