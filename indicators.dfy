/**
 * The indicator columns that both K-line providers' paths add to the bars:
 * exponential moving averages with `adjust=False`, DIF/DEA/MACD built from
 * them, and RSI over a 14-bar window. Prices are exact reals.
 */
module Indicators {
  import opened Wrappers
  import Text

  // ---------------------------------------------------------------------------
  // Exponential moving averages
  // ---------------------------------------------------------------------------

  /** The weight `ewm(span=n)` gives the newest value: 2 / (n + 1). */
  function Alpha(span: nat): (a: real)
    requires span >= 1
    ensures 0.0 < a <= 1.0
  {
    2.0 / (span as real + 1.0)
  }

  /**
   * `series.ewm(alpha=a, adjust=False).mean()`: the first value itself, then
   * `a * x[t] + (1 - a) * previous average`.
   */
  function Ewm(xs: seq<real>, a: real): (r: seq<real>)
    ensures |r| == |xs|
    decreases |xs|
  {
    if |xs| == 0 then []
    else if |xs| == 1 then [xs[0]]
    else
      var prev := Ewm(xs[..|xs| - 1], a);
      prev + [a * xs[|xs| - 1] + (1.0 - a) * prev[|xs| - 2]]
  }

  /** The average at bar `t` depends only on bars up to `t`. */
  lemma {:induction false} EwmPrefix(xs: seq<real>, a: real, k: nat)
    requires k <= |xs|
    ensures Ewm(xs[..k], a) == Ewm(xs, a)[..k]
    decreases |xs|
  {
    if k < |xs| {
      var init := xs[..|xs| - 1];
      EwmPrefix(init, a, k);
      assert init[..k] == xs[..k];
    } else {
      assert xs[..k] == xs;
    }
  }

  /** The recurrence: seeded with the first value, then one step per bar. */
  lemma EwmRecurrence(xs: seq<real>, a: real, t: nat)
    requires t < |xs|
    ensures t == 0 ==> Ewm(xs, a)[0] == xs[0]
    ensures t > 0 ==> Ewm(xs, a)[t] == a * xs[t] + (1.0 - a) * Ewm(xs, a)[t - 1]
  {
    EwmPrefix(xs, a, t + 1);
    var p := xs[..t + 1];
    assert p[..|p| - 1] == xs[..t];
    if t > 0 {
      EwmPrefix(xs, a, t);
      assert Ewm(xs, a)[t - 1] == Ewm(xs[..t], a)[t - 1];
    }
  }

  /** A weighted mean of two values in `[lo, hi]` stays in `[lo, hi]`. */
  lemma ConvexStep(a: real, x: real, p: real, lo: real, hi: real)
    requires 0.0 <= a <= 1.0 && lo <= x <= hi && lo <= p <= hi
    ensures lo <= a * x + (1.0 - a) * p <= hi
  {
    Text.MulNonneg(a, x - lo);
    Text.MulNonneg(1.0 - a, p - lo);
    Text.MulNonneg(a, hi - x);
    Text.MulNonneg(1.0 - a, hi - p);
  }

  /** When every value lies in `[lo, hi]`, so does every average. */
  lemma {:induction false} EwmBetween(xs: seq<real>, a: real, lo: real, hi: real)
    requires 0.0 <= a <= 1.0
    requires forall i | 0 <= i < |xs| :: lo <= xs[i] <= hi
    ensures forall t | 0 <= t < |xs| :: lo <= Ewm(xs, a)[t] <= hi
    decreases |xs|
  {
    if |xs| > 1 {
      var init := xs[..|xs| - 1];
      EwmBetween(init, a, lo, hi);
      var prev := Ewm(init, a);
      ConvexStep(a, xs[|xs| - 1], prev[|xs| - 2], lo, hi);
      forall t | 0 <= t < |xs| ensures lo <= Ewm(xs, a)[t] <= hi {
        if t < |xs| - 1 { assert Ewm(xs, a)[t] == prev[t]; }
      }
    }
  }

  lemma {:induction false} EwmConstantAt(xs: seq<real>, c: real, a: real, t: nat)
    requires t < |xs| && forall i | 0 <= i < |xs| :: xs[i] == c
    ensures Ewm(xs, a)[t] == c
    decreases t
  {
    EwmRecurrence(xs, a, t);
    if t > 0 {
      EwmConstantAt(xs, c, a, t - 1);
      assert a * c + (1.0 - a) * c == c;
    }
  }

  /** Averaging a constant series gives the constant. */
  lemma EwmConstant(n: nat, c: real, a: real)
    ensures Ewm(seq(n, _ => c), a) == seq(n, _ => c)
  {
    var xs := seq(n, _ => c);
    forall t | 0 <= t < n ensures Ewm(xs, a)[t] == c {
      EwmConstantAt(xs, c, a, t);
    }
  }

  // ---------------------------------------------------------------------------
  // The indicator columns
  // ---------------------------------------------------------------------------

  /** `close.ewm(span=n, adjust=False).mean()`. */
  function Ema(closes: seq<real>, span: nat): (r: seq<real>)
    requires span >= 1
    ensures |r| == |closes|
  {
    Ewm(closes, Alpha(span))
  }

  /** DIF = EMA12 - EMA26. */
  function Dif(closes: seq<real>): (r: seq<real>)
    ensures |r| == |closes|
  {
    var e12, e26 := Ema(closes, 12), Ema(closes, 26);
    seq(|closes|, i requires 0 <= i < |closes| => e12[i] - e26[i])
  }

  /** DEA = DIF.ewm(span=9, adjust=False).mean(). */
  function Dea(closes: seq<real>): (r: seq<real>)
    ensures |r| == |closes|
  {
    Ewm(Dif(closes), Alpha(9))
  }

  /** MACD = 2 * (DIF - DEA). */
  function Macd(closes: seq<real>): (r: seq<real>)
    ensures |r| == |closes|
  {
    var dif, dea := Dif(closes), Dea(closes);
    seq(|closes|, i requires 0 <= i < |closes| => 2.0 * (dif[i] - dea[i]))
  }

  function Min(s: seq<real>): real
    requires |s| > 0
    decreases |s|
  {
    if |s| == 1 then s[0] else var m := Min(s[1..]); if s[0] < m then s[0] else m
  }

  function Max(s: seq<real>): real
    requires |s| > 0
    decreases |s|
  {
    if |s| == 1 then s[0] else var m := Max(s[1..]); if s[0] > m then s[0] else m
  }

  lemma {:induction false} MinMaxBound(s: seq<real>)
    requires |s| > 0
    ensures forall i | 0 <= i < |s| :: Min(s) <= s[i] <= Max(s)
    decreases |s|
  {
    if |s| > 1 {
      MinMaxBound(s[1..]);
      assert forall i | 1 <= i < |s| :: s[i] == s[1..][i - 1];
    }
  }

  /** Every EMA lies between the lowest and the highest close seen so far. */
  lemma EmaWithinSeenRange(closes: seq<real>, span: nat, t: nat)
    requires span >= 1 && t < |closes|
    ensures Min(closes[..t + 1]) <= Ema(closes, span)[t] <= Max(closes[..t + 1])
  {
    var seen := closes[..t + 1];
    MinMaxBound(seen);
    EwmBetween(seen, Alpha(span), Min(seen), Max(seen));
    EwmPrefix(closes, Alpha(span), t + 1);
  }

  /** A flat close series: every EMA is the close, and DIF, DEA and MACD are zero. */
  lemma FlatSeries(n: nat, c: real, span: nat)
    requires span >= 1
    ensures Ema(seq(n, _ => c), span) == seq(n, _ => c)
    ensures Dif(seq(n, _ => c)) == seq(n, _ => 0.0)
    ensures Dea(seq(n, _ => c)) == seq(n, _ => 0.0)
    ensures Macd(seq(n, _ => c)) == seq(n, _ => 0.0)
  {
    var closes := seq(n, _ => c);
    EwmConstant(n, c, Alpha(span));
    EwmConstant(n, c, Alpha(12));
    EwmConstant(n, c, Alpha(26));
    assert Dif(closes) == seq(n, _ => 0.0);
    EwmConstant(n, 0.0, Alpha(9));
  }

  // ---------------------------------------------------------------------------
  // RSI
  // ---------------------------------------------------------------------------

  /** The number of bars in the RSI window. */
  const RsiWindow: nat := 14

  /** `close.diff()` with the missing first difference read as zero by `where`. */
  function Delta(closes: seq<real>, i: nat): real
    requires i < |closes|
  {
    if i == 0 then 0.0 else closes[i] - closes[i - 1]
  }

  /** `delta.where(delta > 0, 0)`. */
  function Gains(closes: seq<real>): (r: seq<real>)
    ensures |r| == |closes|
  {
    seq(|closes|, i requires 0 <= i < |closes| => if Delta(closes, i) > 0.0 then Delta(closes, i) else 0.0)
  }

  /** `-delta.where(delta < 0, 0)`. */
  function Losses(closes: seq<real>): (r: seq<real>)
    ensures |r| == |closes|
  {
    seq(|closes|, i requires 0 <= i < |closes| => if Delta(closes, i) < 0.0 then -Delta(closes, i) else 0.0)
  }

  function Sum(s: seq<real>): real
    decreases |s|
  {
    if |s| == 0 then 0.0 else s[0] + Sum(s[1..])
  }

  lemma {:induction false} SumNonneg(s: seq<real>)
    requires forall i | 0 <= i < |s| :: s[i] >= 0.0
    ensures Sum(s) >= 0.0
    decreases |s|
  {
    if |s| > 0 {
      assert forall i | 0 <= i < |s| - 1 :: s[1..][i] == s[i + 1];
      SumNonneg(s[1..]);
    }
  }

  lemma {:induction false} SumZero(s: seq<real>)
    requires forall i | 0 <= i < |s| :: s[i] == 0.0
    ensures Sum(s) == 0.0
    decreases |s|
  {
    if |s| > 0 {
      assert forall i | 0 <= i < |s| - 1 :: s[1..][i] == s[i + 1];
      SumZero(s[1..]);
    }
  }

  /** `rolling(window=14).mean()` at bar `t >= 13`. */
  function WindowMean(s: seq<real>, t: nat): real
    requires RsiWindow - 1 <= t < |s|
  {
    Sum(s[t + 1 - RsiWindow..t + 1]) / RsiWindow as real
  }

  /**
   * `100 - 100 / (1 + gain / loss)` at bar `t`. None where pandas has NaN:
   * before the window fills and where gain and loss are both zero (0/0); a
   * zero loss with a positive gain makes `rs` infinite and RSI 100.
   */
  function RsiAt(closes: seq<real>, t: nat): Option<real>
    requires t < |closes|
  {
    if t < RsiWindow - 1 then None
    else
      var gain, loss := WindowMean(Gains(closes), t), WindowMean(Losses(closes), t);
      WindowMeansNonneg(closes, t);
      if loss == 0.0 then (if gain == 0.0 then None else Some(100.0))
      else Some(100.0 - 100.0 / (1.0 + gain / loss))
  }

  function Rsi(closes: seq<real>): (r: seq<Option<real>>)
    ensures |r| == |closes|
  {
    seq(|closes|, t requires 0 <= t < |closes| => RsiAt(closes, t))
  }

  lemma WindowMeansNonneg(closes: seq<real>, t: nat)
    requires RsiWindow - 1 <= t < |closes|
    ensures WindowMean(Gains(closes), t) >= 0.0 && WindowMean(Losses(closes), t) >= 0.0
  {
    var g, l := Gains(closes), Losses(closes);
    SumNonneg(g[t + 1 - RsiWindow..t + 1]);
    SumNonneg(l[t + 1 - RsiWindow..t + 1]);
  }

  /**
   * RSI is missing for the first 13 bars; when present it lies in [0, 100] and
   * equals the share of the window's gains in its gains plus losses.
   */
  lemma RsiFacts(closes: seq<real>, t: nat)
    requires t < |closes|
    ensures t < RsiWindow - 1 ==> RsiAt(closes, t).None?
    ensures RsiAt(closes, t).Some? ==> 0.0 <= RsiAt(closes, t).value <= 100.0
    ensures RsiAt(closes, t).Some? ==>
      var gain, loss := WindowMean(Gains(closes), t), WindowMean(Losses(closes), t);
      RsiAt(closes, t).value * (gain + loss) == 100.0 * gain
  {
    if t >= RsiWindow - 1 {
      WindowMeansNonneg(closes, t);
      var gain, loss := WindowMean(Gains(closes), t), WindowMean(Losses(closes), t);
      if loss != 0.0 {
        var d := 1.0 + gain / loss;
        assert d * loss == loss + gain;
        assert (gain + loss) / d == loss;
        assert 100.0 / d <= 100.0;
        var v := 100.0 - 100.0 / d;
        assert v * (gain + loss) == 100.0 * (gain + loss) - 100.0 * ((gain + loss) / d);
      }
    }
  }

  /** RSI is missing exactly when the window holds neither a gain nor a loss; it is 100 with gains only. */
  lemma RsiMissingOrFull(closes: seq<real>, t: nat)
    requires RsiWindow - 1 <= t < |closes|
    ensures var gain, loss := WindowMean(Gains(closes), t), WindowMean(Losses(closes), t);
      && (RsiAt(closes, t).None? <==> gain == 0.0 && loss == 0.0)
      && (loss == 0.0 && gain > 0.0 ==> RsiAt(closes, t) == Some(100.0))
  {
  }

  /** A flat close series has no RSI at any bar. */
  lemma FlatSeriesRsi(n: nat, c: real, t: nat)
    requires t < n
    ensures RsiAt(seq(n, _ => c), t).None?
  {
    var closes := seq(n, _ => c);
    if t >= RsiWindow - 1 {
      var g, l := Gains(closes), Losses(closes);
      assert forall i | 0 <= i < n :: Delta(closes, i) == 0.0;
      SumZero(g[t + 1 - RsiWindow..t + 1]);
      SumZero(l[t + 1 - RsiWindow..t + 1]);
    }
  }
}
