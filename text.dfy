/**
 * Text as the analyzers write it and the scorers read it back: phrase lists
 * joined with a separator, Python's `pat in text` substring test, the decimal
 * text of amounts and ratios, and the pieces of `str.split` and `float(...)`
 * that the scoring code uses to pull a number back out of a sentence.
 */
module Text {
  import opened Wrappers

  /** The full-width semicolon that every analyzer puts between its phrases. */
  const Sep: string := "；"

  // ---------------------------------------------------------------------------
  // Joining phrases and looking for a phrase
  // ---------------------------------------------------------------------------

  /** Python's `sep.join(parts)`. */
  function Join(parts: seq<string>, sep: string): string
    decreases |parts|
  {
    if |parts| == 0 then ""
    else if |parts| == 1 then parts[0]
    else parts[0] + sep + Join(parts[1..], sep)
  }

  /** `pat` starts at position `i` of `text`. */
  predicate OccursAt(text: string, pat: string, i: int) {
    0 <= i <= |text| - |pat| && text[i..i + |pat|] == pat
  }

  /** Python's `pat in text`. */
  predicate Contains(text: string, pat: string) {
    exists i | 0 <= i <= |text| - |pat| :: OccursAt(text, pat, i)
  }

  lemma ContainsWithin(x: string, a: string, y: string, pat: string)
    requires Contains(a, pat)
    ensures Contains(x + a + y, pat)
  {
    var i :| 0 <= i <= |a| - |pat| && OccursAt(a, pat, i);
    assert (x + a + y)[|x| + i .. |x| + i + |pat|] == a[i..i + |pat|];
    assert OccursAt(x + a + y, pat, |x| + i);
  }

  /** A phrase found at the head of a text is found in the whole text. */
  lemma ContainsPrefix(a: string, y: string, pat: string)
    requires Contains(a, pat)
    ensures Contains(a + y, pat)
  {
    ContainsWithin("", a, y, pat);
    assert "" + a + y == a + y;
  }

  /** A pattern holding a character that the text lacks does not occur in it. */
  lemma AbsentChar(text: string, pat: string, c: char)
    requires c in pat && c !in text
    ensures !Contains(text, pat)
  {
    forall i | 0 <= i <= |text| - |pat|
      ensures !OccursAt(text, pat, i)
    {
      var j :| 0 <= j < |pat| && pat[j] == c;
      assert text[i + j] == text[i..i + |pat|][j];
    }
  }

  /** A phrase found in one of the joined parts is found in the joined text. */
  lemma {:induction false} JoinContains(parts: seq<string>, sep: string, k: nat, pat: string)
    requires k < |parts| && Contains(parts[k], pat)
    ensures Contains(Join(parts, sep), pat)
    decreases |parts|
  {
    if |parts| == 1 {
    } else if k == 0 {
      ContainsWithin("", parts[0], sep + Join(parts[1..], sep), pat);
      assert "" + parts[0] + (sep + Join(parts[1..], sep)) == Join(parts, sep);
    } else {
      assert parts[1..][k - 1] == parts[k];
      JoinContains(parts[1..], sep, k - 1, pat);
      ContainsWithin(parts[0] + sep, Join(parts[1..], sep), "", pat);
      assert parts[0] + sep + Join(parts[1..], sep) + "" == Join(parts, sep);
    }
  }

  /** Joining introduces no character that neither the parts nor the separator hold. */
  lemma {:induction false} JoinLacks(parts: seq<string>, sep: string, c: char)
    requires c !in sep
    requires forall k | 0 <= k < |parts| :: c !in parts[k]
    ensures c !in Join(parts, sep)
    decreases |parts|
  {
    if |parts| > 1 {
      forall k | 0 <= k < |parts| - 1
        ensures c !in parts[1..][k]
      {
        assert parts[1..][k] == parts[k + 1];
      }
      JoinLacks(parts[1..], sep, c);
    }
  }

  /** The joined text misses a pattern that holds a character found in no part. */
  lemma JoinMisses(parts: seq<string>, sep: string, pat: string, c: char)
    requires c in pat && c !in sep
    requires forall k | 0 <= k < |parts| :: c !in parts[k]
    ensures !Contains(Join(parts, sep), pat)
  {
    JoinLacks(parts, sep, c);
    AbsentChar(Join(parts, sep), pat, c);
  }

  /** A join starts with the first character of its first part. */
  lemma JoinHead(parts: seq<string>, sep: string)
    requires |parts| > 0 && |parts[0]| > 0
    ensures |Join(parts, sep)| > 0 && Join(parts, sep)[0] == parts[0][0]
  {
  }

  /** The analyzers' `'；'.join(parts) if parts else fallback`. */
  function JoinOr(parts: seq<string>, fallback: string): string {
    if |parts| == 0 then fallback else Join(parts, Sep)
  }

  lemma JoinOrHas(parts: seq<string>, fallback: string, x: string, pat: string)
    requires x in parts && Contains(x, pat)
    ensures Contains(JoinOr(parts, fallback), pat)
  {
    var k :| 0 <= k < |parts| && parts[k] == x;
    JoinContains(parts, Sep, k, pat);
  }

  /**
   * Three optional phrases, each either `hit` when its condition fires or
   * otherwise a phrase without `ch` (or nothing): the joined text contains
   * `pat` exactly when some condition fires.
   */
  lemma ThreeMentions(a: seq<string>, b: seq<string>, c: seq<string>, fallback: string, pat: string, ch: char,
                      x: string, y: string, z: string, mx: string, my: string, mz: string,
                      fa: bool, fb: bool, fc: bool)
    requires ch in pat && ch !in Sep && ch !in fallback
    requires Contains(x, pat) && Contains(y, pat) && Contains(z, pat)
    requires ch !in mx && ch !in my && ch !in mz
    requires if fa then a == [x] else a == [mx] || a == []
    requires if fb then b == [y] else b == [my] || b == []
    requires if fc then c == [z] else c == [mz] || c == []
    ensures Contains(JoinOr(a + b + c, fallback), pat) <==> fa || fb || fc
  {
    var parts := a + b + c;
    if fa {
      assert x in parts;
      JoinOrHas(parts, fallback, x, pat);
    } else if fb {
      assert y in parts;
      JoinOrHas(parts, fallback, y, pat);
    } else if fc {
      assert z in parts;
      JoinOrHas(parts, fallback, z, pat);
    } else {
      JoinOrMisses(parts, fallback, pat, ch);
    }
  }

  /** Three optional phrases drawn from pairs of phrases without `ch` hold no `ch`. */
  lemma ThreeLack(a: seq<string>, b: seq<string>, c: seq<string>,
                  x1: string, y1: string, x2: string, y2: string, x3: string, y3: string, ch: char)
    requires a == [x1] || a == [y1] || a == []
    requires b == [x2] || b == [y2] || b == []
    requires c == [x3] || c == [y3] || c == []
    requires ch !in x1 && ch !in y1 && ch !in x2 && ch !in y2 && ch !in x3 && ch !in y3
    ensures forall w | w in a + b + c :: ch !in w
  {
  }

  /** Appending an optional phrase without `ch` keeps a list free of `ch`. */
  lemma AppendLacks(front: seq<string>, back: seq<string>, x: string, y: string, ch: char)
    requires forall w | w in front :: ch !in w
    requires back == [x] || back == [y] || back == []
    requires ch !in x && ch !in y
    ensures forall w | w in front + back :: ch !in w
  {
  }

  /** A pattern holding a character that no phrase, nor the fallback, holds is not found. */
  lemma JoinOrMisses(parts: seq<string>, fallback: string, pat: string, c: char)
    requires c in pat && c !in Sep && c !in fallback
    requires forall x | x in parts :: c !in x
    ensures !Contains(JoinOr(parts, fallback), pat)
  {
    if |parts| == 0 {
      AbsentChar(fallback, pat, c);
    } else {
      assert forall k | 0 <= k < |parts| :: parts[k] in parts;
      JoinMisses(parts, Sep, pat, c);
    }
  }

  /** A character in no phrase, nor the fallback, is not in the text. */
  lemma JoinOrLacks(parts: seq<string>, fallback: string, c: char)
    requires c !in Sep && c !in fallback
    requires forall x | x in parts :: c !in x
    ensures c !in JoinOr(parts, fallback)
  {
    if |parts| > 0 {
      assert forall k | 0 <= k < |parts| :: parts[k] in parts;
      JoinLacks(parts, Sep, c);
    }
  }

  /** The first position at or after `from` where `pat` occurs. */
  function FindFrom(text: string, pat: string, from: nat): (r: Option<nat>)
    ensures r.Some? ==> from <= r.value && OccursAt(text, pat, r.value)
    ensures r.Some? ==> forall j | from <= j < r.value :: !OccursAt(text, pat, j)
    ensures r.None? ==> forall j | from <= j :: !OccursAt(text, pat, j)
    decreases |text| + 1 - from
  {
    if from + |pat| > |text| then None
    else if OccursAt(text, pat, from) then Some(from)
    else FindFrom(text, pat, from + 1)
  }

  /** When the first character of `pat` is not in `p`, `pat` is first found right after `p`. */
  lemma FindAfterPrefix(p: string, pat: string, rest: string)
    requires |pat| > 0 && pat[0] !in p
    ensures FindFrom(p + pat + rest, pat, 0) == Some(|p|)
  {
    var text := p + pat + rest;
    assert text[|p|..|p| + |pat|] == pat;
    assert OccursAt(text, pat, |p|);
    forall j | 0 <= j < |p|
      ensures !OccursAt(text, pat, j)
    {
      assert text[j] == p[j] && p[j] in p;
      assert j + |pat| <= |text| ==> text[j..j + |pat|][0] == text[j];
    }
  }

  /** Python's `text.split(pat)[1]`: None where Python raises an IndexError. */
  function SplitSecond(text: string, pat: string): Option<string>
    requires |pat| > 0
  {
    match FindFrom(text, pat, 0)
    case None => None
    case Some(i) =>
      var rest := text[i + |pat|..];
      match FindFrom(rest, pat, 0)
      case None => Some(rest)
      case Some(j) => Some(rest[..j])
  }
  /** The split has a second piece exactly when the pattern occurs. */
  lemma SplitFound(text: string, pat: string)
    requires |pat| > 0
    ensures SplitSecond(text, pat).Some? <==> Contains(text, pat)
  {
    match FindFrom(text, pat, 0)
    case None =>
      assert forall j | 0 <= j :: !OccursAt(text, pat, j);
    case Some(i) =>
      assert OccursAt(text, pat, i);
  }


  /** The position of the first `c` in `s`. */
  function IndexOf(s: string, c: char): (r: nat)
    requires c in s
    ensures r < |s| && s[r] == c && c !in s[..r]
  {
    if s[0] == c then 0
    else
      var r := 1 + IndexOf(s[1..], c);
      assert s[..r] == [s[0]] + s[1..][..r - 1];
      r
  }

  lemma {:induction false} IndexOfAfter(a: string, c: char, b: string)
    requires c !in a
    ensures IndexOf(a + [c] + b, c) == |a|
    decreases |a|
  {
    if |a| > 0 {
      assert (a + [c] + b)[1..] == a[1..] + [c] + b;
      assert a[0] in a;
      assert forall k | 0 <= k < |a| - 1 :: a[1..][k] == a[k + 1];
      IndexOfAfter(a[1..], c, b);
    }
  }

  /** Python's `s.split(c)[0]`: everything before the first `c`. */
  function BeforeFirst(s: string, c: char): string {
    if c in s then s[..IndexOf(s, c)] else s
  }

  // ---------------------------------------------------------------------------
  // Decimal text of numbers
  // ---------------------------------------------------------------------------

  predicate IsDigit(c: char) {
    '0' <= c <= '9'
  }

  predicate AllDigits(s: string) {
    forall c | c in s :: IsDigit(c)
  }

  lemma AllDigitsSlice(s: string, a: nat, b: nat)
    requires AllDigits(s) && a <= b <= |s|
    ensures AllDigits(s[a..b])
  {
    forall c | c in s[a..b] ensures IsDigit(c) {
      var i :| 0 <= i < b - a && s[a..b][i] == c;
      assert s[a + i] == c;
    }
  }

  /** The characters that the decimal text of a number may hold. */
  predicate IsNumberChar(c: char) {
    IsDigit(c) || c == '.' || c == '-'
  }

  function Pow10(n: nat): (r: nat)
    ensures r >= 1
  {
    if n == 0 then 1 else 10 * Pow10(n - 1)
  }

  function DigitChar(d: nat): (c: char)
    requires d < 10
    ensures IsDigit(c)
  {
    ('0' as int + d) as char
  }

  function DigitValue(c: char): (d: nat)
    requires IsDigit(c)
    ensures d < 10
  {
    c as int - '0' as int
  }

  /** Python's `str(n)` for a non-negative integer. */
  function NatToString(n: nat): (r: string)
    ensures |r| >= 1 && AllDigits(r)
  {
    if n < 10 then [DigitChar(n)] else NatToString(n / 10) + [DigitChar(n % 10)]
  }

  /** The value of a string of decimal digits; 0 for the empty string. */
  function ParseNat(s: string): nat
    requires AllDigits(s)
  {
    if |s| == 0 then 0
    else
      assert AllDigits(s[..|s| - 1]) by {
        forall c | c in s[..|s| - 1] ensures IsDigit(c) {
          var k :| 0 <= k < |s| - 1 && s[..|s| - 1][k] == c;
          assert s[k] == c;
        }
      }
      10 * ParseNat(s[..|s| - 1]) + DigitValue(s[|s| - 1])
  }

  lemma {:induction false} ParseNatToString(n: nat)
    ensures ParseNat(NatToString(n)) == n
    decreases n
  {
    if n >= 10 {
      var s := NatToString(n);
      assert s[..|s| - 1] == NatToString(n / 10);
      ParseNatToString(n / 10);
    }
  }

  lemma {:induction false} NatToStringLength(n: nat, width: nat)
    requires width >= 1 && n < Pow10(width)
    ensures |NatToString(n)| <= width
    decreases n
  {
    if n >= 10 {
      assert width >= 2;
      NatToStringLength(n / 10, width - 1);
    }
  }

  function Zeros(k: nat): (z: string)
    ensures |z| == k && AllDigits(z)
  {
    seq(k, _ => '0')
  }

  /** `s` padded on the left with zeros to `width` characters (Python's `{:0Nd}`). */
  function PadLeft(s: string, width: nat): string {
    if |s| >= width then s else Zeros(width - |s|) + s
  }

  /** `n` written with at least `width` digits, zero-padded on the left. */
  function PadNumber(n: nat, width: nat): string {
    PadLeft(NatToString(n), width)
  }

  /** A number below `10^width` pads to exactly `width` digits that read back as the number. */
  lemma PadNumberFacts(n: nat, width: nat)
    requires width >= 1 && n < Pow10(width)
    ensures |PadNumber(n, width)| == width && AllDigits(PadNumber(n, width))
    ensures ParseNat(PadNumber(n, width)) == n
  {
    var digits := NatToString(n);
    NatToStringLength(n, width);
    ParseNatToString(n);
    assert PadNumber(n, width) == Zeros(width - |digits|) + digits;
    ParseNatLeadingZeros(width - |digits|, digits);
  }

  lemma {:induction false} ParseNatZeros(k: nat)
    ensures ParseNat(Zeros(k)) == 0
    decreases k
  {
    if k > 0 {
      assert Zeros(k)[..k - 1] == Zeros(k - 1);
      ParseNatZeros(k - 1);
    }
  }

  lemma {:induction false} ParseNatLeadingZeros(k: nat, s: string)
    requires AllDigits(s)
    ensures AllDigits(Zeros(k) + s) && ParseNat(Zeros(k) + s) == ParseNat(s)
    decreases |s|
  {
    var t := Zeros(k) + s;
    assert AllDigits(t) by {
      forall c | c in t ensures IsDigit(c) {
        var i :| 0 <= i < |t| && t[i] == c;
        if i < k { assert c in Zeros(k); } else { assert s[i - k] == c; }
      }
    }
    if |s| == 0 {
      assert t == Zeros(k);
      ParseNatZeros(k);
    } else {
      assert t[..|t| - 1] == Zeros(k) + s[..|s| - 1];
      assert AllDigits(s[..|s| - 1]) by {
        forall c | c in s[..|s| - 1] ensures IsDigit(c) {
          var i :| 0 <= i < |s| - 1 && s[..|s| - 1][i] == c;
          assert s[i] == c;
        }
      }
      ParseNatLeadingZeros(k, s[..|s| - 1]);
    }
  }

  lemma MulNonneg(x: real, y: real)
    requires x >= 0.0 && y >= 0.0
    ensures x * y >= 0.0
  {
  }

  /** `x` scaled by `10^places` and rounded half up to a whole number. */
  function Scaled(x: real, places: nat): nat
    requires x >= 0.0
  {
    MulNonneg(x, Pow10(places) as real);
    (x * Pow10(places) as real + 0.5).Floor
  }

  lemma DivModBounds(n: nat, d: nat)
    requires d >= 1
    ensures 0 <= n / d && 0 <= n % d < d && n == (n / d) * d + n % d
  {
  }

  /** Text of a non-negative `x` with `places` fraction digits, rounded half up to those places. */
  function UnsignedFixed(x: real, places: nat): string
    requires x >= 0.0
  {
    var scaled := Scaled(x, places);
    DivModBounds(scaled, Pow10(places));
    NatToString(scaled / Pow10(places))
      + (if places == 0 then "" else "." + PadLeft(NatToString(scaled % Pow10(places)), places))
  }

  lemma UnsignedFixedChars(x: real, places: nat)
    requires x >= 0.0
    ensures forall c | c in UnsignedFixed(x, places) :: IsNumberChar(c)
  {
    var scaled := Scaled(x, places);
    DivModBounds(scaled, Pow10(places));
    var w := NatToString(scaled / Pow10(places));
    var digits := NatToString(scaled % Pow10(places));
    var f := PadLeft(digits, places);
    assert AllDigits(f) by {
      if |digits| < places { ParseNatLeadingZeros(places - |digits|, digits); }
    }
    var u := UnsignedFixed(x, places);
    assert u == w + (if places == 0 then "" else "." + f);
    forall c | c in u ensures IsNumberChar(c) {
      var i :| 0 <= i < |u| && u[i] == c;
      if i < |w| { assert w[i] == c; }
      else if i > |w| { assert f[i - |w| - 1] == c; }
    }
  }

  /**
   * Python's `f'{x:.Nf}'`: the sign, then the magnitude rounded to N places.
   * Python rounds an exact tie to even on the binary value; this rounds it up.
   */
  function FormatFixed(x: real, places: nat): (r: string)
    ensures forall c | c in r :: IsNumberChar(c)
  {
    if x < 0.0 then
      UnsignedFixedChars(-x, places);
      "-" + UnsignedFixed(-x, places)
    else
      UnsignedFixedChars(x, places);
      UnsignedFixed(x, places)
  }

  /** The value that `FormatFixed(x, places)` spells: `x` rounded to `places` digits. */
  function Rounded(x: real, places: nat): real {
    if x < 0.0 then -Magnitude(-x, places) else Magnitude(x, places)
  }

  /** The non-negative `x` rounded half up to `places` digits. */
  function Magnitude(x: real, places: nat): real
    requires x >= 0.0
  {
    Scaled(x, places) as real / Pow10(places) as real
  }

  /** The value of the decimal text `whole.frac`. */
  function DecimalValue(whole: string, frac: string): real
    requires AllDigits(whole) && AllDigits(frac)
  {
    ParseNat(whole) as real + ParseNat(frac) as real / Pow10(|frac|) as real
  }

  function ParseUnsigned(s: string): Option<real> {
    if '.' in s then
      var k := IndexOf(s, '.');
      var whole := s[..k];
      var frac := s[k + 1..];
      if |whole| + |frac| > 0 && AllDigits(whole) && AllDigits(frac)
      then Some(DecimalValue(whole, frac))
      else None
    else if |s| > 0 && AllDigits(s) then Some(ParseNat(s) as real)
    else None
  }

  /** Python's `float(s)` on plain decimal text: an optional '-', digits, an optional '.' and digits. */
  function ParseDecimal(s: string): Option<real> {
    if |s| > 0 && s[0] == '-' then
      match ParseUnsigned(s[1..])
      case Some(v) => Some(-v)
      case None => None
    else ParseUnsigned(s)
  }

  lemma DivModReal(n: nat, d: nat)
    requires d >= 1
    ensures (n / d) as real + (n % d) as real / d as real == n as real / d as real
  {
    var q, r := n / d, n % d;
    DivModBounds(n, d);
    assert n as real == q as real * d as real + r as real;
  }

  /** Reading back whole digits, a point and zero-padded fraction digits. */
  lemma ParseFixedText(q: nat, r: nat, places: nat)
    requires places >= 1 && r < Pow10(places)
    ensures var f := PadLeft(NatToString(r), places);
      && AllDigits(f) && |f| == places && ParseNat(f) == r
      && ParseUnsigned(NatToString(q) + "." + f) == Some(DecimalValue(NatToString(q), f))
  {
    PaddedDigits(r, places);
    ParseDotted(NatToString(q), PadLeft(NatToString(r), places));
  }

  /** Zero-padding the digits of `r` to `places` keeps their value. */
  lemma PaddedDigits(r: nat, places: nat)
    requires places >= 1 && r < Pow10(places)
    ensures var f := PadLeft(NatToString(r), places);
      AllDigits(f) && |f| == places && ParseNat(f) == r
  {
    var digits := NatToString(r);
    NatToStringLength(r, places);
    assert PadLeft(digits, places) == Zeros(places - |digits|) + digits;
    ParseNatLeadingZeros(places - |digits|, digits);
    ParseNatToString(r);
  }

  /** Digits, a point and digits read back as their decimal value. */
  lemma ParseDotted(w: string, f: string)
    requires |w| >= 1 && AllDigits(w) && AllDigits(f)
    ensures ParseUnsigned(w + "." + f) == Some(DecimalValue(w, f))
  {
    var s := w + "." + f;
    assert !IsDigit('.');
    IndexOfAfter(w, '.', f);
    assert s == w + ['.'] + f;
    assert s[..|w|] == w;
    assert s[|w| + 1..] == f;
  }

  lemma UnsignedRoundTrip(x: real, places: nat)
    requires x >= 0.0 && places >= 1
    ensures ParseUnsigned(UnsignedFixed(x, places)) == Some(Magnitude(x, places))
  {
    var scale := Pow10(places);
    var scaled := Scaled(x, places);
    DivModBounds(scaled, scale);
    var q, r := scaled / scale, scaled % scale;
    var w, f := NatToString(q), PadLeft(NatToString(r), places);
    assert UnsignedFixed(x, places) == w + "." + f;
    ParseFixedText(q, r, places);
    ParseNatToString(q);
    assert DecimalValue(w, f) == q as real + r as real / scale as real;
    DivModReal(scaled, scale);
  }

  /** Reading back the text of a number gives the number rounded to the printed places. */
  lemma FormatParseRoundTrip(x: real, places: nat)
    requires places >= 1
    ensures ParseDecimal(FormatFixed(x, places)) == Some(Rounded(x, places))
  {
    var y := if x < 0.0 then -x else x;
    UnsignedRoundTrip(y, places);
    UnsignedFixedUnsigned(y, places);
    SignedReadBack(x < 0.0, FormatFixed(x, places), UnsignedFixed(y, places), Magnitude(y, places), Rounded(x, places));
  }

  /**
   * Text that is `u`, with a '-' before it when `negative`, reads back as the
   * value `v` of `u`, negated when `negative`.
   */
  lemma SignedReadBack(negative: bool, t: string, u: string, v: real, r: real)
    requires |u| > 0 && u[0] != '-' && ParseUnsigned(u) == Some(v)
    requires t == (if negative then "-" + u else u) && r == (if negative then -v else v)
    ensures ParseDecimal(t) == Some(r)
  {
    if negative {
      assert t[1..] == u;
    }
  }

  /** The text of a non-negative number starts with a digit, not a '-'. */
  lemma UnsignedFixedUnsigned(x: real, places: nat)
    requires x >= 0.0
    ensures |UnsignedFixed(x, places)| > 0 && UnsignedFixed(x, places)[0] != '-'
  {
    DivModBounds(Scaled(x, places), Pow10(places));
    var w := NatToString(Scaled(x, places) / Pow10(places));
    assert UnsignedFixed(x, places)[0] == w[0];
    assert w[0] in w;
  }

  /** A sentence built around a number lacks every character that is neither in its words nor a number character. */
  lemma AmountSentenceLacks(lead: string, x: real, places: nat, tail: string, c: char)
    requires c !in lead && c !in tail && !IsNumberChar(c)
    ensures c !in lead + FormatFixed(x, places) + tail
  {
  }

  /**
   * `text.split(pat)[1].split(c)[0]` on `p + pat + a + c + b`, where `p` does
   * not hold the first character of `pat` and `a` holds neither that character
   * nor `c`: the piece read back is exactly `a`, whatever `b` holds.
   */
  lemma SplitThenBefore(p: string, pat: string, a: string, c: char, b: string)
    requires |pat| > 0 && pat[0] !in p && pat[0] !in a && pat[0] != c && c !in a
    ensures SplitSecond(p + pat + a + [c] + b, pat).Some?
    ensures BeforeFirst(SplitSecond(p + pat + a + [c] + b, pat).value, c) == a
  {
    var rest := a + [c] + b;
    assert p + pat + a + [c] + b == p + pat + rest;
    SecondPieceAfterPrefix(p, pat, rest);
    var seg := SplitSecond(p + pat + rest, pat).value;
    match FindFrom(rest, pat, 0)
    case None =>
      IndexOfAfter(a, c, b);
    case Some(j) =>
      FirstPieceKeepsHead(a, c, b, pat, j);
      IndexOfAfter(a, c, rest[|a| + 1..j]);
  }

  /** After a prefix free of the first character of `pat`, the second piece is what follows the first `pat`, up to the next. */
  lemma SecondPieceAfterPrefix(p: string, pat: string, rest: string)
    requires |pat| > 0 && pat[0] !in p
    ensures FindFrom(rest, pat, 0).None? ==> SplitSecond(p + pat + rest, pat) == Some(rest)
    ensures FindFrom(rest, pat, 0).Some? ==>
      SplitSecond(p + pat + rest, pat) == Some(rest[..FindFrom(rest, pat, 0).value])
  {
    var text := p + pat + rest;
    FindAfterPrefix(p, pat, rest);
    assert text[|p| + |pat|..] == rest;
  }

  /** The first `pat` in `a + [c] + b` lies beyond `a + [c]` when neither holds its first character. */
  lemma FirstPieceKeepsHead(a: string, c: char, b: string, pat: string, j: nat)
    requires |pat| > 0 && pat[0] !in a && pat[0] != c
    requires FindFrom(a + [c] + b, pat, 0) == Some(j)
    ensures |a| < j <= |a + [c] + b|
    ensures (a + [c] + b)[..j] == a + [c] + (a + [c] + b)[|a| + 1..j]
  {
    var rest := a + [c] + b;
    assert rest[j] == pat[0] by { assert rest[j..j + |pat|][0] == rest[j]; }
    assert forall k | 0 <= k < |a| :: rest[k] == a[k];
  }
}
