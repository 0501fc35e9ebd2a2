/**
 * Amount parsing: `parseAmount` strips every comma and reads the rest with
 * JavaScript `parseFloat`, turning a missing, empty or non-numeric token into
 * 0. Values are exact decimals (`real`), not IEEE doubles.
 */
module Amounts {
  import opened JsText

  function DigitValue(c: char): nat
    requires IsDigit(c)
  {
    c as int - '0' as int
  }

  function DigitChar(d: nat): (c: char)
    requires d < 10
    ensures IsDigit(c) && DigitValue(c) == d
  {
    ('0' as int + d) as char
  }

  function Pow10(n: nat): (r: nat)
    ensures r >= 1
  {
    if n == 0 then 1 else 10 * Pow10(n - 1)
  }

  /** The value of a string of decimal digits, most significant first ("" is 0). */
  function DigitsValue(d: string): nat
    requires AllDigits(d)
  {
    if |d| == 0 then 0 else DigitsValue(d[..|d| - 1]) * 10 + DigitValue(d[|d| - 1])
  }

  lemma {:induction false} DigitsValueBound(d: string)
    requires AllDigits(d)
    ensures DigitsValue(d) < Pow10(|d|)
  {
    if |d| > 0 {
      DigitsValueBound(d[..|d| - 1]);
    }
  }

  /** Reading digits left to right: the value of a concatenation. */
  lemma {:induction false} DigitsValueAppend(a: string, b: string)
    requires AllDigits(a) && AllDigits(b)
    ensures AllDigits(a + b)
    ensures DigitsValue(a + b) == DigitsValue(a) * Pow10(|b|) + DigitsValue(b)
  {
    if |b| > 0 {
      var b' := b[..|b| - 1];
      assert (a + b)[..|a + b| - 1] == a + b';
      DigitsValueAppend(a, b');
      assert (a + b)[|a + b| - 1] == b[|b| - 1];
      ShiftDigit(DigitsValue(a), Pow10(|b'|), DigitsValue(b'), DigitValue(b[|b| - 1]));
    } else {
      assert a + b == a;
    }
  }

  /** The length of the run of decimal digits at the head of `s`. */
  function LeadingDigits(s: string): (n: nat)
    ensures n <= |s|
    ensures AllDigits(s[..n])
    ensures n == |s| || !IsDigit(s[n])
  {
    if |s| > 0 && IsDigit(s[0]) then 1 + LeadingDigits(s[1..]) else 0
  }

  lemma {:induction false} LeadingDigitsOfDigits(a: string, b: string)
    requires AllDigits(a)
    requires b == [] || !IsDigit(b[0])
    ensures LeadingDigits(a + b) == |a|
  {
    if |a| > 0 {
      assert (a + b)[1..] == a[1..] + b;
      LeadingDigitsOfDigits(a[1..], b);
    } else {
      assert a + b == b;
    }
  }

  /** `s.replace(/,/g, '')`. */
  function RemoveCommas(s: string): (r: string)
    ensures ',' !in r
    ensures ',' !in s ==> r == s
  {
    if |s| == 0 then ""
    else
      var rest := RemoveCommas(s[1..]);
      if s[0] == ',' then rest
      else
        assert ',' !in s ==> ',' !in s[1..] && [s[0]] + s[1..] == s;
        [s[0]] + rest
  }

  /** Removing commas adds no character. */
  lemma {:induction false} RemoveCommasKeeps(s: string)
    ensures forall c :: c in RemoveCommas(s) ==> c in s
  {
    if |s| > 0 {
      RemoveCommasKeeps(s[1..]);
      assert forall c :: c in s[1..] ==> c in s;
    }
  }

  lemma {:induction false} AppendAssoc(a: string, b: string, c: string)
    ensures a + (b + c) == a + b + c
  {
  }

  lemma {:induction false} RemoveCommasAppend(a: string, b: string)
    ensures RemoveCommas(a + b) == RemoveCommas(a) + RemoveCommas(b)
  {
    if |a| > 0 {
      assert (a + b)[1..] == a[1..] + b;
      RemoveCommasAppend(a[1..], b);
    } else {
      assert a + b == b;
    }
  }

  lemma {:induction false} ShiftDigit(a: int, p: int, b: int, c: int)
    ensures (a * p + b) * 10 + c == a * (10 * p) + (b * 10 + c)
  {
  }

  /**
   * The value of a fraction's digits `f`, read after a decimal point: the
   * first digit counts tenths, the next hundredths, and so on.
   */
  function FracValue(f: string): (r: real)
    requires AllDigits(f)
    ensures 0.0 <= r < 1.0
    decreases |f|
  {
    if |f| == 0 then 0.0 else (DigitValue(f[0]) as real + FracValue(f[1..])) / 10.0
  }

  /** `m` times 10 raised to the integer power `k`, exactly. */
  function Scale(m: real, k: int): (r: real)
    ensures m >= 0.0 ==> r >= 0.0
    decreases if k >= 0 then k else -k
  {
    if k == 0 then m
    else if k > 0 then Scale(m, k - 1) * 10.0
    else Scale(m, k + 1) / 10.0
  }

  /** An exponent part `e`/`E`, optional sign, at least one digit, at index `e` of `t`. */
  function ExponentAt(t: string, e: nat): (r: Option<int>)
    requires e <= |t|
    ensures r.Some? ==> e + 2 <= |t| && (t[e] == 'e' || t[e] == 'E')
  {
    if e + 2 <= |t| && (t[e] == 'e' || t[e] == 'E') then
      var p := if t[e + 1] == '+' || t[e + 1] == '-' then e + 2 else e + 1;
      var ds := t[p..];
      var n := LeadingDigits(ds);
      if n == 0 then None
      else
        var v := DigitsValue(ds[..n]) as int;
        Some(if t[e + 1] == '-' then -v else v)
    else None
  }

  /**
   * The longest unsigned decimal literal at the head of `t`: digits, an
   * optional point with digits, an optional exponent, and at least one digit
   * in the mantissa. `None` is JavaScript `NaN`.
   */
  function UnsignedDecimalPrefix(t: string): (r: Option<real>)
    ensures r.Some? ==> r.value >= 0.0
    ensures r.Some? ==> |t| > 0 && (IsDigit(t[0]) || t[0] == '.')
  {
    var n := LeadingDigits(t);
    var hasDot := n < |t| && t[n] == '.';
    var f := if hasDot then LeadingDigits(t[n + 1..]) else 0;
    if n == 0 && f == 0 then None
    else
      var fraction := if hasDot then FracValue(t[n + 1..][..f]) else 0.0;
      var mantissa := DigitsValue(t[..n]) as real + fraction;
      match ExponentAt(t, if hasDot then n + 1 + f else n)
      case None => Some(mantissa)
      case Some(k) => Some(Scale(mantissa, k))
  }

  /**
   * `parseFloat`: leading whitespace, an optional sign, then the longest
   * decimal literal; `None` is `NaN`.
   */
  function ParseFloat(s: string): (r: Option<real>)
    ensures '-' !in s && r.Some? ==> r.value >= 0.0
  {
    var t := TrimStart(s);
    TrimStartIndex(s);
    assert forall c :: c in t ==> c in s;
    if |t| > 0 && (t[0] == '+' || t[0] == '-') then
      match UnsignedDecimalPrefix(t[1..])
      case None => None
      case Some(v) => Some(if t[0] == '-' then -v else v)
    else
      UnsignedDecimalPrefix(t)
  }

  /**
   * `parseAmount`: 0 for a missing or empty token, else `parseFloat` of the
   * token with its commas removed, with `NaN` (and 0) giving 0.
   */
  function ParseAmount(s: Option<string>): (r: real)
    ensures !Truthy(s) ==> r == 0.0
    ensures s.Some? && '-' !in s.value ==> r >= 0.0
  {
    if !Truthy(s) then 0.0
    else
      var stripped := RemoveCommas(s.value);
      RemoveCommasKeeps(s.value);
      match ParseFloat(stripped)
      case None => 0.0
      case Some(v) => OrNum(v, 0.0)
  }

  lemma {:induction false} NoDigitNoNumber(t: string)
    requires forall c :: c in t ==> !IsDigit(c)
    ensures UnsignedDecimalPrefix(t).None?
  {
    var n := LeadingDigits(t);
    if n < |t| && t[n] == '.' {
      var rest := t[n + 1..];
      if |rest| > 0 {
        assert rest[0] in t;
      }
    }
  }

  /**
   * Text that `parseFloat` reads as an infinity: after leading whitespace and
   * an optional sign, the word 'Infinity'. The model has no infinite values,
   * and reads such text as it reads any other text without digits.
   */
  predicate InfinityLiteral(s: string) {
    var t := TrimStart(s);
    var u := if |t| > 0 && (t[0] == '+' || t[0] == '-') then t[1..] else t;
    |u| >= 8 && u[..8] == "Infinity"
  }

  /**
   * A token without a single digit (only commas, say) is worth 0, unless
   * without its commas it spells an infinity.
   */
  lemma {:induction false} ParseAmountWithoutDigits(s: string)
    requires forall c :: c in s ==> !IsDigit(c)
    requires !InfinityLiteral(RemoveCommas(s))
    ensures ParseAmount(Some(s)) == 0.0
  {
    var x := RemoveCommas(s);
    var t := TrimStart(x);
    TrimStartIndex(x);
    RemoveCommasKeeps(s);
    assert forall c :: c in t ==> c in s by {
      assert forall c :: c in t ==> c in x;
    }
    NoDigitNoNumber(t);
    if |t| > 0 {
      assert forall c :: c in t[1..] ==> c in t;
      NoDigitNoNumber(t[1..]);
    }
  }

  /** The length of the run of digits and commas at the head of `s`. */
  function LeadingAmountChars(s: string): (n: nat)
    ensures n <= |s|
    ensures forall i :: 0 <= i < n ==> IsDigit(s[i]) || s[i] == ','
    ensures n == |s| || !(IsDigit(s[n]) || s[n] == ',')
  {
    if |s| > 0 && (IsDigit(s[0]) || s[0] == ',') then 1 + LeadingAmountChars(s[1..]) else 0
  }

  /** The language of the amount capture `[\d,]+\.?\d*` used by every pattern. */
  predicate AmountToken(t: string) {
    var n := LeadingAmountChars(t);
    1 <= n && (n == |t| || (t[n] == '.' && AllDigits(t[n + 1..])))
  }

  /** An amount token is made of digits, commas and at most one point. */
  lemma {:induction false} AmountTokenChars(t: string)
    requires AmountToken(t)
    ensures t != [] && IsDigitOrComma(t[0])
    ensures forall i :: 0 <= i < |t| ==> IsDigitOrComma(t[i]) || t[i] == '.'
    ensures '-' !in t
  {
    var n := LeadingAmountChars(t);
    forall i | 0 <= i < |t|
      ensures IsDigitOrComma(t[i]) || t[i] == '.'
    {
      if i > n {
        assert t[i] == t[n + 1..][i - n - 1];
      }
    }
  }

  predicate IsDigitOrComma(c: char) {
    IsDigit(c) || c == ','
  }

  lemma {:induction false} RemoveCommasDigits(s: string)
    requires forall i :: 0 <= i < |s| ==> IsDigit(s[i]) || s[i] == ','
    ensures AllDigits(RemoveCommas(s))
  {
    RemoveCommasKeeps(s);
    forall i | 0 <= i < |RemoveCommas(s)|
      ensures IsDigit(RemoveCommas(s)[i])
    {
      assert RemoveCommas(s)[i] in RemoveCommas(s);
    }
  }

  /**
   * The decimal value an amount token denotes: its integer part with the
   * thousands commas dropped, plus the fraction after the point.
   */
  function TokenValue(t: string): (r: real)
    requires AmountToken(t)
    ensures r >= 0.0
  {
    var n := LeadingAmountChars(t);
    RemoveCommasDigits(t[..n]);
    DigitsValue(RemoveCommas(t[..n])) as real + (if n == |t| then 0.0 else FracValue(t[n + 1..]))
  }

  lemma {:induction false} DecimalPrefixOfDigits(d: string, f: string)
    requires AllDigits(d) && AllDigits(f)
    ensures |d| == 0 && |f| == 0 ==> UnsignedDecimalPrefix(d + "." + f).None?
    ensures |d| > 0 || |f| > 0 ==> UnsignedDecimalPrefix(d + "." + f) == Some(DigitsValue(d) as real + FracValue(f))
  {
    var t := d + "." + f;
    LeadingDigitsOfDigits(d, "." + f);
    assert t[..|d|] == d;
    assert t[|d|] == '.';
    assert t[|d| + 1..] == f;
    LeadingDigitsOfDigits(f, "");
    assert f + "" == f;
    assert f[..|f|] == f;
    assert f[|f|..] == "";
  }

  lemma {:induction false} DecimalPrefixOfInteger(d: string)
    requires AllDigits(d)
    ensures UnsignedDecimalPrefix(d) == if |d| == 0 then None else Some(DigitsValue(d) as real)
  {
    LeadingDigitsOfDigits(d, "");
    assert d + "" == d;
    assert d[..|d|] == d;
    assert d[|d|..] == "";
    assert ""[..0] == "";
    assert DigitsValue("") == 0;
  }

  lemma {:induction false} RemoveCommasOfToken(t: string)
    requires AmountToken(t)
    ensures RemoveCommas(t) == RemoveCommas(t[..LeadingAmountChars(t)]) + t[LeadingAmountChars(t)..]
  {
    var n := LeadingAmountChars(t);
    assert t == t[..n] + t[n..];
    RemoveCommasAppend(t[..n], t[n..]);
    if n < |t| {
      assert t[n..] == [t[n]] + t[n + 1..];
    }
    assert ',' !in t[n..];
  }

  lemma {:induction false} ParseFloatUnsigned(x: string)
    requires x == [] || (!IsSpace(x[0]) && x[0] != '+' && x[0] != '-')
    ensures ParseFloat(x) == UnsignedDecimalPrefix(x)
  {
    TrimStartOfTrimmed(x);
  }

  /** `parseAmount` reads every amount token as the value it denotes. */
  lemma {:induction false} ParseAmountOfToken(t: string)
    requires AmountToken(t)
    ensures ParseAmount(Some(t)) == TokenValue(t)
  {
    if LeadingAmountChars(t) == |t| {
      ParseAmountOfWholeToken(t);
    } else {
      ParseAmountOfFractionToken(t);
    }
  }

  lemma {:induction false} ParseAmountOfWholeToken(t: string)
    requires AmountToken(t) && LeadingAmountChars(t) == |t|
    ensures ParseAmount(Some(t)) == TokenValue(t)
  {
    var n := LeadingAmountChars(t);
    var d := RemoveCommas(t[..n]);
    RemoveCommasDigits(t[..n]);
    RemoveCommasOfToken(t);
    assert t[n..] == "";
    assert RemoveCommas(t) == d;
    ParseWholeToken(d);
    assert TokenValue(t) == DigitsValue(d) as real;
    if |d| == 0 {
      assert DigitsValue(d) == 0;
      ParseAmountVia(t, 0.0);
    } else {
      ParseAmountVia(t, DigitsValue(d) as real);
    }
  }

  lemma {:induction false} ParseAmountOfFractionToken(t: string)
    requires AmountToken(t) && LeadingAmountChars(t) < |t|
    ensures ParseAmount(Some(t)) == TokenValue(t)
  {
    var n := LeadingAmountChars(t);
    var d := RemoveCommas(t[..n]);
    var f := t[n + 1..];
    RemoveCommasDigits(t[..n]);
    FractionCommas(t);
    assert TokenValue(t) == DigitsValue(d) as real + FracValue(f);
    ParseAmountDecimal(t, d, f);
  }

  lemma {:induction false} FractionCommas(t: string)
    requires AmountToken(t) && LeadingAmountChars(t) < |t|
    ensures RemoveCommas(t) == RemoveCommas(t[..LeadingAmountChars(t)]) + "." + t[LeadingAmountChars(t) + 1..]
  {
    var n := LeadingAmountChars(t);
    RemoveCommasOfToken(t);
    DotRest(t, n);
    ConcatDot(RemoveCommas(t), RemoveCommas(t[..n]), t[n..], t[n + 1..]);
  }

  lemma {:induction false} DotRest(t: string, n: nat)
    requires n < |t| && t[n] == '.'
    ensures t[n..] == "." + t[n + 1..]
  {
  }

  lemma {:induction false} ConcatDot(x: string, a: string, r: string, g: string)
    requires x == a + r && r == "." + g
    ensures x == a + "." + g
  {
    AppendAssoc(a, ".", g);
  }

  lemma {:induction false} ParseAmountDecimal(t: string, d: string, f: string)
    requires t != "" && AllDigits(d) && AllDigits(f) && RemoveCommas(t) == d + "." + f
    ensures ParseAmount(Some(t)) == DigitsValue(d) as real + FracValue(f)
  {
    if |d| == 0 && |f| == 0 {
      ParseAmountOfPoint(t, d, f);
    } else {
      ParseAmountOfDecimal(t, d, f);
    }
  }

  lemma {:induction false} ParseAmountOfDecimal(t: string, d: string, f: string)
    requires t != "" && AllDigits(d) && AllDigits(f) && RemoveCommas(t) == d + "." + f
    requires |d| > 0 || |f| > 0
    ensures ParseAmount(Some(t)) == DigitsValue(d) as real + FracValue(f)
  {
    ParseFractionToken(d, f);
    ParseAmountOfNumber(t, d + "." + f, DigitsValue(d) as real + FracValue(f));
  }

  lemma {:induction false} ParseAmountOfPoint(t: string, d: string, f: string)
    requires t != "" && AllDigits(d) && AllDigits(f) && RemoveCommas(t) == d + "." + f
    requires |d| == 0 && |f| == 0
    ensures ParseAmount(Some(t)) == DigitsValue(d) as real + FracValue(f)
  {
    assert d == [] && f == [];
    ParseFractionToken(d, f);
    ParseAmountOfNaN(t, d + "." + f);
  }

  lemma {:induction false} ParseAmountOfNumber(t: string, x: string, v: real)
    requires t != "" && RemoveCommas(t) == x && ParseFloat(x) == Some(v)
    ensures ParseAmount(Some(t)) == v
  {
  }

  lemma {:induction false} ParseAmountOfNaN(t: string, x: string)
    requires t != "" && RemoveCommas(t) == x && ParseFloat(x).None?
    ensures ParseAmount(Some(t)) == 0.0
  {
  }

  lemma {:induction false} ParseWholeToken(d: string)
    requires AllDigits(d)
    ensures ParseFloat(d) == if |d| == 0 then None else Some(DigitsValue(d) as real)
  {
    DecimalPrefixOfInteger(d);
    ParseFloatUnsigned(d);
  }

  lemma {:induction false} ParseFractionToken(d: string, f: string)
    requires AllDigits(d) && AllDigits(f)
    ensures |d| == 0 && |f| == 0 ==> ParseFloat(d + "." + f).None?
    ensures |d| > 0 || |f| > 0 ==> ParseFloat(d + "." + f) == Some(DigitsValue(d) as real + FracValue(f))
  {
    DecimalPrefixOfDigits(d, f);
    ParseFloatUnsigned(d + "." + f);
  }

  lemma {:induction false} ParseAmountVia(t: string, v: real)
    requires t != ""
    requires ParseFloat(RemoveCommas(t)) == Some(v) || (ParseFloat(RemoveCommas(t)).None? && v == 0.0)
    ensures ParseAmount(Some(t)) == v
  {
  }

  /** Decimal numeral of a natural number, without leading zeros. */
  function NatToString(n: nat): (r: string)
    ensures |r| >= 1 && AllDigits(r)
    ensures DigitsValue(r) == n
  {
    if n < 10 then [DigitChar(n)]
    else
      var r := NatToString(n / 10) + [DigitChar(n % 10)];
      assert r[..|r| - 1] == NatToString(n / 10);
      r
  }

  lemma {:induction false} NatToStringLength(n: nat, k: nat)
    requires k >= 1 && n < Pow10(k)
    ensures |NatToString(n)| <= k
  {
    if n >= 10 {
      NatToStringLength(n / 10, k - 1);
    }
  }

  /** `n` written with at least `w` digits, zero-padded on the left. */
  function Pad(n: nat, w: nat): (r: string)
    ensures AllDigits(r)
    ensures DigitsValue(r) == n
    ensures |NatToString(n)| <= w ==> |r| == w
  {
    var s := NatToString(n);
    var zeros := seq(if w > |s| then w - |s| else 0, _ => '0');
    DigitsValueAppend(zeros, s);
    ZerosValue(|zeros|);
    assert zeros == seq(|zeros|, _ => '0');
    zeros + s
  }

  lemma {:induction false} ZerosValue(k: nat)
    ensures AllDigits(seq(k, _ => '0'))
    ensures DigitsValue(seq(k, _ => '0')) == 0
  {
    if k > 0 {
      assert seq(k, _ => '0')[..k - 1] == seq(k - 1, _ => '0');
      ZerosValue(k - 1);
    }
  }

  /** `n` with a comma between each group of three digits, as M-Pesa prints amounts. */
  function WithThousands(n: nat): (r: string)
    ensures |r| >= 1
    ensures forall i :: 0 <= i < |r| ==> IsDigit(r[i]) || r[i] == ','
  {
    if n < 1000 then NatToString(n)
    else WithThousands(n / 1000) + "," + Pad(n % 1000, 3)
  }

  lemma {:induction false} WithThousandsDigits(n: nat)
    ensures AllDigits(RemoveCommas(WithThousands(n)))
    ensures DigitsValue(RemoveCommas(WithThousands(n))) == n
  {
    if n >= 1000 {
      var hi := WithThousands(n / 1000);
      var lo := Pad(n % 1000, 3);
      NatToStringLength(n % 1000, 3);
      WithThousandsDigits(n / 1000);
      GroupJoined(hi, lo);
      GroupValue(RemoveCommas(hi), lo);
    } else {
      assert ',' !in NatToString(n);
    }
  }

  /** Dropping the commas of `hi,lo` leaves those of `hi` dropped, then `lo`. */
  lemma {:induction false} GroupJoined(hi: string, lo: string)
    requires AllDigits(lo)
    ensures RemoveCommas(hi + "," + lo) == RemoveCommas(hi) + lo
  {
    RemoveCommasAppend(hi + ",", lo);
    RemoveCommasAppend(hi, ",");
    assert RemoveCommas(",") == "";
    assert ',' !in lo;
  }

  /** Appending a group of three digits multiplies by a thousand and adds the group. */
  lemma {:induction false} GroupValue(a: string, lo: string)
    requires AllDigits(a) && AllDigits(lo) && |lo| == 3
    ensures AllDigits(a + lo)
    ensures DigitsValue(a + lo) == DigitsValue(a) * 1000 + DigitsValue(lo)
  {
    DigitsValueAppend(a, lo);
    assert Pow10(3) == 1000;
  }

  /**
   * Round trip: an amount printed with thousands separators and a fraction
   * (`1,500.00`) parses back to the number it prints.
   */
  lemma {:induction false} AmountRoundTrip(n: nat, cents: string)
    requires AllDigits(cents)
    ensures ParseAmount(Some(WithThousands(n) + "." + cents)) == n as real + FracValue(cents)
  {
    var w := WithThousands(n);
    var t := w + "." + cents;
    WithThousandsDigits(n);
    assert LeadingAmountChars(t) == |w| by {
      LeadingAmountCharsOf(w, "." + cents);
      assert t == w + ("." + cents);
    }
    assert t[..|w|] == w;
    assert t[|w| + 1..] == cents;
    ParseAmountOfToken(t);
  }

  /** Round trip without a fraction: `1,500` parses to 1500. */
  lemma {:induction false} AmountRoundTripWhole(n: nat)
    ensures ParseAmount(Some(WithThousands(n))) == n as real
  {
    var w := WithThousands(n);
    WithThousandsDigits(n);
    LeadingAmountCharsOf(w, "");
    assert w + "" == w;
    assert w[..|w|] == w;
    ParseAmountOfToken(w);
  }

  lemma {:induction false} LeadingAmountCharsOf(a: string, b: string)
    requires forall i :: 0 <= i < |a| ==> IsDigit(a[i]) || a[i] == ','
    requires b == [] || !(IsDigit(b[0]) || b[0] == ',')
    ensures LeadingAmountChars(a + b) == |a|
  {
    if |a| > 0 {
      assert (a + b)[1..] == a[1..] + b;
      LeadingAmountCharsOf(a[1..], b);
    } else {
      assert a + b == b;
    }
  }
}
