/**
 * Dates and times of a transaction: `parseDate` turns a `D/M/YY[YY]` string
 * into the `YYYY-MM-DD` full-date form of RFC 3339 section 5.6, `parseTime`
 * upper-cases a time, and the two `extract…FromMessage` helpers take the
 * first date or time token of the whole message. Each falls back to the
 * date or time of the timestamp the message was received at, which the
 * model receives already formatted.
 */
module DateTime {
  import opened JsText
  import opened Amounts

  predicate IsHexDigit(c: char) {
    IsDigit(c) || 'a' <= c <= 'f' || 'A' <= c <= 'F'
  }

  function HexDigitValue(c: char): (v: nat)
    requires IsHexDigit(c)
    ensures v < 16
  {
    if IsDigit(c) then DigitValue(c)
    else if 'a' <= c <= 'f' then c as int - 'a' as int + 10
    else c as int - 'A' as int + 10
  }

  function LeadingHexDigits(s: string): (n: nat)
    ensures n <= |s|
    ensures forall i :: 0 <= i < n ==> IsHexDigit(s[i])
  {
    if |s| > 0 && IsHexDigit(s[0]) then 1 + LeadingHexDigits(s[1..]) else 0
  }

  function HexValue(d: string): nat
    requires forall i :: 0 <= i < |d| ==> IsHexDigit(d[i])
  {
    if |d| == 0 then 0 else HexValue(d[..|d| - 1]) * 16 + HexDigitValue(d[|d| - 1])
  }

  /**
   * `parseInt(s)` without a radix: leading whitespace, an optional sign, then
   * the longest run of decimal digits, or of hexadecimal digits after a `0x`
   * prefix. `None` is `NaN`.
   */
  function ParseInt(s: string): Option<int> {
    var t := TrimStart(s);
    var signed := |t| > 0 && (t[0] == '+' || t[0] == '-');
    var u := if signed then t[1..] else t;
    match UnsignedInt(u)
    case None => None
    case Some(v) =>
      var n: int := v;
      Some(if signed && t[0] == '-' then -n else n)
  }

  /** The digits `parseInt` reads after the sign: hexadecimal after `0x`, else decimal. */
  function UnsignedInt(u: string): Option<nat> {
    if |u| >= 2 && u[0] == '0' && (u[1] == 'x' || u[1] == 'X') then
      var h := LeadingHexDigits(u[2..]);
      if h == 0 then None else Some(HexValue(u[2..][..h]))
    else
      var n := LeadingDigits(u);
      if n == 0 then None else Some(DigitsValue(u[..n]))
  }

  /** A plain decimal numeral is read as its value. */
  lemma {:induction false} ParseIntOfDigits(s: string)
    requires s != "" && AllDigits(s)
    ensures ParseInt(s) == Some(DigitsValue(s))
  {
    TrimStartOfTrimmed(s);
    assert UnsignedInt(s) == Some(DigitsValue(s)) by {
      LeadingDigitsOfDigits(s, "");
      assert s + "" == s;
      assert s[..|s|] == s;
      if |s| >= 2 {
        assert IsDigit(s[1]);
      }
    }
  }

  /** The year the `Date` constructor uses: 0 to 99 mean 1900 to 1999. */
  function FullYear(y: int): (r: int)
    ensures 0 <= y <= 99 ==> r == 1900 + y
    ensures !(0 <= y <= 99) ==> r == y
  {
    if 0 <= y <= 99 then 1900 + y else y
  }

  predicate IsLeapYear(y: int) {
    y % 4 == 0 && (y % 100 != 0 || y % 400 == 0)
  }

  function DaysInMonth(y: int, m: int): (n: int)
    requires 1 <= m <= 12
    ensures 28 <= n <= 31
  {
    if m == 2 then (if IsLeapYear(y) then 29 else 28)
    else if m == 4 || m == 6 || m == 9 || m == 11 then 30
    else 31
  }

  /** A day of the proleptic Gregorian calendar with a four-digit year. */
  predicate IsCalendarDate(y: int, m: int, d: int) {
    0 <= y <= 9999 && 1 <= m <= 12 && 1 <= d <= DaysInMonth(y, m)
  }

  /** `YYYY-MM-DD`, as `toISOString().split('T')[0]` prints a date. */
  function IsoDate(y: nat, m: nat, d: nat): (r: string)
    requires y <= 9999 && m <= 99 && d <= 99
    ensures |r| == 10 && r[4] == '-' && r[7] == '-'
    ensures AllDigits(r[..4]) && AllDigits(r[5..7]) && AllDigits(r[8..])
  {
    NatToStringLength(y, 4);
    NatToStringLength(m, 2);
    NatToStringLength(d, 2);
    var r := Pad(y, 4) + "-" + Pad(m, 2) + "-" + Pad(d, 2);
    assert r[..4] == Pad(y, 4) && r[5..7] == Pad(m, 2) && r[8..] == Pad(d, 2);
    r
  }

  /** The shape of a full-date: four digits, dash, two digits, dash, two digits. */
  predicate IsIsoDateShape(r: string) {
    |r| == 10 && r[4] == '-' && r[7] == '-' &&
    AllDigits(r[..4]) && AllDigits(r[5..7]) && AllDigits(r[8..])
  }

  /** Round trip: the fields of a printed date read back as the year, month and day. */
  lemma {:induction false} IsoDateRoundTrip(y: nat, m: nat, d: nat)
    requires y <= 9999 && m <= 99 && d <= 99
    ensures var r := IsoDate(y, m, d);
      IsIsoDateShape(r) &&
      DigitsValue(r[..4]) == y && DigitsValue(r[5..7]) == m && DigitsValue(r[8..]) == d
  {
    NatToStringLength(y, 4);
    NatToStringLength(m, 2);
    NatToStringLength(d, 2);
    var r := IsoDate(y, m, d);
    assert r[..4] == Pad(y, 4) && r[5..7] == Pad(m, 2) && r[8..] == Pad(d, 2);
  }

  /**
   * The date three '/'-separated parts name, read by `parseInt` as day, month
   * and year after a two-character year is prefixed with '20'. A part
   * `parseInt` cannot read makes an invalid `Date`, whose printing throws and
   * is caught: the fallback.
   */
  function DateOfParts(day: string, month: string, year: string, fallback: string): (r: string)
    ensures r == fallback || IsIsoDateShape(r)
  {
    var d := ParseInt(day);
    var m := ParseInt(month);
    var y := ParseInt(if |year| == 2 then "20" + year else year);
    if d.Some? && m.Some? && y.Some? && IsCalendarDate(FullYear(y.value), m.value, d.value) then
      IsoDate(FullYear(y.value), m.value, d.value)
    else fallback
  }

  /**
   * `parseDate`: the fallback date when the string is missing or empty or
   * does not split into exactly three '/'-separated parts, otherwise the date
   * the three parts name, printed `YYYY-MM-DD`.
   */
  function ParseDate(dateStr: Option<string>, fallback: string): (r: string)
    ensures !Truthy(dateStr) ==> r == fallback
    ensures Truthy(dateStr) && |Split(dateStr.value, '/')| != 3 ==> r == fallback
    ensures r == fallback || IsIsoDateShape(r)
  {
    if !Truthy(dateStr) then fallback
    else
      var parts := Split(dateStr.value, '/');
      if |parts| != 3 then fallback else DateOfParts(parts[0], parts[1], parts[2], fallback)
  }

  /** A date token `\d{1,2}/\d{1,2}/\d{2,4}` as its three digit strings. */
  predicate DateParts(day: string, month: string, year: string) {
    1 <= |day| <= 2 && 1 <= |month| <= 2 && 2 <= |year| <= 4 &&
    AllDigits(day) && AllDigits(month) && AllDigits(year)
  }

  function JoinDate(day: string, month: string, year: string): string {
    day + "/" + month + "/" + year
  }

  lemma {:induction false} SplitDate(day: string, month: string, year: string)
    requires DateParts(day, month, year)
    ensures Split(JoinDate(day, month, year), '/') == [day, month, year]
  {
    assert '/' !in day && '/' !in month && '/' !in year by {
      assert forall i :: 0 <= i < |day| ==> day[i] != '/';
      assert forall i :: 0 <= i < |month| ==> month[i] != '/';
      assert forall i :: 0 <= i < |year| ==> year[i] != '/';
    }
    assert JoinDate(day, month, year) == day + ['/'] + (month + ['/'] + year);
    SplitAtFirst(day, '/', month + ['/'] + year);
    SplitAtFirst(month, '/', year);
    SplitWithoutSep(year, '/');
  }

  /** The year a date token names: a two-digit year lies in 2000 to 2099. */
  function TokenYear(year: string): (y: nat)
    requires 2 <= |year| <= 4 && AllDigits(year)
    ensures |year| == 2 ==> 2000 <= y <= 2099
    ensures y <= 9999
  {
    if |year| == 2 then
      DigitsValueAppend("20", year);
      DigitsValueBound(year);
      DigitsValue("20" + year)
    else
      DigitsValueBound(year);
      assert Pow10(|year|) <= 10000 by {
        assert Pow10(3) == 1000 && Pow10(4) == 10000;
      }
      FullYear(DigitsValue(year))
  }

  /**
   * A date token naming a real calendar day is printed as that day, with a
   * two-digit year in the 2000s.
   */
  lemma {:induction false} ParseDateOfToken(day: string, month: string, year: string, fallback: string)
    requires DateParts(day, month, year)
    requires IsCalendarDate(TokenYear(year), DigitsValue(month), DigitsValue(day))
    ensures ParseDate(Some(JoinDate(day, month, year)), fallback) ==
      IsoDate(TokenYear(year), DigitsValue(month), DigitsValue(day))
  {
    var joined := JoinDate(day, month, year);
    SplitDate(day, month, year);
    assert Truthy(Some(joined));
    assert ParseDate(Some(joined), fallback) == DateOfParts(day, month, year, fallback);
    DateOfToken(day, month, year, fallback);
  }

  lemma {:induction false} DateOfToken(day: string, month: string, year: string, fallback: string)
    requires DateParts(day, month, year)
    requires IsCalendarDate(TokenYear(year), DigitsValue(month), DigitsValue(day))
    ensures DateOfParts(day, month, year, fallback) ==
      IsoDate(TokenYear(year), DigitsValue(month), DigitsValue(day))
  {
    var y := if |year| == 2 then "20" + year else year;
    if |year| == 2 {
      DigitsValueAppend("20", year);
    }
    assert AllDigits(y) && y != "";
    ParseIntOfDigits(y);
    ParseIntOfDigits(month);
    ParseIntOfDigits(day);
    assert FullYear(DigitsValue(y)) == TokenYear(year);
  }

  /** The example date of the messages: "1/6/25" is 1 June 2025. */
  lemma {:induction false} ParseDateExample(fallback: string)
    ensures ParseDate(Some("1/6/25"), fallback) == "2025-06-01"
  {
    assert JoinDate("1", "6", "25") == "1/6/25";
    assert TokenYear("25") == 2025 by {
      DigitsValueAppend("20", "25");
      assert DigitsValue("25") == 25;
    }
    assert DigitsValue("6") == 6 && DigitsValue("1") == 1;
    ParseDateOfToken("1", "6", "25", fallback);
    IsoDateExample();
  }

  lemma {:induction false} IsoDateExample()
    ensures IsoDate(2025, 6, 1) == "2025-06-01"
  {
    Pad2025();
    PadOne(6);
    PadOne(1);
  }

  lemma {:induction false} Pad2025()
    ensures Pad(2025, 4) == "2025"
  {
    assert NatToString(2025) == "2025" by {
      assert NatToString(2) == "2";
      assert NatToString(20) == "20";
      assert NatToString(202) == "202";
    }
    assert seq(0, _ => '0') == "";
  }

  /** A one-digit number padded to two places. */
  lemma {:induction false} PadOne(n: nat)
    requires n < 10
    ensures Pad(n, 2) == ['0', DigitChar(n)]
  {
    assert NatToString(n) == [DigitChar(n)];
    assert seq(1, _ => '0') == "0";
  }


  /** The number of digits at `s[i..]`, counting at most `max`. */
  function DigitRunAt(s: string, i: nat, max: nat): (n: nat)
    ensures n <= max && (n == 0 || i + n <= |s|)
    ensures n < max ==> i + n >= |s| || !IsDigit(s[i + n])
    decreases max
  {
    if max > 0 && i < |s| && IsDigit(s[i]) then 1 + DigitRunAt(s, i + 1, max - 1) else 0
  }

  /** Every character `DigitRunAt` counts is a digit. */
  lemma {:induction false} DigitRunDigits(s: string, i: nat, max: nat)
    ensures forall k :: i <= k < i + DigitRunAt(s, i, max) ==> IsDigit(s[k])
    decreases max
  {
    if max > 0 && i < |s| && IsDigit(s[i]) {
      DigitRunDigits(s, i + 1, max - 1);
    }
  }

  /** The number of whitespace characters at `s[i..]`. */
  function SpaceRunAt(s: string, i: nat): (n: nat)
    ensures i + n <= |s| || (i > |s| && n == 0)
    ensures i + n >= |s| || !IsSpace(s[i + n])
    decreases |s| - i
  {
    if i < |s| && IsSpace(s[i]) then 1 + SpaceRunAt(s, i + 1) else 0
  }

  /** Every character `SpaceRunAt` counts is whitespace. */
  lemma {:induction false} SpaceRunSpaces(s: string, i: nat)
    ensures forall k :: i <= k < i + SpaceRunAt(s, i) ==> IsSpace(s[k])
    decreases |s| - i
  {
    if i < |s| && IsSpace(s[i]) {
      SpaceRunSpaces(s, i + 1);
    }
  }

  /**
   * The end of the match of `\d{1,2}\/\d{1,2}\/\d{2,4}` starting at `i`, if
   * one starts there (the digit runs are greedy and cannot backtrack, since a
   * '/' must follow each of the first two).
   */
  function DateAt(s: string, i: nat): (r: Option<nat>)
    ensures r.Some? ==> i < r.value <= |s|
  {
    var a := DigitRunAt(s, i, 2);
    if a == 0 || i + a >= |s| || s[i + a] != '/' then None
    else
      var j := i + a + 1;
      var b := DigitRunAt(s, j, 2);
      if b == 0 || j + b >= |s| || s[j + b] != '/' then None
      else
        var k := j + b + 1;
        var c := DigitRunAt(s, k, 4);
        if c < 2 then None else Some(k + c)
  }

  /** A date token: three '/'-separated digit strings of the right lengths. */
  predicate DateToken(t: string) {
    var parts := Split(t, '/');
    |parts| == 3 && DateParts(parts[0], parts[1], parts[2])
  }

  /** What `DateAt` matches is a date token. */
  lemma {:induction false} DateAtToken(s: string, i: nat)
    requires DateAt(s, i).Some?
    ensures DateToken(s[i..DateAt(s, i).value])
  {
    var a, b := DateAtParts(s, i);
    var e := DateAt(s, i).value;
    DigitsOfSlice(s, i, i + a);
    DigitsOfSlice(s, i + a + 1, i + a + 1 + b);
    DigitsOfSlice(s, i + a + 2 + b, e);
    SliceOfSlice(s, i, e, 0, a);
    SliceOfSlice(s, i, e, a + 1, a + 1 + b);
    SliceOfSlice(s, i, e, a + 2 + b, e - i);
    SlashedDateToken(s[i..e], a, b);
  }

  /** The day and month runs `DateAt` reads, with the slashes after them and the year run after those. */
  lemma {:induction false} DateAtParts(s: string, i: nat) returns (a: nat, b: nat)
    requires DateAt(s, i).Some?
    ensures var e := DateAt(s, i).value;
      1 <= a <= 2 && 1 <= b <= 2 && i + a + 2 + b + 2 <= e <= i + a + 2 + b + 4 && e <= |s| &&
      s[i + a] == '/' && s[i + a + 1 + b] == '/' &&
      (forall k :: i <= k < i + a ==> IsDigit(s[k])) &&
      (forall k :: i + a + 1 <= k < i + a + 1 + b ==> IsDigit(s[k])) &&
      (forall k :: i + a + 2 + b <= k < e ==> IsDigit(s[k]))
  {
    a := DigitRunAt(s, i, 2);
    var j := i + a + 1;
    b := DigitRunAt(s, j, 2);
    var k := j + b + 1;
    DigitRunDigits(s, i, 2);
    DigitRunDigits(s, j, 2);
    DigitRunDigits(s, k, 4);
  }

  /** Digits, a slash, digits, a slash and digits, of the lengths a date allows, make a date token. */
  lemma {:induction false} SlashedDateToken(t: string, a: nat, b: nat)
    requires a + 2 + b <= |t| && t[a] == '/' && t[a + 1 + b] == '/'
    requires 1 <= a <= 2 && 1 <= b <= 2 && 2 <= |t| - (a + 2 + b) <= 4
    requires AllDigits(t[0..a]) && AllDigits(t[a + 1..a + 1 + b]) && AllDigits(t[a + 2 + b..|t|])
    ensures DateToken(t)
  {
    SlashesSplitDate(t, a, b);
    assert t[..a] == t[0..a] && t[a + 2 + b..] == t[a + 2 + b..|t|];
    SplitDate(t[..a], t[a + 1..a + 1 + b], t[a + 2 + b..]);
  }

  lemma {:induction false} SliceOfSlice(s: string, i: nat, e: nat, p: nat, q: nat)
    requires i <= e <= |s| && p <= q <= e - i
    ensures s[i..e][p..q] == s[i + p..i + q]
  {
    var u := s[i..e][p..q];
    assert |u| == q - p;
    assert forall k :: 0 <= k < q - p ==> u[k] == s[i + p + k];
  }

  lemma {:induction false} DigitsOfSlice(s: string, i: nat, j: nat)
    requires i <= j <= |s|
    requires forall k :: i <= k < j ==> IsDigit(s[k])
    ensures AllDigits(s[i..j])
  {
  }

  lemma {:induction false} SlashesSplitDate(t: string, a: nat, b: nat)
    requires a + 2 + b <= |t| && t[a] == '/' && t[a + 1 + b] == '/'
    ensures t == JoinDate(t[..a], t[a + 1..a + 1 + b], t[a + 2 + b..])
  {
    assert t == t[..a] + t[a..] && t[a..] == ['/'] + t[a + 1..];
    assert t[a + 1..] == t[a + 1..a + 1 + b] + t[a + 1 + b..];
    assert t[a + 1 + b..] == ['/'] + t[a + 2 + b..];
  }

  /** The leftmost date token of `s` at or after `from`, as a start and an end. */
  function FindDate(s: string, from: nat): (r: Option<(nat, nat)>)
    ensures r.Some? ==> from <= r.value.0 && DateAt(s, r.value.0) == Some(r.value.1)
    ensures r.Some? ==> forall i :: from <= i < r.value.0 ==> DateAt(s, i).None?
    ensures r.None? ==> forall i :: from <= i ==> DateAt(s, i).None?
    decreases |s| - from
  {
    if from >= |s| then
      assert forall i :: from <= i ==> DigitRunAt(s, i, 2) == 0;
      None
    else match DateAt(s, from)
      case Some(e) => Some((from, e))
      case None => FindDate(s, from + 1)
  }

  /**
   * `extractDateFromMessage`: `parseDate` of the first date token of the
   * message, or the fallback when there is none.
   */
  function ExtractDateFromMessage(message: string, fallback: string): (r: string)
    ensures r == fallback || IsIsoDateShape(r)
    ensures (forall i :: 0 <= i ==> DateAt(message, i).None?) ==> r == fallback
  {
    match FindDate(message, 0)
    case None => fallback
    case Some((i, e)) => ParseDate(Some(Factor(message, i, e)), fallback)
  }

  /** The token `extractDateFromMessage` reads is the leftmost one. */
  lemma {:induction false} ExtractDateLeftmost(message: string, i: nat, e: nat, fallback: string)
    requires DateAt(message, i) == Some(e)
    requires forall k :: 0 <= k < i ==> DateAt(message, k).None?
    ensures ExtractDateFromMessage(message, fallback) == ParseDate(Some(message[i..e]), fallback)
  {
    FactorIsSlice(message, i, e);
    var r := FindDate(message, 0);
    assert r.Some?;
    assert r.value.0 == i;
  }

  predicate IsAOrP(c: char) {
    c == 'a' || c == 'A' || c == 'p' || c == 'P'
  }

  predicate IsM(c: char) {
    c == 'm' || c == 'M'
  }

  /**
   * The end of the match of `\d{1,2}:\d{2}\s*[AP]M` (case-insensitive)
   * starting at `i`, if one starts there.
   */
  function TimeAt(s: string, i: nat): (r: Option<nat>)
    ensures r.Some? ==> i < r.value <= |s|
  {
    var a := DigitRunAt(s, i, 2);
    var c := i + a;
    if a == 0 || c + 2 >= |s| || s[c] != ':' || !IsDigit(s[c + 1]) || !IsDigit(s[c + 2]) then None
    else
      var w := c + 3 + SpaceRunAt(s, c + 3);
      if w + 1 < |s| && IsAOrP(s[w]) && IsM(s[w + 1]) then Some(w + 2) else None
  }

  /** Blanks followed by AM or PM in any case, and nothing else. */
  predicate MeridiemTail(rest: string) {
    var w := LeadingSpaces(rest);
    |rest| == w + 2 && IsAOrP(rest[w]) && IsM(rest[w + 1])
  }

  /** A time token: one or two digits, ':', two digits, blanks, then AM or PM in any case. */
  predicate TimeToken(t: string) {
    var h := LeadingDigits(t);
    1 <= h <= 2 && h + 3 <= |t| && t[h] == ':' && IsDigit(t[h + 1]) && IsDigit(t[h + 2]) &&
    MeridiemTail(t[h + 3..])
  }

  lemma {:induction false} TimeTokenShape(t: string)
    requires TimeToken(t)
    ensures |t| >= 6 && IsDigit(t[0]) && IsM(t[|t| - 1])
  {
  }

  lemma {:induction false} LeadingSpacesOf(a: string, b: string)
    requires forall i :: 0 <= i < |a| ==> IsSpace(a[i])
    requires b == [] || !IsSpace(b[0])
    ensures LeadingSpaces(a + b) == |a|
  {
    if |a| > 0 {
      assert (a + b)[1..] == a[1..] + b;
      LeadingSpacesOf(a[1..], b);
    } else {
      assert a + b == b;
    }
  }

  /** What `TimeAt` matches is a time token. */
  lemma {:induction false} TimeAtToken(s: string, i: nat)
    requires TimeAt(s, i).Some?
    ensures TimeToken(s[i..TimeAt(s, i).value])
  {
    var a := DigitRunAt(s, i, 2);
    var c := i + a;
    var w := c + 3 + SpaceRunAt(s, c + 3);
    var e := TimeAt(s, i).value;
    assert e == w + 2;
    var t := s[i..e];
    DigitRunDigits(s, i, 2);
    SpaceRunSpaces(s, c + 3);
    TimeAtHour(s, i, a, e);
    TimeAtTail(s, c + 3, w, e);
    assert t[a + 3..] == s[c + 3..e];
    assert t[a] == s[c] && t[a + 1] == s[c + 1] && t[a + 2] == s[c + 2];
  }

  lemma {:induction false} TimeAtHour(s: string, i: nat, a: nat, e: nat)
    requires i + a < e <= |s|
    requires forall k :: i <= k < i + a ==> IsDigit(s[k])
    requires !IsDigit(s[i + a])
    ensures LeadingDigits(s[i..e]) == a
  {
    assert s[i..e] == s[i..i + a] + s[i + a..e];
    LeadingDigitsOfDigits(s[i..i + a], s[i + a..e]);
  }

  lemma {:induction false} TimeAtTail(s: string, b: nat, w: nat, e: nat)
    requires b <= w && e == w + 2 && e <= |s|
    requires forall k :: b <= k < w ==> IsSpace(s[k])
    requires IsAOrP(s[w]) && IsM(s[w + 1])
    ensures MeridiemTail(s[b..e])
  {
    var rest := s[b..e];
    assert rest == s[b..w] + s[w..e];
    LeadingSpacesOf(s[b..w], s[w..e]);
    assert rest[w - b] == s[w] && rest[w - b + 1] == s[w + 1];
  }

  /** The leftmost time token of `s` at or after `from`, as a start and an end. */
  function FindTime(s: string, from: nat): (r: Option<(nat, nat)>)
    ensures r.Some? ==> from <= r.value.0 && TimeAt(s, r.value.0) == Some(r.value.1)
    ensures r.Some? ==> forall i :: from <= i < r.value.0 ==> TimeAt(s, i).None?
    ensures r.None? ==> forall i :: from <= i ==> TimeAt(s, i).None?
    decreases |s| - from
  {
    if from >= |s| then
      assert forall i :: from <= i ==> DigitRunAt(s, i, 2) == 0;
      None
    else match TimeAt(s, from)
      case Some(e) => Some((from, e))
      case None => FindTime(s, from + 1)
  }

  /** A time as the record shows it: no lower-case letter and no edge whitespace. */
  predicate IsShownTime(t: string) {
    (forall i :: 0 <= i < |t| ==> !IsLowerAscii(t[i])) &&
    (t == [] || (!IsSpace(t[0]) && !IsSpace(t[|t| - 1])))
  }

  lemma {:induction false} UpperShown(t: string)
    requires t == [] || (!IsSpace(t[0]) && !IsSpace(t[|t| - 1]))
    ensures IsShownTime(Upper(t))
  {
    var u := Upper(t);
    forall i | 0 <= i < |t|
      ensures !IsLowerAscii(u[i]) && IsSpace(u[i]) == IsSpace(t[i])
    {
      UpperCharKeepsClasses(t[i]);
    }
  }

  /**
   * `extractTimeFromMessage`: the first time token of the message in upper
   * case, or the fallback when there is none.
   */
  function ExtractTimeFromMessage(message: string, fallback: string): (r: string)
    ensures r == fallback || (IsShownTime(r) && |r| >= 6)
    ensures (forall i :: 0 <= i ==> TimeAt(message, i).None?) ==> r == fallback
  {
    match FindTime(message, 0)
    case None => fallback
    case Some((i, e)) =>
      TimeAtToken(message, i);
      FactorIsSlice(message, i, e);
      ShownToken(Factor(message, i, e));
      Upper(Factor(message, i, e))
  }

  lemma {:induction false} ShownToken(t: string)
    requires TimeToken(t)
    ensures IsShownTime(Upper(t)) && |Upper(t)| >= 6
  {
    TimeTokenShape(t);
    UpperShown(t);
  }

  /** The token `extractTimeFromMessage` reads is the leftmost one. */
  lemma {:induction false} ExtractTimeLeftmost(message: string, i: nat, e: nat, fallback: string)
    requires TimeAt(message, i) == Some(e)
    requires forall k :: 0 <= k < i ==> TimeAt(message, k).None?
    ensures ExtractTimeFromMessage(message, fallback) == Upper(message[i..e])
  {
    FactorIsSlice(message, i, e);
    var r := FindTime(message, 0);
    assert r.Some?;
    assert r.value.0 == i;
  }

  /**
   * `parseTime`: the fallback time for a missing or empty string, otherwise
   * the string trimmed and upper-cased.
   */
  function ParseTime(timeStr: Option<string>, fallback: string): (r: string)
    ensures !Truthy(timeStr) ==> r == fallback
    ensures Truthy(timeStr) ==> IsShownTime(r) && |r| <= |timeStr.value|
    ensures Truthy(timeStr) ==> |r| == |Trim(timeStr.value)| && Lower(r) == Lower(Trim(timeStr.value))
  {
    if !Truthy(timeStr) then fallback
    else
      var t := Trim(timeStr.value);
      UpperShown(t);
      UpperKeepsLower(t);
      Upper(t)
  }

  /** A time token reads as itself in upper case. */
  lemma {:induction false} ParseTimeOfToken(t: string, fallback: string)
    requires TimeToken(t)
    ensures ParseTime(Some(t), fallback) == Upper(t)
  {
    TimeTokenShape(t);
    TrimOfTrimmed(t);
  }

  /** Parsing a parsed time again changes nothing. */
  lemma {:induction false} ParseTimeIdempotent(t: string, fallback: string)
    requires t != ""
    ensures var once := ParseTime(Some(t), fallback);
      once != "" ==> ParseTime(Some(once), fallback) == once
  {
    var once := ParseTime(Some(t), fallback);
    if once != "" {
      TrimOfTrimmed(once);
      forall i | 0 <= i < |once|
        ensures UpperChar(once[i]) == once[i]
      {
      }
    }
  }

  /** A string without '/' is one part, so `parseDate` falls back. */
  lemma {:induction false} NoSlashDate(s: string, fallback: string)
    requires '/' !in s
    ensures ParseDate(Some(s), fallback) == fallback
  {
    SplitWithoutSep(s, '/');
  }

  /** An amount token read as a date gives the fallback. */
  lemma {:induction false} AmountTokenAsDate(t: string, fallback: string)
    requires AmountToken(t)
    ensures ParseDate(Some(t), fallback) == fallback
  {
    AmountTokenChars(t);
    assert '/' !in t by {
      forall i | 0 <= i < |t|
        ensures t[i] != '/'
      {
      }
    }
    NoSlashDate(t, fallback);
  }

  /** An amount token read as a time is kept as it is. */
  lemma {:induction false} AmountTokenAsTime(t: string, fallback: string)
    requires AmountToken(t)
    ensures ParseTime(Some(t), fallback) == t
  {
    AmountTokenChars(t);
    TrimOfTrimmed(t);
    assert Upper(t) == t;
  }

  /** A time token read as a date gives the fallback. */
  lemma {:induction false} TimeTokenAsDate(t: string, fallback: string)
    requires TimeToken(t)
    ensures ParseDate(Some(t), fallback) == fallback
  {
    forall i | 0 <= i < |t|
      ensures t[i] != '/'
    {
      TimeTokenChar(t, i);
    }
    NoSlashDate(t, fallback);
  }

  lemma {:induction false} TimeTokenChar(t: string, i: nat)
    requires TimeToken(t) && i < |t|
    ensures IsDigit(t[i]) || t[i] == ':' || IsSpace(t[i]) || IsAOrP(t[i]) || IsM(t[i])
  {
    var h := LeadingDigits(t);
    if i < h {
      HeadDigit(t, h, i);
    } else if i >= h + 3 {
      TailChar(t, h + 3, i);
    }
  }

  lemma {:induction false} HeadDigit(t: string, h: nat, i: nat)
    requires h <= |t| && AllDigits(t[..h]) && i < h
    ensures IsDigit(t[i])
  {
    assert t[i] == t[..h][i];
  }

  lemma {:induction false} TailChar(t: string, k: nat, i: nat)
    requires k <= i < |t| && MeridiemTail(t[k..])
    ensures IsSpace(t[i]) || IsAOrP(t[i]) || IsM(t[i])
  {
    assert t[i] == t[k..][i - k];
    MeridiemChar(t[k..], i - k);
  }

  lemma {:induction false} MeridiemChar(rest: string, j: nat)
    requires MeridiemTail(rest) && j < |rest|
    ensures IsSpace(rest[j]) || IsAOrP(rest[j]) || IsM(rest[j])
  {
  }
}
