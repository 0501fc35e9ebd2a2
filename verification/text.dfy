/**
 * JavaScript string primitives used by the M-Pesa parser: the whitespace
 * class of `\s` and `String.prototype.trim`, the word class `\w`, ASCII case
 * mapping, case-insensitive substring search, `split` on one character and
 * the truthiness of `a || b` on strings that may be `undefined`.
 */
module JsText {

  datatype Option<T> = None | Some(value: T)

  /** A character of the JavaScript `\s` class (the same set `trim` removes). */
  predicate IsSpace(c: char) {
    var n := c as int;
    (0x09 <= n <= 0x0D) || n == 0x20 || n == 0xA0 || n == 0x1680 ||
    (0x2000 <= n <= 0x200A) || n == 0x2028 || n == 0x2029 || n == 0x202F ||
    n == 0x205F || n == 0x3000 || n == 0xFEFF
  }

  predicate IsDigit(c: char) {
    '0' <= c <= '9'
  }

  predicate IsUpperAscii(c: char) {
    'A' <= c <= 'Z'
  }

  predicate IsLowerAscii(c: char) {
    'a' <= c <= 'z'
  }

  /** A character of the JavaScript `\w` class. */
  predicate IsWordChar(c: char) {
    IsDigit(c) || IsUpperAscii(c) || IsLowerAscii(c) || c == '_'
  }

  predicate AllDigits(s: string) {
    forall i :: 0 <= i < |s| ==> IsDigit(s[i])
  }

  function LowerChar(c: char): char {
    if IsUpperAscii(c) then (c as int + 32) as char else c
  }

  function UpperChar(c: char): char {
    if IsLowerAscii(c) then (c as int - 32) as char else c
  }

  /** `toLowerCase`, restricted to the ASCII letters. */
  function Lower(s: string): (r: string)
    ensures |r| == |s|
    ensures forall i {:trigger r[i]} :: 0 <= i < |s| ==> r[i] == LowerChar(s[i])
  {
    seq(|s|, i requires 0 <= i < |s| => LowerChar(s[i]))
  }

  /** `toUpperCase`, restricted to the ASCII letters. */
  function Upper(s: string): (r: string)
    ensures |r| == |s|
    ensures forall i {:trigger r[i]} :: 0 <= i < |s| ==> r[i] == UpperChar(s[i])
    ensures forall i {:trigger r[i]} :: 0 <= i < |s| ==> !IsLowerAscii(r[i]) && (IsLowerAscii(s[i]) || r[i] == s[i])
  {
    seq(|s|, i requires 0 <= i < |s| => UpperChar(s[i]))
  }

  /**
   * Upper-casing only changes letter case: the result reads the same to a
   * case-insensitive comparison, and upper-casing again changes nothing.
   */
  lemma {:induction false} UpperKeepsLower(s: string)
    ensures Lower(Upper(s)) == Lower(s)
    ensures Upper(Upper(s)) == Upper(s)
  {
    var u := Upper(s);
    forall i | 0 <= i < |s|
      ensures Lower(u)[i] == Lower(s)[i] && Upper(u)[i] == u[i]
    {
      UpperCharKeepsClasses(s[i]);
    }
  }

  lemma {:induction false} UpperCharKeepsClasses(c: char)
    ensures !IsLowerAscii(UpperChar(c))
    ensures IsSpace(UpperChar(c)) == IsSpace(c)
    ensures IsWordChar(UpperChar(c)) == IsWordChar(c)
    ensures UpperChar(UpperChar(c)) == UpperChar(c)
  {
  }

  /** The length of the run of whitespace that starts at `i`. */
  function SpacesFrom(s: string, i: nat): (n: nat)
    requires i <= |s|
    ensures i + n <= |s|
    ensures forall k :: i <= k < i + n ==> IsSpace(s[k])
    ensures i + n == |s| || !IsSpace(s[i + n])
    decreases |s| - i
  {
    if i < |s| && IsSpace(s[i]) then 1 + SpacesFrom(s, i + 1) else 0
  }

  /** The length of the run of whitespace that ends just before `j`. */
  function SpacesBefore(s: string, j: nat): (n: nat)
    requires j <= |s|
    ensures n <= j
    ensures forall k :: j - n <= k < j ==> IsSpace(s[k])
    ensures n == j || !IsSpace(s[j - n - 1])
  {
    if j > 0 && IsSpace(s[j - 1]) then 1 + SpacesBefore(s, j - 1) else 0
  }

  /** The number of whitespace characters `trimStart` drops. */
  function LeadingSpaces(s: string): (n: nat)
    ensures n <= |s|
    ensures forall k :: 0 <= k < n ==> IsSpace(s[k])
    ensures n == |s| || !IsSpace(s[n])
  {
    SpacesFrom(s, 0)
  }

  /**
   * `s` without its first `n` characters, taken off one at a time, so that
   * dropping nothing yields `s` itself.
   */
  function Skip(s: string, n: nat): (r: string)
    requires n <= |s|
    ensures |r| == |s| - n
    decreases n
  {
    if n == 0 then s else Skip(s[1..], n - 1)
  }

  /** The characters `Skip` keeps are those of `s` from index `n` on. */
  lemma {:induction false} SkipIndex(s: string, n: nat)
    requires n <= |s|
    ensures forall k :: 0 <= k < |s| - n ==> Skip(s, n)[k] == s[n + k]
    decreases n
  {
    if n > 0 {
      SkipIndex(s[1..], n - 1);
    }
  }

  /** The characters of `s` from index `i` up to, not including, index `e`. */
  function Factor(s: string, i: nat, e: nat): (r: string)
    requires i <= e <= |s|
    ensures |r| == e - i
  {
    Skip(s, i)[..e - i]
  }

  lemma {:induction false} FactorIsSlice(s: string, i: nat, e: nat)
    requires i <= e <= |s|
    ensures Factor(s, i, e) == s[i..e]
  {
    SkipIndex(s, i);
  }

  /** `trimStart`: drops the leading run of whitespace. */
  function TrimStart(s: string): (r: string)
    ensures |r| == |s| - LeadingSpaces(s)
    ensures r == [] || !IsSpace(r[0])
  {
    SkipIndex(s, LeadingSpaces(s));
    Skip(s, LeadingSpaces(s))
  }

  /** What `trimStart` keeps is `s` from its first non-whitespace character on. */
  lemma {:induction false} TrimStartIndex(s: string)
    ensures forall k :: 0 <= k < |TrimStart(s)| ==> TrimStart(s)[k] == s[LeadingSpaces(s) + k]
  {
    SkipIndex(s, LeadingSpaces(s));
  }

  /** `trimEnd`: drops the trailing run of whitespace. */
  function TrimEnd(s: string): (r: string)
    ensures r == [] || !IsSpace(r[|r| - 1])
  {
    s[..|s| - SpacesBefore(s, |s|)]
  }

  /** `trim`: the longest factor of `s` that neither starts nor ends with whitespace. */
  function Trim(s: string): (r: string)
    ensures LeadingSpaces(s) + |r| <= |s|
    ensures forall k :: LeadingSpaces(s) + |r| <= k < |s| ==> IsSpace(s[k])
    ensures r == [] || (!IsSpace(r[0]) && !IsSpace(r[|r| - 1]))
  {
    var t := TrimStart(s);
    var n := SpacesBefore(t, |t|);
    TrimStartIndex(s);
    assert forall k :: LeadingSpaces(s) + |t| - n <= k < |s| ==> s[k] == t[k - LeadingSpaces(s)];
    TrimEnd(t)
  }

  /** What `trim` keeps is the factor of `s` starting at its first non-whitespace character. */
  lemma {:induction false} TrimIndex(s: string)
    ensures forall k :: 0 <= k < |Trim(s)| ==> Trim(s)[k] == s[LeadingSpaces(s) + k]
  {
    TrimStartIndex(s);
  }

  lemma {:induction false} TrimStartOfTrimmed(s: string)
    requires s == [] || !IsSpace(s[0])
    ensures TrimStart(s) == s
  {
  }

  lemma {:induction false} TrimEndOfTrimmed(s: string)
    requires s == [] || !IsSpace(s[|s| - 1])
    ensures TrimEnd(s) == s
  {
  }

  /** Trimming a string without edge whitespace changes nothing. */
  lemma {:induction false} TrimOfTrimmed(s: string)
    requires s == [] || (!IsSpace(s[0]) && !IsSpace(s[|s| - 1]))
    ensures Trim(s) == s
  {
    TrimStartOfTrimmed(s);
    TrimEndOfTrimmed(s);
  }

  /** `p` (lower-case) occurs in `s` at `i` once `s` is lower-cased: checked letter by letter. */
  predicate OccursAt(s: string, p: string, i: nat)
    decreases |p|
  {
    i + |p| <= |s| && (|p| == 0 || (LowerChar(s[i]) == p[0] && OccursAt(s, p[1..], i + 1)))
  }

  lemma {:induction false} OccursAtChars(s: string, p: string, i: nat)
    ensures OccursAt(s, p, i) <==>
      (i + |p| <= |s| && forall k :: 0 <= k < |p| ==> LowerChar(s[i + k]) == p[k])
    decreases |p|
  {
    if |p| > 0 && i + |p| <= |s| {
      OccursAtChars(s, p[1..], i + 1);
      if forall k :: 0 <= k < |p| ==> LowerChar(s[i + k]) == p[k] {
        forall k | 0 <= k < |p| - 1
          ensures LowerChar(s[i + 1 + k]) == p[1..][k]
        {
          assert LowerChar(s[i + (k + 1)]) == p[k + 1];
        }
      }
      if OccursAt(s, p, i) {
        forall k | 0 <= k < |p|
          ensures LowerChar(s[i + k]) == p[k]
        {
          if k > 0 {
            assert LowerChar(s[(i + 1) + (k - 1)]) == p[1..][k - 1];
          }
        }
      }
    }
  }

  /** The leftmost position at or after `from` where `p` occurs, ignoring ASCII case. */
  function FindFrom(s: string, p: string, from: nat): (r: Option<nat>)
    ensures r.Some? ==> from <= r.value && OccursAt(s, p, r.value)
    ensures r.Some? ==> forall i :: from <= i < r.value ==> !OccursAt(s, p, i)
    ensures r.None? ==> forall i :: from <= i ==> !OccursAt(s, p, i)
    decreases |s| - from
  {
    if from + |p| > |s| then None
    else if OccursAt(s, p, from) then Some(from)
    else FindFrom(s, p, from + 1)
  }

  /** `s.toLowerCase().includes(p)` for a lower-case literal `p`. */
  predicate LowerIncludes(s: string, p: string) {
    FindFrom(s, p, 0).Some?
  }

  lemma {:induction false} LowerIncludesIff(s: string, p: string)
    ensures LowerIncludes(s, p) <==> exists i: nat :: OccursAt(s, p, i)
  {
    if LowerIncludes(s, p) {
      var i: nat := FindFrom(s, p, 0).value;
      assert OccursAt(s, p, i);
      assert exists j: nat :: OccursAt(s, p, j);
    } else {
      forall i: nat
        ensures !OccursAt(s, p, i)
      {
        assert 0 <= i;
      }
    }
  }

  lemma {:induction false} OccursAtGivesIncludes(s: string, p: string, i: nat)
    requires OccursAt(s, p, i)
    ensures LowerIncludes(s, p)
  {
    LowerIncludesIff(s, p);
  }

  /** `indicators.some(k => s.toLowerCase().includes(k))`. */
  function IncludesAny(s: string, ps: seq<string>): (r: bool)
    ensures r <==> exists k :: 0 <= k < |ps| && LowerIncludes(s, ps[k])
  {
    if |ps| == 0 then false
    else if LowerIncludes(s, ps[0]) then true
    else
      var rest := IncludesAny(s, ps[1..]);
      assert forall k :: 1 <= k < |ps| ==> ps[k] == ps[1..][k - 1];
      rest
  }

  /**
   * The literals `ps` occur in `s`, case-insensitively, one after another
   * without overlapping, the first at or after `from`.
   */
  predicate InOrderFrom(s: string, ps: seq<string>, from: nat)
    decreases |ps|
  {
    |ps| == 0 ||
    match FindFrom(s, ps[0], from)
    case None => false
    case Some(i) => InOrderFrom(s, ps[1..], i + |ps[0]|)
  }

  predicate InOrder(s: string, ps: seq<string>) {
    InOrderFrom(s, ps, 0)
  }

  /** Literals found in order are each found on their own. */
  lemma {:induction false} InOrderFromIncludes(s: string, ps: seq<string>, from: nat)
    requires InOrderFrom(s, ps, from)
    ensures forall k :: 0 <= k < |ps| ==> LowerIncludes(s, ps[k])
    decreases |ps|
  {
    if |ps| > 0 {
      var i := FindFrom(s, ps[0], from).value;
      OccursAtGivesIncludes(s, ps[0], i);
      InOrderFromIncludes(s, ps[1..], i + |ps[0]|);
      forall k | 0 <= k < |ps|
        ensures LowerIncludes(s, ps[k])
      {
        if k > 0 {
          assert ps[k] == ps[1..][k - 1];
        }
      }
    }
  }

  lemma {:induction false} InOrderIncludes(s: string, ps: seq<string>)
    requires InOrder(s, ps)
    ensures forall k :: 0 <= k < |ps| ==> LowerIncludes(s, ps[k])
  {
    InOrderFromIncludes(s, ps, 0);
  }

  /** `q` occurs somewhere after an occurrence of `p` that ends before it. */
  ghost predicate OccursBefore(s: string, p: string, q: string) {
    exists i: nat, j: nat :: OccursAt(s, p, i) && OccursAt(s, q, j) && i + |p| <= j
  }

  /** Each literal of an in-order list occurs at or after the starting position. */
  lemma {:induction false} InOrderFromAfter(s: string, ps: seq<string>, from: nat, k: nat)
    requires InOrderFrom(s, ps, from) && k < |ps|
    ensures exists j: nat :: from <= j && OccursAt(s, ps[k], j)
    decreases |ps|
  {
    var i := FindFrom(s, ps[0], from).value;
    if k > 0 {
      InOrderFromAfter(s, ps[1..], i + |ps[0]|, k - 1);
      assert ps[1..][k - 1] == ps[k];
    }
  }

  /** Of two literals of an in-order list, the earlier one occurs before the later one. */
  lemma {:induction false} InOrderFromBefore(s: string, ps: seq<string>, from: nat, a: nat, b: nat)
    requires InOrderFrom(s, ps, from) && a < b < |ps|
    ensures OccursBefore(s, ps[a], ps[b])
    decreases |ps|
  {
    var i := FindFrom(s, ps[0], from).value;
    assert ps[b] == ps[1..][b - 1];
    if a == 0 {
      InOrderFromAfter(s, ps[1..], i + |ps[0]|, b - 1);
    } else {
      InOrderFromBefore(s, ps[1..], i + |ps[0]|, a - 1, b - 1);
      assert ps[a] == ps[1..][a - 1];
    }
  }

  /** From position `i` on, the lower-cased text has the character `x` directly followed by `y`. */
  predicate PairFrom(s: string, i: nat, x: char, y: char)
    decreases |s| - i
  {
    i + 1 < |s| && ((LowerChar(s[i]) == x && LowerChar(s[i + 1]) == y) || PairFrom(s, i + 1, x, y))
  }

  /** A pair at position `k` is found from any position up to `k`. */
  lemma {:induction false} PairFromAt(s: string, i: nat, k: nat, x: char, y: char)
    requires i <= k && k + 1 < |s| && LowerChar(s[k]) == x && LowerChar(s[k + 1]) == y
    ensures PairFrom(s, i, x, y)
    decreases k - i
  {
    if i < k {
      PairFromAt(s, i + 1, k, x, y);
    }
  }

  /** A pair found in the second part of a concatenation is in that part. */
  lemma {:induction false} PairFromShift(a: string, b: string, j: nat, x: char, y: char)
    requires PairFrom(a + b, |a| + j, x, y)
    ensures PairFrom(b, j, x, y)
    decreases |b| - j
  {
    var ab := a + b;
    if !(LowerChar(ab[|a| + j]) == x && LowerChar(ab[|a| + j + 1]) == y) {
      PairFromShift(a, b, j + 1, x, y);
    }
  }

  /** A pair in a concatenation lies in one part or straddles the seam. */
  lemma {:induction false} PairFromSplit(a: string, b: string, i: nat, x: char, y: char)
    requires i <= |a| && PairFrom(a + b, i, x, y)
    ensures PairFrom(a, i, x, y) || PairFrom(b, 0, x, y) ||
      (|a| > 0 && |b| > 0 && LowerChar(a[|a| - 1]) == x && LowerChar(b[0]) == y)
    decreases |a| - i
  {
    var ab := a + b;
    if i == |a| {
      PairFromShift(a, b, 0, x, y);
    } else if LowerChar(ab[i]) == x && LowerChar(ab[i + 1]) == y {
      if i + 1 < |a| {
        assert PairFrom(a, i, x, y);
      }
    } else {
      PairFromSplit(a, b, i + 1, x, y);
    }
  }

  /** A literal holding a pair the text lacks is not in the text. */
  lemma {:induction false} NoPairExcludes(s: string, p: string, j: nat)
    requires j + 1 < |p| && !PairFrom(s, 0, p[j], p[j + 1])
    ensures !LowerIncludes(s, p)
  {
    LowerIncludesIff(s, p);
    if LowerIncludes(s, p) {
      var i: nat :| OccursAt(s, p, i);
      OccursAtChars(s, p, i);
      assert LowerChar(s[i + j]) == p[j] && LowerChar(s[i + (j + 1)]) == p[j + 1];
      PairFromAt(s, 0, i + j, p[j], p[j + 1]);
    }
  }

  /** JavaScript truthiness of a string that may be `undefined`. */
  predicate Truthy(a: Option<string>) {
    a.Some? && a.value != ""
  }

  /** `a || b` on strings that may be `undefined`. */
  function Or(a: Option<string>, b: Option<string>): (r: Option<string>)
    ensures Truthy(r) <==> Truthy(a) || Truthy(b)
    ensures r == a || r == b
    ensures Truthy(a) ==> r == a
    ensures !Truthy(a) ==> r == b
  {
    if Truthy(a) then a else b
  }

  /** `a || b` on numbers: `0` is falsy (a NaN never reaches it here). */
  function OrNum(a: real, b: real): (r: real)
    ensures a != 0.0 ==> r == a
    ensures a == 0.0 ==> r == b
  {
    if a != 0.0 then a else b
  }

  /** A string that may be `undefined` as a template literal shows it. */
  function TemplateText(a: Option<string>): (r: string)
    ensures a.Some? ==> r == a.value
    ensures a.None? ==> r == "undefined"
  {
    if a.Some? then a.value else "undefined"
  }

  /** `s.split(sep)` for a one-character separator. */
  function Split(s: string, sep: char): (parts: seq<string>)
    ensures |parts| >= 1
    ensures forall k :: 0 <= k < |parts| ==> sep !in parts[k]
  {
    if |s| == 0 then [""]
    else
      var rest := Split(s[1..], sep);
      if s[0] == sep then [""] + rest
      else [[s[0]] + rest[0]] + rest[1..]
  }

  /** `parts.join(sep)`: the partner of `Split`. */
  function Join(parts: seq<string>, sep: char): string
    requires |parts| >= 1
    decreases |parts|
  {
    if |parts| == 1 then parts[0] else parts[0] + [sep] + Join(parts[1..], sep)
  }

  /** Joining the pieces of a split gives the original string back. */
  lemma {:induction false} SplitJoin(s: string, sep: char)
    ensures Join(Split(s, sep), sep) == s
  {
    if |s| > 0 {
      var rest := Split(s[1..], sep);
      SplitJoin(s[1..], sep);
      if s[0] == sep {
        assert Split(s, sep)[1..] == rest;
      } else {
        var parts := Split(s, sep);
        if |rest| == 1 {
          assert parts == [[s[0]] + rest[0]];
        } else {
          assert parts[1..] == rest[1..];
          assert Join(rest, sep) == rest[0] + [sep] + Join(rest[1..], sep);
        }
      }
    }
  }

  /** A string without the separator is one piece. */
  lemma {:induction false} SplitWithoutSep(s: string, sep: char)
    requires sep !in s
    ensures Split(s, sep) == [s]
  {
    if |s| > 0 {
      SplitWithoutSep(s[1..], sep);
      assert [s[0]] + s[1..] == s;
    }
  }

  /** Splitting at the first separator. */
  lemma {:induction false} SplitAtFirst(a: string, sep: char, b: string)
    requires sep !in a
    ensures Split(a + [sep] + b, sep) == [a] + Split(b, sep)
  {
    if |a| == 0 {
      assert a + [sep] + b == [sep] + b;
      assert ([sep] + b)[1..] == b;
    } else {
      assert (a + [sep] + b)[1..] == a[1..] + [sep] + b;
      SplitAtFirst(a[1..], sep, b);
      assert [a[0]] + a[1..] == a;
    }
  }
}
