/**
 * `cleanEntityName`: the counter-party name of a transaction, normalised by
 * trimming, collapsing whitespace runs to one space, stripping non-word
 * characters from both ends and upper-casing.
 */
module EntityNames {
  import opened JsText

  /** Position `i` of `s` holds a character outside `\w`. */
  predicate NonWordAt(s: string, i: int)
    requires 0 <= i < |s|
  {
    !IsWordChar(s[i])
  }

  predicate NoWordChar(s: string) {
    forall i :: 0 <= i < |s| ==> NonWordAt(s, i)
  }

  /** Whitespace at `i` and again at `i + 1`. */
  predicate SpacePairAt(s: string, i: int)
    requires 0 <= i < |s| - 1
  {
    IsSpace(s[i]) && IsSpace(s[i + 1])
  }

  /** No two whitespace characters stand next to each other. */
  predicate NoDoubleSpace(s: string) {
    forall i :: 0 <= i < |s| - 1 ==> !SpacePairAt(s, i)
  }

  lemma {:induction false} NoDoubleSpaceTail(s: string)
    requires |s| > 0 && NoDoubleSpace(s)
    ensures NoDoubleSpace(s[1..])
  {
    forall i | 0 <= i < |s| - 2
      ensures !SpacePairAt(s[1..], i)
    {
      assert !SpacePairAt(s, i + 1);
    }
  }

  lemma {:induction false} NoDoubleSpaceCons(c: char, t: string)
    requires NoDoubleSpace(t) && (t == [] || !IsSpace(c) || !IsSpace(t[0]))
    ensures NoDoubleSpace([c] + t)
  {
    var r := [c] + t;
    forall i | 0 <= i < |r| - 1
      ensures !SpacePairAt(r, i)
    {
      if i > 0 {
        assert !SpacePairAt(t, i - 1);
      }
    }
  }

  /** The only whitespace character left is the plain space. */
  predicate OnlyPlainSpaces(s: string) {
    forall i :: 0 <= i < |s| ==> PlainSpaceAt(s, i)
  }

  /** Position `i` of `s` holds no whitespace other than the plain space. */
  predicate PlainSpaceAt(s: string, i: int)
    requires 0 <= i < |s|
  {
    IsSpace(s[i]) ==> s[i] == ' '
  }

  predicate NoLowerCase(s: string) {
    forall i :: 0 <= i < |s| ==> NotLowerAt(s, i)
  }

  /** Position `i` of `s` holds no lower-case letter. */
  predicate NotLowerAt(s: string, i: int)
    requires 0 <= i < |s|
  {
    !IsLowerAscii(s[i])
  }

  predicate WordEdges(s: string) {
    s == [] || (IsWordChar(s[0]) && IsWordChar(s[|s| - 1]))
  }

  /** What `cleanEntityName` promises about every name it returns for a given name. */
  predicate IsCleanName(s: string) {
    NoLowerCase(s) && OnlyPlainSpaces(s) && NoDoubleSpace(s) && WordEdges(s)
  }

  /**
   * What `s` reads as once the length and the kind of its whitespace runs
   * are forgotten: its other characters in order, with `None` standing for
   * each maximal run of whitespace.
   */
  function Runs(s: string): seq<Option<char>>
    decreases |s|
  {
    if |s| == 0 then []
    else if !IsSpace(s[0]) then [Some(s[0])] + Runs(s[1..])
    else if |s| > 1 && IsSpace(s[1]) then Runs(s[1..])
    else [None] + Runs(s[1..])
  }

  /** Dropping one character of a leading whitespace run drops one from the count `trimStart` drops. */
  lemma {:induction false} LeadingSpacesTail(s: string)
    requires |s| > 0 && IsSpace(s[0])
    ensures LeadingSpaces(s) == 1 + LeadingSpaces(s[1..])
    ensures TrimStart(s) == TrimStart(s[1..])
  {
    var n' := LeadingSpaces(s[1..]);
    assert forall k :: 1 <= k < 1 + n' ==> IsSpace(s[k]) by {
      forall k | 1 <= k < 1 + n'
        ensures IsSpace(s[k])
      {
        assert s[k] == s[1..][k - 1];
      }
    }
    assert 1 + n' == |s| || !IsSpace(s[1..][n']);
    TrimStartIndex(s);
    TrimStartIndex(s[1..]);
  }

  /** A leading whitespace run reads as one `None`, whatever its length. */
  lemma {:induction false} RunsOfLeadingSpaces(s: string)
    requires |s| > 0 && IsSpace(s[0])
    ensures Runs(s) == [None] + Runs(TrimStart(s))
    decreases |s|
  {
    LeadingSpacesTail(s);
    if |s| > 1 && IsSpace(s[1]) {
      RunsOfLeadingSpaces(s[1..]);
      LeadingSpacesTail(s[1..]);
    } else {
      TrimStartIndex(s[1..]);
      assert TrimStart(s[1..]) == s[1..];
    }
  }

  /** Without a double space, every character counts in `Runs`. */
  lemma {:induction false} RunsOfSingle(s: string)
    requires |s| > 0 && NoDoubleSpace(s)
    ensures Runs(s) == [if IsSpace(s[0]) then None else Some(s[0])] + Runs(s[1..])
  {
    if |s| > 1 {
      assert !SpacePairAt(s, 0);
    }
  }

  lemma {:induction false} PlainSpacesTail(s: string)
    requires |s| > 0 && OnlyPlainSpaces(s)
    ensures OnlyPlainSpaces(s[1..])
  {
    forall i | 0 <= i < |s| - 1
      ensures PlainSpaceAt(s[1..], i)
    {
      assert PlainSpaceAt(s, i + 1);
    }
  }

  /**
   * Two strings whose only whitespace is single plain spaces are equal when
   * they read alike: `Runs` loses nothing about them.
   */
  lemma {:induction false} RunsDetermine(a: string, b: string)
    requires OnlyPlainSpaces(a) && NoDoubleSpace(a) && OnlyPlainSpaces(b) && NoDoubleSpace(b)
    requires Runs(a) == Runs(b)
    ensures a == b
    decreases |a|
  {
    if |a| > 0 {
      RunsOfSingle(a);
      assert |b| > 0;
      RunsOfSingle(b);
      assert Runs(a)[0] == Runs(b)[0] && Runs(a)[1..] == Runs(b)[1..];
      assert PlainSpaceAt(a, 0) && PlainSpaceAt(b, 0);
      PlainSpacesTail(a);
      PlainSpacesTail(b);
      NoDoubleSpaceTail(a);
      NoDoubleSpaceTail(b);
      RunsDetermine(a[1..], b[1..]);
      assert a == [a[0]] + a[1..] && b == [b[0]] + b[1..];
    } else if |b| > 0 {
      RunsOfSingle(b);
    }
  }

  /**
   * Collapsing has exactly one possible result: the one string of single
   * plain spaces that reads like `s`.
   */
  lemma {:induction false} CollapseSpacesUnique(s: string, x: string)
    requires OnlyPlainSpaces(x) && NoDoubleSpace(x) && Runs(x) == Runs(s)
    ensures x == CollapseSpaces(s)
  {
    CollapseSpacesRuns(s);
    RunsDetermine(x, CollapseSpaces(s));
  }

  /** `.replace(/\s+/g, ' ')`: every maximal run of whitespace becomes one space. */
  function CollapseSpaces(s: string): (r: string)
    ensures |r| <= |s| && (r == []) == (s == [])
    ensures OnlyPlainSpaces(r) && NoDoubleSpace(r)
    ensures |s| > 0 ==> (IsSpace(r[0]) <==> IsSpace(s[0]))
    ensures |s| > 0 && !IsSpace(s[0]) ==> r[0] == s[0]
    ensures |s| > 0 && !IsSpace(s[|s| - 1]) ==> r[|r| - 1] == s[|s| - 1]
    ensures NoWordChar(s) ==> NoWordChar(r)
    decreases |s|
  {
    if |s| == 0 then ""
    else if IsSpace(s[0]) then
      TrimStartIndex(s);
      FactorKeepsNoWord(s, LeadingSpaces(s), TrimStart(s));
      var t := CollapseSpaces(TrimStart(s));
      NoDoubleSpaceCons(' ', t);
      ConsKeeps(' ', t);
      " " + t
    else
      FactorKeepsNoWord(s, 1, s[1..]);
      assert NoWordChar(s) ==> NonWordAt(s, 0);
      var t := CollapseSpaces(s[1..]);
      NoDoubleSpaceCons(s[0], t);
      ConsKeeps(s[0], t);
      [s[0]] + t
  }

  /** Collapsing keeps what the string reads as. */
  lemma {:induction false} CollapseSpacesRuns(s: string)
    ensures Runs(CollapseSpaces(s)) == Runs(s)
    decreases |s|
  {
    if |s| > 0 {
      if IsSpace(s[0]) {
        var t := CollapseSpaces(TrimStart(s));
        CollapseSpacesRuns(TrimStart(s));
        RunsOfLeadingSpaces(s);
        assert (" " + t)[1..] == t;
      } else {
        var t := CollapseSpaces(s[1..]);
        CollapseSpacesRuns(s[1..]);
        assert ([s[0]] + t)[1..] == t;
      }
    }
  }

  /** Prepending a character keeps plain spacing, and the absence of word characters. */
  lemma {:induction false} ConsKeeps(c: char, t: string)
    ensures OnlyPlainSpaces(t) && (IsSpace(c) ==> c == ' ') ==> OnlyPlainSpaces([c] + t)
    ensures NoWordChar(t) && !IsWordChar(c) ==> NoWordChar([c] + t)
  {
    var r := [c] + t;
    if OnlyPlainSpaces(t) && (IsSpace(c) ==> c == ' ') {
      forall i | 0 <= i < |r|
        ensures PlainSpaceAt(r, i)
      {
        if i > 0 {
          assert PlainSpaceAt(t, i - 1);
        }
      }
    }
    if NoWordChar(t) && !IsWordChar(c) {
      forall i | 0 <= i < |r|
        ensures NonWordAt(r, i)
      {
        if i > 0 {
          assert NonWordAt(t, i - 1);
        }
      }
    }
  }

  /** A factor of a string without word characters has none either. */
  lemma {:induction false} FactorKeepsNoWord(s: string, a: nat, r: string)
    requires a + |r| <= |s| && forall k :: 0 <= k < |r| ==> r[k] == s[a + k]
    ensures NoWordChar(s) ==> NoWordChar(r)
  {
    if NoWordChar(s) {
      forall i | 0 <= i < |r|
        ensures NonWordAt(r, i)
      {
        assert NonWordAt(s, a + i);
      }
    }
  }

  /** A string whose whitespace is already single plain spaces is left alone. */
  lemma {:induction false} CollapseSpacesOfCollapsed(s: string)
    requires OnlyPlainSpaces(s) && NoDoubleSpace(s)
    ensures CollapseSpaces(s) == s
  {
    if |s| > 0 {
      if IsSpace(s[0]) {
        assert PlainSpaceAt(s, 0);
        assert TrimStart(s) == s[1..] by {
          if |s| > 1 {
            assert !SpacePairAt(s, 0);
          }
          TrimStartOfTrimmed(s[1..]);
        }
      }
      NoDoubleSpaceTail(s);
      FactorKeepsSpacing(s, 1, s[1..]);
      CollapseSpacesOfCollapsed(s[1..]);
      assert s == [s[0]] + s[1..];
    }
  }

  /** The length of the run of non-word characters at the head of `s`. */
  function LeadingNonWord(s: string): (n: nat)
    ensures n <= |s|
    ensures forall i :: 0 <= i < n ==> NonWordAt(s, i)
    ensures n == |s| || IsWordChar(s[n])
  {
    if |s| > 0 && !IsWordChar(s[0]) then
      var n := LeadingNonWord(s[1..]);
      assert forall i :: 1 <= i < 1 + n ==> NonWordAt(s, i) by {
        forall i | 1 <= i < 1 + n
          ensures NonWordAt(s, i)
        {
          assert NonWordAt(s[1..], i - 1);
        }
      }
      1 + n
    else 0
  }

  /** The length of the run of non-word characters at the tail of `s`. */
  function TrailingNonWord(s: string): (n: nat)
    ensures n <= |s|
    ensures forall i :: |s| - n <= i < |s| ==> NonWordAt(s, i)
    ensures n == |s| || IsWordChar(s[|s| - 1 - n])
  {
    if |s| > 0 && !IsWordChar(s[|s| - 1]) then
      var n := TrailingNonWord(s[..|s| - 1]);
      assert forall i :: |s| - 1 - n <= i < |s| - 1 ==> NonWordAt(s, i) by {
        forall i | |s| - 1 - n <= i < |s| - 1
          ensures NonWordAt(s, i)
        {
          assert NonWordAt(s[..|s| - 1], i);
        }
      }
      1 + n
    else 0
  }

  /**
   * `.replace(/^\W+|\W+$/g, '')`: drops the leading and the trailing run of
   * non-word characters; a string without word characters becomes empty.
   */
  function StripNonWordEdges(s: string): (r: string)
    ensures LeadingNonWord(s) + |r| <= |s|
    ensures WordEdges(r)
    ensures r == [] <==> NoWordChar(s)
    ensures OnlyPlainSpaces(s) && NoDoubleSpace(s) ==> OnlyPlainSpaces(r) && NoDoubleSpace(r)
  {
    var a := LeadingNonWord(s);
    var t := Skip(s, a);
    var r := t[..|t| - TrailingNonWord(t)];
    SkipIndex(s, a);
    FactorKeepsSpacing(s, a, r);
    assert r == [] ==> NoWordChar(s) by {
      if r == [] {
        forall i | 0 <= i < |s|
          ensures NonWordAt(s, i)
        {
          if i >= a {
            assert NonWordAt(t, i - a);
          }
        }
      }
    }
    assert r != [] ==> !NonWordAt(s, a);
    r
  }

  /**
   * What is kept is one slice of `s`: it starts after the leading run of
   * non-word characters, and only non-word characters follow it.
   */
  lemma {:induction false} StripNonWordEdgesSlice(s: string)
    ensures var a, r := LeadingNonWord(s), StripNonWordEdges(s);
      a + |r| <= |s| && r == s[a..a + |r|] &&
      forall i :: a + |r| <= i < |s| ==> NonWordAt(s, i)
  {
    var a := LeadingNonWord(s);
    var t := Skip(s, a);
    var r := StripNonWordEdges(s);
    assert r == t[..|t| - TrailingNonWord(t)];
    SkipIndex(s, a);
    assert r == s[a..a + |r|];
    forall i | a + |r| <= i < |s|
      ensures NonWordAt(s, i)
    {
      assert NonWordAt(t, i - a);
    }
  }

  lemma {:induction false} StripNonWordEdgesOfClean(s: string)
    requires WordEdges(s)
    ensures StripNonWordEdges(s) == s
  {
    assert LeadingNonWord(s) == 0;
  }

  lemma {:induction false} FactorKeepsSpacing(s: string, a: nat, r: string)
    requires a + |r| <= |s| && forall k :: 0 <= k < |r| ==> r[k] == s[a + k]
    ensures OnlyPlainSpaces(s) && NoDoubleSpace(s) ==> OnlyPlainSpaces(r) && NoDoubleSpace(r)
  {
    if OnlyPlainSpaces(s) && NoDoubleSpace(s) {
      forall i | 0 <= i < |r|
        ensures PlainSpaceAt(r, i)
      {
        assert PlainSpaceAt(s, a + i);
      }
      forall i | 0 <= i < |r| - 1
        ensures !SpacePairAt(r, i)
      {
        assert !SpacePairAt(s, a + i);
      }
    }
  }

  lemma {:induction false} UpperKeepsClean(s: string)
    requires OnlyPlainSpaces(s) && NoDoubleSpace(s) && WordEdges(s)
    ensures IsCleanName(Upper(s))
  {
    var u := Upper(s);
    forall i | 0 <= i < |s|
      ensures NotLowerAt(u, i) && PlainSpaceAt(u, i)
      ensures IsSpace(u[i]) == IsSpace(s[i]) && IsWordChar(u[i]) == IsWordChar(s[i])
    {
      UpperCharKeepsClasses(s[i]);
      assert PlainSpaceAt(s, i);
    }
    forall i | 0 <= i < |u| - 1
      ensures !SpacePairAt(u, i)
    {
      assert !SpacePairAt(s, i);
    }
  }

  /** The normalisation steps after the missing-name check. */
  function Normalise(name: string): (r: string)
    ensures IsCleanName(r)
  {
    var collapsed := CollapseSpaces(Trim(name));
    var stripped := StripNonWordEdges(collapsed);
    TrimEndOfTrimmed(stripped);
    UpperKeepsClean(stripped);
    Upper(TrimEnd(stripped))
  }

  /** Once the edges are stripped the text ends in a word character, so `trimEnd` has nothing left to drop. */
  lemma {:induction false} NormaliseWithoutTrimEnd(name: string)
    ensures Normalise(name) == Upper(StripNonWordEdges(CollapseSpaces(Trim(name))))
  {
    var stripped := StripNonWordEdges(CollapseSpaces(Trim(name)));
    WordEdgesEndNoSpace(stripped);
    TrimEndOfTrimmed(stripped);
  }

  lemma {:induction false} WordEdgesEndNoSpace(s: string)
    requires WordEdges(s)
    ensures s == [] || !IsSpace(s[|s| - 1])
  {
  }

  /**
   * `cleanEntityName`: 'Unknown' for a missing or empty name, otherwise an
   * upper-case name with single spaces that begins and ends with a word
   * character (or is empty).
   */
  function CleanEntityName(name: Option<string>): (r: string)
    ensures !Truthy(name) ==> r == "Unknown"
    ensures Truthy(name) ==> IsCleanName(r)
  {
    if !Truthy(name) then "Unknown" else Normalise(name.value)
  }

  lemma {:induction false} UpperOfUpper(s: string)
    requires NoLowerCase(s)
    ensures Upper(s) == s
  {
    forall i | 0 <= i < |s|
      ensures Upper(s)[i] == s[i]
    {
      assert NotLowerAt(s, i);
    }
  }

  /** A clean non-empty name passes through `cleanEntityName` unchanged. */
  lemma {:induction false} CleanNameIsFixed(s: string)
    requires IsCleanName(s) && s != ""
    ensures CleanEntityName(Some(s)) == s
  {
    TrimOfTrimmed(s);
    CollapseSpacesOfCollapsed(s);
    StripNonWordEdgesOfClean(s);
    TrimEndOfTrimmed(s);
    UpperOfUpper(s);
  }

  /** `cleanEntityName` is idempotent on the non-empty names it returns. */
  lemma {:induction false} CleanEntityNameIdempotent(name: Option<string>)
    requires Truthy(name)
    ensures var r := CleanEntityName(name); r != "" ==> CleanEntityName(Some(r)) == r
  {
    var r := CleanEntityName(name);
    if r != "" {
      CleanNameIsFixed(r);
    }
  }

  /** A name with no word character at all is cleaned to the empty string. */
  lemma {:induction false} CleanEntityNameWithoutWordChars(name: string)
    requires name != ""
    requires NoWordChar(name)
    ensures CleanEntityName(Some(name)) == ""
  {
    var t := Trim(name);
    assert NoWordChar(t) by {
      TrimIndex(name);
      FactorKeepsNoWord(name, LeadingSpaces(name), t);
    }
  }

  /**
   * The placeholder for a missing name is not itself a clean name: cleaning
   * it again gives 'UNKNOWN'.
   */
  lemma {:induction false} UnknownIsNotFixed()
    ensures CleanEntityName(None) == "Unknown"
    ensures CleanEntityName(Some(CleanEntityName(None))) == "UNKNOWN"
  {
    UnknownShape();
    NormaliseOfSpacedWords("Unknown");
    UnknownUpper();
  }

  lemma {:induction false} UnknownShape()
    ensures OnlyPlainSpaces("Unknown") && NoDoubleSpace("Unknown") && WordEdges("Unknown")
  {
    var u := "Unknown";
    assert forall i :: 0 <= i < |u| ==> IsWordChar(u[i]);
  }

  lemma {:induction false} UnknownUpper()
    ensures Upper("Unknown") == "UNKNOWN"
  {
  }

  /** Normalising only upper-cases a name that is already trimmed and spaced. */
  lemma {:induction false} NormaliseOfSpacedWords(s: string)
    requires OnlyPlainSpaces(s) && NoDoubleSpace(s) && WordEdges(s)
    ensures Normalise(s) == Upper(s)
  {
    TrimOfTrimmed(s);
    CollapseSpacesOfCollapsed(s);
    StripNonWordEdgesOfClean(s);
    TrimEndOfTrimmed(s);
  }
}
