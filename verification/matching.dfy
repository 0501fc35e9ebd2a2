/**
 * The regular-expression side of the parser. The JavaScript regex engine is
 * not modelled: a matcher is an abstract function from a pattern and a
 * message to the capture groups of the first match, and what every real
 * match of a pattern guarantees is written down as the pattern's group
 * shape and its literal keywords. Also the "try the alternatives in order,
 * keep the first that succeeds" search both the extractors and the
 * dispatcher use.
 */
module Matching {
  import opened JsText
  import opened Amounts
  import opened DateTime

  /** `match[1..]`: `None` is a group that took no part in the match (`undefined`). */
  type Groups = seq<Option<string>>

  /** The languages of the capture groups that occur in the patterns. */
  datatype Kind =
    | AmountKind       // [\d,]+\.?\d*
    | DateKind         // \d{1,2}\/\d{1,2}\/\d{2,4}
    | TimeKind         // \d{1,2}:\d{2}\s*[ap]m
    | PhoneKind        // \d{10}
    | AccountKind      // \d+
    | NoDigitKind      // [^0-9]+?
    | NoDigitLineKind  // [^0-9\n]+?
    | NoDotKind        // [^.]+?
    | NoCommaKind      // [^,]+
    | SchemeKind       // fixed|target

  predicate FitsKind(k: Kind, s: string) {
    match k
    case AmountKind => AmountToken(s)
    case DateKind => DateToken(s)
    case TimeKind => TimeToken(s)
    case PhoneKind => |s| == 10 && AllDigits(s)
    case AccountKind => |s| >= 1 && AllDigits(s)
    case NoDigitKind => |s| >= 1 && forall i :: 0 <= i < |s| ==> !IsDigit(s[i])
    case NoDigitLineKind => |s| >= 1 && forall i :: 0 <= i < |s| ==> !IsDigit(s[i]) && s[i] != '\n'
    case NoDotKind => |s| >= 1 && '.' !in s
    case NoCommaKind => |s| >= 1 && ',' !in s
    case SchemeKind => Lower(s) == "fixed" || Lower(s) == "target"
  }

  /** A capture group that always takes part, or one inside an optional part. */
  datatype Slot = Req(kind: Kind) | Opt(kind: Kind)

  predicate FitsSlot(slot: Slot, g: Option<string>) {
    match g
    case None => slot.Opt?
    case Some(s) => FitsKind(slot.kind, s)
  }

  /** The groups of a match agree in number and language with the pattern's groups. */
  predicate Fits(groups: Groups, shape: seq<Slot>) {
    |groups| == |shape| && forall k :: 0 <= k < |groups| ==> FitsSlot(shape[k], groups[k])
  }

  /** `match[k]` for `k >= 1`: `undefined` past the last group. */
  function Group(groups: Groups, k: nat): (r: Option<string>)
    ensures 1 <= k <= |groups| ==> r == groups[k - 1]
    ensures k == 0 || k > |groups| ==> r.None?
  {
    if 1 <= k <= |groups| then groups[k - 1] else None
  }

  /** Group `k` of a match whose pattern has a required group of kind `kind` there. */
  lemma {:induction false} RequiredGroup(groups: Groups, shape: seq<Slot>, k: nat, kind: Kind)
    requires Fits(groups, shape)
    requires 1 <= k <= |shape| && shape[k - 1] == Req(kind)
    ensures Group(groups, k).Some? && FitsKind(kind, Group(groups, k).value)
  {
    assert FitsSlot(shape[k - 1], groups[k - 1]);
  }

  /** Group `k` of a match whose pattern has an optional group of kind `kind` there. */
  lemma {:induction false} OptionalGroup(groups: Groups, shape: seq<Slot>, k: nat, kind: Kind)
    requires Fits(groups, shape)
    requires 1 <= k <= |shape| && shape[k - 1] == Opt(kind)
    ensures Group(groups, k).Some? ==> FitsKind(kind, Group(groups, k).value)
  {
    assert FitsSlot(shape[k - 1], groups[k - 1]);
  }

  /**
   * The first alternative, in order, for which `f` succeeds, with its
   * position: the `for ... of` loop that returns on the first match, and the
   * `a || b || ...` chain of the dispatcher.
   */
  function FirstSome<P, R>(f: P -> Option<R>, ps: seq<P>): (r: Option<(nat, R)>)
    ensures r.Some? ==> r.value.0 < |ps| && f(ps[r.value.0]) == Some(r.value.1)
    ensures r.Some? ==> forall j :: 0 <= j < r.value.0 ==> f(ps[j]).None?
    ensures r.None? <==> forall j :: 0 <= j < |ps| ==> f(ps[j]).None?
  {
    FirstSomeFrom(f, ps, 0)
  }

  /** The first alternative at or after position `i` for which `f` succeeds. */
  function FirstSomeFrom<P, R>(f: P -> Option<R>, ps: seq<P>, i: nat): (r: Option<(nat, R)>)
    requires i <= |ps|
    ensures r.Some? ==> i <= r.value.0 < |ps| && f(ps[r.value.0]) == Some(r.value.1)
    ensures r.Some? ==> forall j :: i <= j < r.value.0 ==> f(ps[j]).None?
    ensures r.None? <==> forall j :: i <= j < |ps| ==> f(ps[j]).None?
    decreases |ps| - i
  {
    if i == |ps| then None
    else match f(ps[i])
      case Some(x) => Some((i, x))
      case None => FirstSomeFrom(f, ps, i + 1)
  }

  /** The first success is the one at position `i` when all before it fail. */
  lemma {:induction false} FirstSomeAt<P, R>(f: P -> Option<R>, ps: seq<P>, i: nat)
    requires i < |ps| && f(ps[i]).Some?
    requires forall j :: 0 <= j < i ==> f(ps[j]).None?
    ensures FirstSome(f, ps) == Some((i, f(ps[i]).value))
  {
    var r := FirstSome(f, ps);
    assert r.Some?;
  }
}
