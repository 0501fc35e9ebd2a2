/**
 * The sent sample of `services/test-mpesa.js` read by the current parser,
 * with the groups its patterns capture in that text taken as hypotheses.
 * The phone number of the sample has twelve digits, so neither of the two
 * confirmed sent patterns can match it, and the generic one decides: its
 * lazy name group stops after one letter, its date group is absent, and
 * its last group is the balance.
 */
module MpesaSamples {
  import opened JsText
  import opened Amounts
  import opened EntityNames
  import opened DateTime
  import opened Matching
  import opened Transactions
  import opened MpesaPatterns
  import opened MpesaParser
  import opened MpesaProperties
  import LegacySamples

  /** What the generic sent pattern captures in the sent sample. */
  function GenericSentGroups(): Groups {
    [Some("500.00"), Some("J"), None, Some("1,500.00")]
  }

  /** The sample opens with 'Confirmed', one of the indicators. */
  lemma {:induction false} SentSampleGate(s: string)
    requires s == LegacySamples.SentSample
    ensures IsMpesaMessage(s)
  {
    assert s[0] == 'C' && s[1] == 'o' && s[2] == 'n' && s[3] == 'f' && s[4] == 'i';
    assert s[5] == 'r' && s[6] == 'm' && s[7] == 'e' && s[8] == 'd';
    OpensConfirmed(s);
  }

  /** A message that opens with "Confirmed" passes the gate on its first indicator. */
  lemma {:induction false} OpensConfirmed(s: string)
    requires |s| >= 9 && s[0] == 'C' && s[1] == 'o' && s[2] == 'n' && s[3] == 'f' && s[4] == 'i'
    requires s[5] == 'r' && s[6] == 'm' && s[7] == 'e' && s[8] == 'd'
    ensures IsMpesaMessage(s)
  {
    OccursAtChars(s, "confirmed", 0);
    OccursAtGivesIncludes(s, "confirmed", 0);
    assert LowerIncludes(s, Indicators()[0]);
  }

  /** The balance token in the time slot is kept as it is. */
  lemma {:induction false} BalanceAsTime(t: string, fallback: string)
    requires t == "1,500.00"
    ensures ParseTime(Some(t), fallback) == t
  {
    TrimOfTrimmed(t);
    forall i | 0 <= i < |t|
      ensures Upper(t)[i] == t[i]
    {
    }
    assert Upper(t) == t;
  }

  /** The one-letter name is already clean. */
  lemma {:induction false} OneLetterName()
    ensures CleanEntityName(Some("J")) == "J"
  {
    assert IsCleanName("J");
    CleanNameIsFixed("J");
  }

  /** The fields the current sent extractor makes of the generic groups. */
  lemma {:induction false} GenericSentFields(m: Matcher, s: string, at: Stamp)
    requires m(SentWithPhone, s).None? && m(SentPochi, s).None?
    requires m(SentAny, s) == Some(GenericSentGroups())
    ensures var r := ParseSentMoney(m, s, at);
      r.Some? && r.value.kind == Sent && r.value.amount == -500.0 && r.value.entity == "J" &&
      r.value.date == at.date && r.value.time == "1,500.00"
  {
    GenericSentHit(m, s);
    var g := GenericSentGroups();
    SentFieldsOf(m, s, at, 2, g);
    GenericGroupsRead();
    BalanceFields(at);
  }

  /** The sent extractor's fields, in terms of the groups of the first match. */
  lemma {:induction false} SentFieldsOf(m: Matcher, s: string, at: Stamp, i: nat, g: Groups)
    requires FirstMatch(m, SentPatterns(), s) == Some((i, g))
    ensures var r := ParseSentMoney(m, s, at);
      r.Some? && r.value.kind == Sent && r.value.amount == -ParseAmount(Group(g, 1)) &&
      r.value.entity == CleanEntityName(Group(g, 2)) &&
      r.value.date == ParseDate(Or(Group(g, 4), Group(g, 3)), at.date) &&
      r.value.time == ParseTime(Or(Group(g, 5), Group(g, 4)), at.time)
  {
  }

  /** The groups the extractor reads out of the generic capture. */
  lemma {:induction false} GenericGroupsRead()
    ensures var g := GenericSentGroups();
      Group(g, 1) == Some("500.00") && Group(g, 2) == Some("J") &&
      Or(Group(g, 4), Group(g, 3)) == Some("1,500.00") && Or(Group(g, 5), Group(g, 4)) == Some("1,500.00")
  {
    var g := GenericSentGroups();
    assert |g| == 4 && g[0] == Some("500.00") && g[1] == Some("J") && g[3] == Some("1,500.00");
  }

  /** Only the generic sent pattern matches, so its groups are the first match. */
  lemma {:induction false} GenericSentHit(m: Matcher, s: string)
    requires m(SentWithPhone, s).None? && m(SentPochi, s).None?
    requires m(SentAny, s) == Some(GenericSentGroups())
    ensures FirstMatch(m, SentPatterns(), s) == Some((2, GenericSentGroups()))
  {
    var pats := SentPatterns();
    assert pats[0] == SentWithPhone && pats[1] == SentPochi && pats[2] == SentAny;
    HitAt(m, pats, s, 2, GenericSentGroups());
  }

  /** The amount, name, date and time the generic groups give. */
  lemma {:induction false} BalanceFields(at: Stamp)
    ensures -ParseAmount(Some("500.00")) == -500.0
    ensures CleanEntityName(Some("J")) == "J"
    ensures ParseDate(Some("1,500.00"), at.date) == at.date
    ensures ParseTime(Some("1,500.00"), at.time) == "1,500.00"
  {
    LegacySamples.Amount500("500.00");
    OneLetterName();
    BalanceAsDate("1,500.00", at.date);
    BalanceAsTime("1,500.00", at.time);
  }

  /** The balance token in the date slot has no slash, so the date falls back. */
  lemma {:induction false} BalanceAsDate(t: string, fallback: string)
    requires t == "1,500.00"
    ensures ParseDate(Some(t), fallback) == fallback
  {
    assert '/' !in t;
    NoSlashDate(t, fallback);
  }

  /**
   * As written, the current parser reads the sent sample as a 'sent' record
   * of -500 to 'J', dated on the fallback date, with the balance '1,500.00'
   * as its time.
   */
  lemma {:induction false} SentSampleAsWritten(m: Matcher, s: string, at: Stamp)
    requires s == LegacySamples.SentSample
    requires m(SentWithPhone, s).None? && m(SentPochi, s).None?
    requires m(SentAny, s) == Some(GenericSentGroups())
    ensures var r := ParseSms(m, Some(s), at);
      r.Some? && r.value.kind == Sent && r.value.amount == -500.0 && r.value.entity == "J" &&
      r.value.date == at.date && r.value.time == "1,500.00"
  {
    LegacySamples.SentTrimmed(s);
    SentSampleGate(s);
    GenericSentParsed(m, s, at);
  }

  /** A trimmed message past the gate on which only the generic sent form matches. */
  lemma {:induction false} GenericSentParsed(m: Matcher, s: string, at: Stamp)
    requires s != [] && Trim(s) == s && IsMpesaMessage(s)
    requires m(SentWithPhone, s).None? && m(SentPochi, s).None?
    requires m(SentAny, s) == Some(GenericSentGroups())
    ensures var r := ParseSms(m, Some(s), at);
      r.Some? && r.value.kind == Sent && r.value.amount == -500.0 && r.value.entity == "J" &&
      r.value.date == at.date && r.value.time == "1,500.00"
  {
    GenericSentFields(m, s, at);
    SentDispatched(m, s, at);
  }

  /** A trimmed message past the gate that the sent extractor accepts is read by it. */
  lemma {:induction false} SentDispatched(m: Matcher, s: string, at: Stamp)
    requires s != [] && Trim(s) == s && IsMpesaMessage(s) && ParseSentMoney(m, s, at).Some?
    ensures ParseSms(m, Some(s), at) == ParseSentMoney(m, s, at)
  {
    assert Extractors()[0] == SentMoneyParser;
    DispatchFirst(m, s, at, 0);
  }
}
