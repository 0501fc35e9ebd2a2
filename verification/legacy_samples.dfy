/**
 * The sample messages of `services/test-mpesa.js` run through the older
 * parser. What the regex engine reports for a sample (which patterns fail,
 * the groups of the one that matches) is a hypothesis; the gate, the
 * dispatch, the amounts, names, dates and times are computed. Long
 * messages are written as concatenations of short pieces, which is the
 * same string.
 */
module LegacySamples {
  import opened JsText
  import opened Amounts
  import EntityNames
  import opened DateTime
  import opened Matching
  import opened Transactions
  import opened LegacyParser
  import opened LegacyProperties

  /** A message that is already trimmed and passes the gate goes to the dispatcher as it stands. */
  lemma {:induction false} CleanMessageDispatched(m: Matcher, s: string, at: Stamp, r: Option<Record>)
    requires s != [] && Trim(s) == s && IsMpesaMessage(s) && Dispatch(m, s, at) == r
    ensures ParseSms(m, Some(s), at) == r
  {
  }

  /** No sent pattern matching, the sent extractor returns nothing. */
  lemma {:induction false} SentMisses(m: Matcher, s: string, at: Stamp)
    requires NoMatch(m, SentPatterns(), s)
    ensures Run(Extractors()[0], m, s, at).None?
  {
  }

  // ---------------------------------------------------------------- the OTP sample

  const OtpSample: string :=
    "Your OTP" + " code is" + " 123456." + " Valid f" + "or 5 min" + "utes."

  /** Where the OTP sample lacks a pair in every piece and across every seam, it lacks it. */
  lemma {:induction false} OtpLacks(x: char, y: char)
    requires !PairFrom("Your OTP", 0, x, y) && !PairFrom(" code is", 0, x, y)
    requires !PairFrom(" 123456.", 0, x, y) && !PairFrom(" Valid f", 0, x, y)
    requires !PairFrom("or 5 min", 0, x, y) && !PairFrom("utes.", 0, x, y)
    requires (x, y) !in {('p', ' '), ('s', ' '), ('.', ' '), ('f', 'o'), ('n', 'u')}
    ensures !PairFrom(OtpSample, 0, x, y)
  {
    var a := "Your OTP" + " code is";
    var b := a + " 123456.";
    var c := b + " Valid f";
    var d := c + "or 5 min";
    if PairFrom(OtpSample, 0, x, y) {
      PairFromSplit(d, "utes.", 0, x, y);
      PairFromSplit(c, "or 5 min", 0, x, y);
      PairFromSplit(b, " Valid f", 0, x, y);
      PairFromSplit(a, " 123456.", 0, x, y);
      PairFromSplit("Your OTP", " code is", 0, x, y);
    }
  }

  lemma {:induction false} OtpLacksConfirmed() ensures !LowerIncludes(OtpSample, "confirmed") {
    OtpLacks('n', 'f');
    NoPairExcludes(OtpSample, "confirmed", 2);
  }

  lemma {:induction false} OtpLacksKsh() ensures !LowerIncludes(OtpSample, "ksh") {
    OtpLacks('k', 's');
    NoPairExcludes(OtpSample, "ksh", 0);
  }

  lemma {:induction false} OtpLacksNewBalance() ensures !LowerIncludes(OtpSample, "new m-pesa balance") {
    OtpLacks('e', 'w');
    NoPairExcludes(OtpSample, "new m-pesa balance", 1);
  }

  lemma {:induction false} OtpLacksTransactionCost() ensures !LowerIncludes(OtpSample, "transaction cost") {
    OtpLacks('t', 'r');
    NoPairExcludes(OtpSample, "transaction cost", 0);
  }

  lemma {:induction false} OtpLacksMpesa() ensures !LowerIncludes(OtpSample, "mpesa") {
    OtpLacks('m', 'p');
    NoPairExcludes(OtpSample, "mpesa", 0);
  }

  lemma {:induction false} OtpLacksSentTo() ensures !LowerIncludes(OtpSample, "sent to") {
    OtpLacks('s', 'e');
    NoPairExcludes(OtpSample, "sent to", 0);
  }

  lemma {:induction false} OtpLacksReceivedFrom() ensures !LowerIncludes(OtpSample, "received from") {
    OtpLacks('r', 'e');
    NoPairExcludes(OtpSample, "received from", 0);
  }

  lemma {:induction false} OtpLacksWithdraw() ensures !LowerIncludes(OtpSample, "withdraw") {
    OtpLacks('w', 'i');
    NoPairExcludes(OtpSample, "withdraw", 0);
  }

  lemma {:induction false} OtpLacksDeposit() ensures !LowerIncludes(OtpSample, "deposit") {
    OtpLacks('e', 'p');
    NoPairExcludes(OtpSample, "deposit", 1);
  }

  /** The OTP sample holds none of the nine indicators. */
  lemma {:induction false} OtpIsNotMpesa()
    ensures !IsMpesaMessage(OtpSample)
  {
    OtpLacksConfirmed();
    OtpLacksKsh();
    OtpLacksNewBalance();
    OtpLacksTransactionCost();
    OtpLacksMpesa();
    OtpLacksSentTo();
    OtpLacksReceivedFrom();
    OtpLacksWithdraw();
    OtpLacksDeposit();
  }

  /** The OTP sample yields nothing, whatever the regex engine would say. */
  lemma {:induction false} OtpYieldsNothing(m: Matcher, at: Stamp)
    ensures ParseSms(m, Some(OtpSample), at).None?
  {
    assert OtpSample[0] == 'Y' && OtpSample[|OtpSample| - 1] == '.';
    TrimOfTrimmed(OtpSample);
    OtpIsNotMpesa();
  }

  // ---------------------------------------------------------------- values of the sample tokens

  lemma {:induction false} Frac00()
    ensures AllDigits("00") && FracValue("00") == 0.0
  {
    assert DigitsValue("00") == 0;
  }

  /** An amount printed with thousands separators and `.00` reads as its value. */
  lemma {:induction false} Value(n: nat)
    ensures ParseAmount(Some(WithThousands(n) + "." + "00")) == n as real
  {
    Frac00();
    AmountRoundTrip(n, "00");
  }

  lemma {:induction false} Numeral500() ensures NatToString(500) == "500" {
    assert NatToString(5) == "5";
    assert NatToString(50) == "50";
  }

  lemma {:induction false} Numeral950() ensures NatToString(950) == "950" {
    assert NatToString(9) == "9";
    assert NatToString(95) == "95";
  }

  lemma {:induction false} Numeral100() ensures NatToString(100) == "100" {
    assert NatToString(1) == "1";
    assert NatToString(10) == "10";
  }

  /** A three-digit group needs no padding. */
  lemma {:induction false} PadThree(n: nat)
    requires |NatToString(n)| == 3
    ensures Pad(n, 3) == NatToString(n)
  {
    assert seq(0, _ => '0') + NatToString(n) == NatToString(n);
  }

  lemma {:induction false} Shows500()
    ensures WithThousands(500) + "." + "00" == "500.00"
  {
    Numeral500();
  }

  lemma {:induction false} Shows100()
    ensures WithThousands(100) + "." + "00" == "100.00"
  {
    Numeral100();
  }

  /** Thousands with a full three-digit group below them. */
  lemma {:induction false} Thousands(hi: nat, lo: nat)
    requires 1 <= hi < 10 && |NatToString(lo)| == 3 && lo < 1000
    ensures WithThousands(hi * 1000 + lo) == NatToString(hi) + "," + NatToString(lo)
  {
    var n := hi * 1000 + lo;
    assert n / 1000 == hi && n % 1000 == lo;
    assert WithThousands(hi) == NatToString(hi);
    PadThree(lo);
  }

  lemma {:induction false} Shows1500()
    ensures WithThousands(1500) + "." + "00" == "1,500.00"
  {
    Numeral500();
    Thousands(1, 500);
    assert NatToString(1) == "1";
    assert WithThousands(1500) == "1,500";
  }

  lemma {:induction false} Shows2500()
    ensures WithThousands(2500) + "." + "00" == "2,500.00"
  {
    Numeral500();
    Thousands(2, 500);
    assert NatToString(2) == "2";
    assert WithThousands(2500) == "2,500";
  }

  lemma {:induction false} Shows1950()
    ensures WithThousands(1950) + "." + "00" == "1,950.00"
  {
    Numeral950();
    Thousands(1, 950);
    assert NatToString(1) == "1";
    assert WithThousands(1950) == "1,950";
  }

  lemma {:induction false} Shows1000()
    ensures WithThousands(1000) + "." + "00" == "1,000.00"
  {
    assert Pad(0, 3) == "000" by {
      assert NatToString(0) == "0";
      assert seq(2, _ => '0') == "00";
    }
    assert WithThousands(1) == "1";
    assert WithThousands(1000) == "1" + "," + "000";
  }

  lemma {:induction false} Amount500(t: string)
    requires t == "500.00"
    ensures ParseAmount(Some(t)) == 500.0
  {
    Value(500);
    Shows500();
  }

  lemma {:induction false} Amount1500(t: string)
    requires t == "1,500.00"
    ensures ParseAmount(Some(t)) == 1500.0
  {
    Value(1500);
    Shows1500();
  }

  lemma {:induction false} Amount2500(t: string)
    requires t == "2,500.00"
    ensures ParseAmount(Some(t)) == 2500.0
  {
    Value(2500);
    Shows2500();
  }

  lemma {:induction false} Amount1000(t: string)
    requires t == "1,000.00"
    ensures ParseAmount(Some(t)) == 1000.0
  {
    Value(1000);
    Shows1000();
  }

  lemma {:induction false} Amount100(t: string)
    requires t == "100.00"
    ensures ParseAmount(Some(t)) == 100.0
  {
    Value(100);
    Shows100();
  }

  lemma {:induction false} Amount1950(t: string)
    requires t == "1,950.00"
    ensures ParseAmount(Some(t)) == 1950.0
  {
    Value(1950);
    Shows1950();
  }

  /** The sample names are already clean. */
  lemma {:induction false} NameKept(t: string)
    requires t == "JOHN DOE" || t == "JANE SMITH"
    ensures CleanEntityName(Some(t)) == t
  {
    assert EntityNames.IsCleanName(t);
    EntityNames.CleanNameIsFixed(t);
    CleanEntityNameAgrees(Some(t));
  }

  /** The sample times are already trimmed and upper-case. */
  lemma {:induction false} TimeKept(t: string, fallback: string)
    requires t == "2:30 PM" || t == "3:45 PM"
    ensures ParseTime(Some(t), fallback) == t
  {
    TrimOfTrimmed(t);
    forall i | 0 <= i < |t|
      ensures Upper(t)[i] == t[i]
    {
    }
    assert Upper(t) == t;
  }

  /**
   * A time at the end of `pre`, with no ':' in `pre` and no digit just
   * before it, is the first time in the text.
   */
  lemma {:induction false} FirstTimeAt(pre: string, post: string, e: nat, fallback: string)
    requires ':' !in pre && (pre == [] || !IsDigit(pre[|pre| - 1]))
    requires TimeAt(pre + post, |pre|) == Some(e)
    ensures |pre| < e && ExtractTimeFromMessage(pre + post, fallback) == Upper(post[..e - |pre|])
  {
    var s := pre + post;
    assert s[|pre|..e] == post[..e - |pre|];
    forall k | 0 <= k < |pre|
      ensures TimeAt(s, k).None?
    {
      NoRunAcrossHead(pre, post, k, ':');
    }
    ExtractTimeLeftmost(s, |pre|, e, fallback);
  }

  /**
   * A run of at most two digits that starts inside `pre`, which ends in a
   * non-digit, stops inside `pre`, on a character other than `sep` when
   * `pre` holds no `sep`.
   */
  lemma {:induction false} NoRunAcrossHead(pre: string, post: string, k: nat, sep: char)
    requires k < |pre| && sep !in pre && !IsDigit(pre[|pre| - 1])
    ensures var s, a := pre + post, DigitRunAt(pre + post, k, 2);
      k + a < |pre| && s[k + a] == pre[k + a] && s[k + a] != sep
  {
    var s := pre + post;
    DigitRunDigits(s, k, 2);
    assert s[|pre| - 1] == pre[|pre| - 1];
    var a := DigitRunAt(s, k, 2);
    assert k + a < |pre|;
    assert s[k + a] == pre[k + a];
  }

  /**
   * A date at the end of `pre`, with no '/' in `pre` and no digit just
   * before it, is the first date in the text.
   */
  lemma {:induction false} FirstDateAt(pre: string, post: string, e: nat, fallback: string)
    requires '/' !in pre && (pre == [] || !IsDigit(pre[|pre| - 1]))
    requires DateAt(pre + post, |pre|) == Some(e)
    ensures |pre| < e && ExtractDateFromMessage(pre + post, fallback) == ParseDate(Some(post[..e - |pre|]), fallback)
  {
    var s := pre + post;
    assert s[|pre|..e] == post[..e - |pre|];
    forall k | 0 <= k < |pre|
      ensures DateAt(s, k).None?
    {
      NoRunAcrossHead(pre, post, k, '/');
    }
    ExtractDateLeftmost(s, |pre|, e, fallback);
  }

  /** A message whose first date token, just after `head`, is 1/6/25 is dated 1 June 2025. */
  lemma {:induction false} DateOfJune(head: string, when: string, tail: string, fallback: string)
    requires '/' !in head && (head == [] || !IsDigit(head[|head| - 1]))
    requires DateAt(head + (when + tail), |head|) == Some(|head| + 6)
    requires |when| >= 6 && when[..6] == "1/6/25"
    ensures ExtractDateFromMessage(head + when + tail, fallback) == "2025-06-01"
  {
    var post := when + tail;
    assert head + when + tail == head + post;
    FirstDateAt(head, post, |head| + 6, fallback);
    assert post[..6] == when[..6];
    ParseDateExample(fallback);
  }

  /** A token `d/d/dd` right after `head`, with no digit after it, is a date token of six characters. */
  lemma {:induction false} ShortDateAt(head: string, when: string, rest: string)
    requires |when| >= 7 && IsDigit(when[0]) && when[1] == '/' && IsDigit(when[2]) && when[3] == '/'
    requires IsDigit(when[4]) && IsDigit(when[5]) && !IsDigit(when[6])
    ensures DateAt(head + (when + rest), |head|) == Some(|head| + 6)
  {
    var s := head + (when + rest);
    var h := |head|;
    assert forall k :: 0 <= k < 7 ==> s[h + k] == when[k];
    assert DigitRunAt(s, h + 1, 1) == 0;
    assert DigitRunAt(s, h, 2) == 1;
    assert DigitRunAt(s, h + 3, 1) == 0;
    assert DigitRunAt(s, h + 2, 2) == 1;
    assert DigitRunAt(s, h + 6, 2) == 0;
    assert DigitRunAt(s, h + 4, 4) == 2;
  }

  /** A token `d:dd PM` right after `head` is a time token of seven characters. */
  lemma {:induction false} ShortTimeAt(head: string, tail: string)
    requires |tail| >= 7 && IsDigit(tail[0]) && tail[1] == ':' && IsDigit(tail[2]) && IsDigit(tail[3])
    requires tail[4] == ' ' && tail[5] == 'P' && tail[6] == 'M'
    ensures TimeAt(head + tail, |head|) == Some(|head| + 7)
  {
    var s := head + tail;
    var h := |head|;
    assert s[h] == tail[0] && s[h + 1] == tail[1] && s[h + 2] == tail[2] && s[h + 3] == tail[3];
    assert s[h + 4] == tail[4] && s[h + 5] == tail[5] && s[h + 6] == tail[6];
    assert DigitRunAt(s, h + 1, 1) == 0;
    assert DigitRunAt(s, h, 2) == 1;
    assert SpaceRunAt(s, h + 5) == 0;
    assert SpaceRunAt(s, h + 4) == 1;
  }

  /** A message whose first time token, just after `head`, is the upper-case `t` shows `t`. */
  lemma {:induction false} TimeShown(head: string, tail: string, t: string, fallback: string)
    requires ':' !in head && (head == [] || !IsDigit(head[|head| - 1]))
    requires TimeAt(head + tail, |head|) == Some(|head| + |t|)
    requires |tail| >= |t| && tail[..|t|] == t && Upper(t) == t
    ensures ExtractTimeFromMessage(head + tail, fallback) == t
  {
    FirstTimeAt(head, tail, |head| + |t|, fallback);
  }

  // ---------------------------------------------------------------- the sent sample

  const SentSample: string :=
    "Confirmed." + " Ksh500.00" + " sent to J" + "OHN DOE 25" + "4712345678" + " on 1/6/25" +
    " at 2:30 P" + "M. New M-P" + "ESA balanc" + "e is Ksh1," + "500.00. Tr" + "ansaction " +
    "cost, Ksh0" + ".00."

  /** What the first sent pattern captures in the sent sample. */
  function SentGroups(): Groups {
    [Some("500.00"), Some("JOHN DOE"), Some("1/6/25"), Some("2:30 PM"), Some("1,500.00")]
  }

  lemma {:induction false} SentTrimmed(s: string) requires s == SentSample ensures Trim(s) == s {
    assert s[0] == 'C' && s[|s| - 1] == '.';
    TrimOfTrimmed(s);
  }

  lemma {:induction false} SentGate(s: string) requires s == SentSample ensures IsMpesaMessage(s) {
    assert s[0] == 'C' && s[1] == 'o' && s[2] == 'n' && s[3] == 'f' && s[4] == 'i';
    assert s[5] == 'r' && s[6] == 'm' && s[7] == 'e' && s[8] == 'd';
    OpensConfirmed(s);
  }

  /** The sent sample goes to the sent extractor, the first one. */
  lemma {:induction false} SentDispatched(m: Matcher, s: string, at: Stamp)
    requires s != [] && Trim(s) == s && IsMpesaMessage(s) && m(SentConfirmed, s).Some?
    ensures ParseSms(m, Some(s), at) == ParseSentMoney(m, s, at)
  {
    SentRuns(m, s, at);
    DispatchFirst(m, s, at, 0);
    CleanMessageDispatched(m, s, at, ParseSentMoney(m, s, at));
  }

  lemma {:induction false} SentRuns(m: Matcher, s: string, at: Stamp)
    requires m(SentConfirmed, s).Some?
    ensures Run(Extractors()[0], m, s, at) == ParseSentMoney(m, s, at)
    ensures ParseSentMoney(m, s, at).Some?
  {
    assert m(SentPatterns()[0], s).Some?;
  }

  lemma {:induction false} SentFirst(m: Matcher, s: string, g: Groups)
    requires m(SentConfirmed, s) == Some(g)
    ensures FirstMatch(m, SentPatterns(), s) == Some((0, g))
  {
    FirstSomeAt(p => m(p, s), SentPatterns(), 0);
  }

  lemma {:induction false} SentAmounts()
    ensures ParseAmount(Group(SentGroups(), 1)) == 500.0
    ensures ParseAmount(Or(Group(SentGroups(), 5), Group(SentGroups(), 3))) == 1500.0
  {
    var g := SentGroups();
    Amount500(g[0].value);
    Amount1500(g[4].value);
  }

  lemma {:induction false} SentWhoWhen(at: Stamp)
    ensures CleanEntityName(Group(SentGroups(), 2)) == "JOHN DOE"
    ensures ParseDate(Group(SentGroups(), 3), at.date) == "2025-06-01"
    ensures ParseTime(Group(SentGroups(), 4), at.time) == "2:30 PM"
  {
    var g := SentGroups();
    NameKept(g[1].value);
    ParseDateExample(at.date);
    TimeKept(g[3].value, at.time);
  }

  /** The fields the sent extractor makes of the groups of the sample. */
  lemma {:induction false} SentFields(m: Matcher, s: string, at: Stamp)
    requires m(SentConfirmed, s) == Some(SentGroups())
    ensures ParseSentMoney(m, s, at) ==
      Some(Record(Sent, 500.0, "JOHN DOE", 1500.0, "2025-06-01", "2:30 PM", s))
  {
    SentFirst(m, s, SentGroups());
    SentAmounts();
    SentWhoWhen(at);
  }

  /**
   * The sent sample is a 'sent' record of 500 to JOHN DOE, balance 1500,
   * dated 1 June 2025 at 2:30 PM.
   */
  lemma {:induction false} SentSampleParsed(m: Matcher, s: string, at: Stamp)
    requires s == SentSample && m(SentConfirmed, s) == Some(SentGroups())
    ensures ParseSms(m, Some(s), at) ==
      Some(Record(Sent, 500.0, "JOHN DOE", 1500.0, "2025-06-01", "2:30 PM", s))
  {
    SentTrimmed(s);
    SentGate(s);
    SentDispatched(m, s, at);
    SentFields(m, s, at);
  }

  // ---------------------------------------------------------------- the received sample

  /** A message that opens with "Confirmed" passes the gate on its first indicator. */
  lemma {:induction false} OpensConfirmed(s: string)
    requires |s| >= 9 && s[0] == 'C' && s[1] == 'o' && s[2] == 'n' && s[3] == 'f' && s[4] == 'i'
    requires s[5] == 'r' && s[6] == 'm' && s[7] == 'e' && s[8] == 'd'
    ensures IsMpesaMessage(s)
  {
    OccursAtChars(s, "confirmed", 0);
    OccursAtGivesIncludes(s, "confirmed", 0);
    assert LowerIncludes(s, Indicators()[0]);
  }

  const ReceivedSample: string :=
    "Confirmed." + " You have " + "received K" + "sh1,000.00" + " from JANE" + " SMITH 254" +
    "798765432 " + "on 1/6/25 " + "at 3:45 PM" + ". New M-PE" + "SA balance" + " is Ksh2,5" +
    "00.00."

  /** What the first received pattern captures in the received sample. */
  function ReceivedGroups(): Groups {
    [Some("1,000.00"), Some("JANE SMITH"), Some("1/6/25"), Some("3:45 PM"), Some("2,500.00")]
  }

  lemma {:induction false} ReceivedTrimmed(s: string) requires s == ReceivedSample ensures Trim(s) == s {
    assert s[0] == 'C' && s[|s| - 1] == '.';
    TrimOfTrimmed(s);
  }

  lemma {:induction false} ReceivedGate(s: string) requires s == ReceivedSample ensures IsMpesaMessage(s) {
    assert s[0] == 'C' && s[1] == 'o' && s[2] == 'n' && s[3] == 'f' && s[4] == 'i';
    assert s[5] == 'r' && s[6] == 'm' && s[7] == 'e' && s[8] == 'd';
    OpensConfirmed(s);
  }

  /** The received sample goes to the received extractor. */
  lemma {:induction false} ReceivedDispatched(m: Matcher, s: string, at: Stamp)
    requires s != [] && Trim(s) == s && IsMpesaMessage(s)
    requires NoMatch(m, SentPatterns(), s) && m(ReceivedConfirmed, s).Some?
    ensures ParseSms(m, Some(s), at) == ParseReceivedMoney(m, s, at)
  {
    ReceivedSecond(m, s, at);
    CleanMessageDispatched(m, s, at, ParseReceivedMoney(m, s, at));
  }

  /** The sent extractor failing and the received one succeeding, the received one decides. */
  lemma {:induction false} ReceivedSecond(m: Matcher, s: string, at: Stamp)
    requires NoMatch(m, SentPatterns(), s) && m(ReceivedConfirmed, s).Some?
    ensures Dispatch(m, s, at) == ParseReceivedMoney(m, s, at)
  {
    SentMisses(m, s, at);
    ReceivedRuns(m, s, at);
    DispatchFirst(m, s, at, 1);
  }

  lemma {:induction false} ReceivedRuns(m: Matcher, s: string, at: Stamp)
    requires m(ReceivedConfirmed, s).Some?
    ensures Run(Extractors()[1], m, s, at) == ParseReceivedMoney(m, s, at)
    ensures ParseReceivedMoney(m, s, at).Some?
  {
    assert Extractors()[1] == ReceivedMoneyParser;
    assert m(ReceivedPatterns()[0], s).Some?;
  }

  lemma {:induction false} ReceivedFirst(m: Matcher, s: string, g: Groups)
    requires m(ReceivedConfirmed, s) == Some(g)
    ensures FirstMatch(m, ReceivedPatterns(), s) == Some((0, g))
  {
    FirstSomeAt(p => m(p, s), ReceivedPatterns(), 0);
  }

  lemma {:induction false} ReceivedAmounts()
    ensures ParseAmount(Group(ReceivedGroups(), 1)) == 1000.0
    ensures ParseAmount(Or(Group(ReceivedGroups(), 5), Group(ReceivedGroups(), 3))) == 2500.0
  {
    var g := ReceivedGroups();
    Amount1000(g[0].value);
    Amount2500(g[4].value);
  }

  lemma {:induction false} ReceivedWhoWhen(at: Stamp)
    ensures CleanEntityName(Group(ReceivedGroups(), 2)) == "JANE SMITH"
    ensures ParseDate(Group(ReceivedGroups(), 3), at.date) == "2025-06-01"
    ensures ParseTime(Group(ReceivedGroups(), 4), at.time) == "3:45 PM"
  {
    var g := ReceivedGroups();
    NameKept(g[1].value);
    ParseDateExample(at.date);
    TimeKept(g[3].value, at.time);
  }

  /** The fields the received extractor makes of the groups of the sample. */
  lemma {:induction false} ReceivedFields(m: Matcher, s: string, at: Stamp)
    requires m(ReceivedConfirmed, s) == Some(ReceivedGroups())
    ensures ParseReceivedMoney(m, s, at) ==
      Some(Record(Received, 1000.0, "JANE SMITH", 2500.0, "2025-06-01", "3:45 PM", s))
  {
    ReceivedFirst(m, s, ReceivedGroups());
    ReceivedAmounts();
    ReceivedWhoWhen(at);
  }

  /**
   * The received sample, on which no sent pattern matches, is a 'received'
   * record of 1000 from JANE SMITH, balance 2500, dated 1 June 2025 at 3:45 PM.
   */
  lemma {:induction false} ReceivedSampleParsed(m: Matcher, s: string, at: Stamp)
    requires s == ReceivedSample && NoMatch(m, SentPatterns(), s)
    requires m(ReceivedConfirmed, s) == Some(ReceivedGroups())
    ensures ParseSms(m, Some(s), at) ==
      Some(Record(Received, 1000.0, "JANE SMITH", 2500.0, "2025-06-01", "3:45 PM", s))
  {
    ReceivedTrimmed(s);
    ReceivedGate(s);
    ReceivedDispatched(m, s, at);
    ReceivedFields(m, s, at);
  }

  // ---------------------------------------------------------------- the airtime sample

  const AirtimeHead: string := "Confirmed." + " Ksh100.00" + " airtime f" + "or 2547123" + "45678 on "
  const AirtimeWhen: string := "1/6/25 at "
  const AirtimeTime: string := "6:00 PM"
  const AirtimeRest: string :=
    ". New M-PE" + "SA balance" + " is Ksh1,9" + "50.00. Tra" + "nsaction c" + "ost, Ksh0." + "00."
  const AirtimeTail: string := AirtimeTime + AirtimeRest
  const AirtimeSample: string := AirtimeHead + AirtimeWhen + AirtimeTail

  /** The airtime sample's only date starts just after its head. */
  lemma {:induction false} AirtimeDateAt()
    ensures |AirtimeHead| == 49 && '/' !in AirtimeHead && !IsDigit(AirtimeHead[48])
    ensures DateAt(AirtimeHead + (AirtimeWhen + AirtimeTail), 49) == Some(55)
  {
    AirtimeHeadShape();
    ShortDateAt(AirtimeHead, AirtimeWhen, AirtimeTail);
  }

  lemma {:induction false} AirtimeHeadShape()
    ensures |AirtimeHead| == 49 && '/' !in AirtimeHead && !IsDigit(AirtimeHead[48])
  {
  }

  lemma {:induction false} AirtimeDateFound(s: string, fallback: string)
    requires s == AirtimeSample
    ensures ExtractDateFromMessage(s, fallback) == "2025-06-01"
  {
    AirtimeDateAt();
    assert AirtimeWhen[..6] == "1/6/25";
    DateOfJune(AirtimeHead, AirtimeWhen, AirtimeTail, fallback);
  }

  /** The airtime sample's first time starts just after its date. */
  lemma {:induction false} AirtimeTimeAt()
    ensures |AirtimeHead + AirtimeWhen| == 59 && ':' !in AirtimeHead + AirtimeWhen
    ensures !IsDigit((AirtimeHead + AirtimeWhen)[58])
    ensures TimeAt(AirtimeHead + AirtimeWhen + AirtimeTail, 59) == Some(66)
    ensures |AirtimeTail| >= 7 && AirtimeTail[..7] == "6:00 PM"
  {
    assert ':' !in AirtimeHead && ':' !in AirtimeWhen;
    assert AirtimeTail[..|AirtimeTime|] == AirtimeTime;
    ShortTimeAt(AirtimeHead + AirtimeWhen, AirtimeTail);
  }

  lemma {:induction false} AirtimeTimeFound(s: string, fallback: string)
    requires s == AirtimeSample
    ensures ExtractTimeFromMessage(s, fallback) == "6:00 PM"
  {
    AirtimeTimeAt();
    TimeShown(AirtimeHead + AirtimeWhen, AirtimeTail, "6:00 PM", fallback);
  }

  lemma {:induction false} AirtimeTrimmed(s: string) requires s == AirtimeSample ensures Trim(s) == s {
    assert s[0] == 'C' && s[|s| - 1] == '.';
    TrimOfTrimmed(s);
  }

  lemma {:induction false} AirtimeGate(s: string) requires s == AirtimeSample ensures IsMpesaMessage(s) {
    assert s[0] == 'C' && s[1] == 'o' && s[2] == 'n' && s[3] == 'f' && s[4] == 'i';
    assert s[5] == 'r' && s[6] == 'm' && s[7] == 'e' && s[8] == 'd';
    OpensConfirmed(s);
  }

  /** No sent, received, withdrawal, deposit, buy-goods or pay-bill pattern matches. */
  predicate NoTransferMatch(m: Matcher, s: string) {
    NoMatch(m, SentPatterns(), s) && NoMatch(m, ReceivedPatterns(), s) &&
    NoMatch(m, WithdrawalPatterns(), s) && NoMatch(m, DepositPatterns(), s) &&
    NoMatch(m, BuyGoodsPatterns(), s) && NoMatch(m, PayBillPatterns(), s)
  }

  /** When no transfer pattern matches, the first six extractors return nothing. */
  lemma {:induction false} TransfersMiss(m: Matcher, s: string, at: Stamp)
    requires NoTransferMatch(m, s)
    ensures forall j :: 0 <= j < 6 ==> Run(Extractors()[j], m, s, at).None?
  {
    forall j | 0 <= j < 6
      ensures Run(Extractors()[j], m, s, at).None?
    {
      if j == 0 {
        assert ParseSentMoney(m, s, at).None?;
      } else if j == 1 {
        assert ParseReceivedMoney(m, s, at).None?;
      } else if j == 2 {
        assert ParseWithdrawal(m, s, at).None?;
      } else if j == 3 {
        assert ParseDeposit(m, s, at).None?;
      } else if j == 4 {
        assert ParseBuyGoods(m, s, at).None?;
      } else {
        assert ParsePayBill(m, s, at).None?;
      }
    }
  }

  lemma {:induction false} AirtimeDispatched(m: Matcher, s: string, at: Stamp)
    requires s != [] && Trim(s) == s && IsMpesaMessage(s)
    requires NoTransferMatch(m, s) && m(AirtimeConfirmed, s).Some?
    ensures ParseSms(m, Some(s), at) == ParseAirtime(m, s, at)
  {
    AirtimeSeventh(m, s, at);
    CleanMessageDispatched(m, s, at, ParseAirtime(m, s, at));
  }

  /** The transfer extractors failing and the airtime one succeeding, the airtime one decides. */
  lemma {:induction false} AirtimeSeventh(m: Matcher, s: string, at: Stamp)
    requires NoTransferMatch(m, s) && m(AirtimeConfirmed, s).Some?
    ensures Dispatch(m, s, at) == ParseAirtime(m, s, at)
  {
    TransfersMiss(m, s, at);
    AirtimeRuns(m, s, at);
    DispatchFirst(m, s, at, 6);
  }

  lemma {:induction false} AirtimeRuns(m: Matcher, s: string, at: Stamp)
    requires m(AirtimeConfirmed, s).Some?
    ensures Run(Extractors()[6], m, s, at) == ParseAirtime(m, s, at)
    ensures ParseAirtime(m, s, at).Some?
  {
    assert m(AirtimePatterns()[0], s).Some?;
  }

  lemma {:induction false} AirtimeFields(m: Matcher, s: string, at: Stamp)
    requires s == AirtimeSample && m(AirtimeConfirmed, s) == Some([Some("100.00"), Some("1,950.00")])
    ensures ParseAirtime(m, s, at) ==
      Some(Record(Airtime, 100.0, "Airtime Purchase", 1950.0, "2025-06-01", "6:00 PM", s))
  {
    var g := [Some("100.00"), Some("1,950.00")];
    FirstSomeAt(p => m(p, s), AirtimePatterns(), 0);
    assert ParseAmount(Group(g, 1)) == 100.0 by { Amount100(g[0].value); }
    assert ParseAmount(Group(g, 2)) == 1950.0 by { Amount1950(g[1].value); }
    AirtimeDateFound(s, at.date);
    AirtimeTimeFound(s, at.time);
  }

  /**
   * The airtime sample, on which no transfer pattern matches, is an airtime
   * purchase of 100, balance 1950, with the date and time found in its text.
   */
  lemma {:induction false} AirtimeSampleParsed(m: Matcher, s: string, at: Stamp)
    requires s == AirtimeSample && NoTransferMatch(m, s)
    requires m(AirtimeConfirmed, s) == Some([Some("100.00"), Some("1,950.00")])
    ensures ParseSms(m, Some(s), at) ==
      Some(Record(Airtime, 100.0, "Airtime Purchase", 1950.0, "2025-06-01", "6:00 PM", s))
  {
    AirtimeTrimmed(s);
    AirtimeGate(s);
    AirtimeDispatched(m, s, at);
    AirtimeFields(m, s, at);
  }

  // ---------------------------------------------------------------- the balance sample

  const BalanceHead: string := "Your M-PES" + "A balance " + "is Ksh1,95" + "0.00 as at" + " "
  const BalanceWhen: string := "1/6/25 "
  const BalanceTime: string := "6:30 PM"
  const BalanceTail: string := BalanceTime + "."
  const BalanceSample: string := BalanceHead + BalanceWhen + BalanceTail

  lemma {:induction false} BalanceTrimmed(s: string) requires s == BalanceSample ensures Trim(s) == s {
    assert s[0] == 'Y' && s[|s| - 1] == '.';
    TrimOfTrimmed(s);
  }

  /** A message with "Ksh" somewhere passes the gate on its second indicator. */
  lemma {:induction false} HoldsKsh(s: string, i: nat)
    requires i + 3 <= |s| && s[i] == 'K' && s[i + 1] == 's' && s[i + 2] == 'h'
    ensures IsMpesaMessage(s)
  {
    OccursAtChars(s, "ksh", i);
    OccursAtGivesIncludes(s, "ksh", i);
    assert LowerIncludes(s, Indicators()[1]);
  }

  lemma {:induction false} BalanceGate(s: string) requires s == BalanceSample ensures IsMpesaMessage(s) {
    assert s[23] == 'K' && s[24] == 's' && s[25] == 'h';
    HoldsKsh(s, 23);
  }

  /** The balance sample's date starts just after its head. */
  lemma {:induction false} BalanceDateAt()
    ensures |BalanceHead| == 41 && '/' !in BalanceHead && !IsDigit(BalanceHead[40])
    ensures DateAt(BalanceHead + (BalanceWhen + BalanceTail), 41) == Some(47)
  {
    BalanceHeadShape();
    ShortDateAt(BalanceHead, BalanceWhen, BalanceTail);
  }

  lemma {:induction false} BalanceHeadShape()
    ensures |BalanceHead| == 41 && '/' !in BalanceHead && !IsDigit(BalanceHead[40])
  {
  }

  lemma {:induction false} BalanceDateFound(s: string, fallback: string)
    requires s == BalanceSample
    ensures ExtractDateFromMessage(s, fallback) == "2025-06-01"
  {
    BalanceDateAt();
    assert BalanceWhen[..6] == "1/6/25";
    DateOfJune(BalanceHead, BalanceWhen, BalanceTail, fallback);
  }

  lemma {:induction false} BalanceTimeFound(s: string, fallback: string)
    requires s == BalanceSample
    ensures ExtractTimeFromMessage(s, fallback) == "6:30 PM"
  {
    BalanceTimeAt();
    TimeShown(BalanceHead + BalanceWhen, BalanceTail, "6:30 PM", fallback);
  }

  /** The balance sample's time starts just after its date. */
  lemma {:induction false} BalanceTimeAt()
    ensures |BalanceHead + BalanceWhen| == 48 && ':' !in BalanceHead + BalanceWhen
    ensures !IsDigit((BalanceHead + BalanceWhen)[47])
    ensures TimeAt(BalanceHead + BalanceWhen + BalanceTail, 48) == Some(55)
    ensures |BalanceTail| >= 7 && BalanceTail[..7] == "6:30 PM"
  {
    BalanceHeadShape();
    assert ':' !in BalanceHead && ':' !in BalanceWhen;
    assert BalanceTail[..|BalanceTime|] == BalanceTime;
    ShortTimeAt(BalanceHead + BalanceWhen, BalanceTail);
  }

  /** When no transfer or airtime pattern matches, the first seven extractors return nothing. */
  lemma {:induction false} AllButBalanceMiss(m: Matcher, s: string, at: Stamp)
    requires NoTransferMatch(m, s) && NoMatch(m, AirtimePatterns(), s)
    ensures forall j :: 0 <= j < 7 ==> Run(Extractors()[j], m, s, at).None?
  {
    TransfersMiss(m, s, at);
    assert ParseAirtime(m, s, at).None?;
  }

  lemma {:induction false} BalanceDispatched(m: Matcher, s: string, at: Stamp)
    requires s != [] && Trim(s) == s && IsMpesaMessage(s)
    requires forall j :: 0 <= j < 7 ==> Run(Extractors()[j], m, s, at).None?
    requires ParseBalance(m, s, at).Some?
    ensures ParseSms(m, Some(s), at) == ParseBalance(m, s, at)
  {
    BalanceLast(m, s, at);
    CleanMessageDispatched(m, s, at, ParseBalance(m, s, at));
  }

  /** The first seven extractors failing and the balance one succeeding, the balance one decides. */
  lemma {:induction false} BalanceLast(m: Matcher, s: string, at: Stamp)
    requires forall j :: 0 <= j < 7 ==> Run(Extractors()[j], m, s, at).None?
    requires ParseBalance(m, s, at).Some?
    ensures Dispatch(m, s, at) == ParseBalance(m, s, at)
  {
    assert Extractors()[7] == BalanceParser;
    assert Run(BalanceParser, m, s, at) == ParseBalance(m, s, at);
    DispatchFirst(m, s, at, 7);
  }

  lemma {:induction false} BalanceFields(m: Matcher, s: string, at: Stamp)
    requires s == BalanceSample && m(MpesaBalance, s) == Some([Some("1,950.00")])
    ensures ParseBalance(m, s, at) ==
      Some(Record(BalanceInquiry, 0.0, "Balance Inquiry", 1950.0, "2025-06-01", "6:30 PM", s))
  {
    var g := [Some("1,950.00")];
    FirstSomeAt(p => m(p, s), BalancePatterns(), 0);
    assert ParseAmount(Group(g, 1)) == 1950.0 by { Amount1950(g[0].value); }
    BalanceDateFound(s, at.date);
    BalanceTimeFound(s, at.time);
  }

  /**
   * The balance sample, on which no earlier extractor's pattern matches, is a
   * balance inquiry with balance 1950 and the date and time found in its text.
   */
  lemma {:induction false} BalanceSampleParsed(m: Matcher, s: string, at: Stamp)
    requires s == BalanceSample && NoTransferMatch(m, s) && NoMatch(m, AirtimePatterns(), s)
    requires m(MpesaBalance, s) == Some([Some("1,950.00")])
    ensures ParseSms(m, Some(s), at) ==
      Some(Record(BalanceInquiry, 0.0, "Balance Inquiry", 1950.0, "2025-06-01", "6:30 PM", s))
  {
    BalanceTrimmed(s);
    BalanceGate(s);
    AllButBalanceMiss(m, s, at);
    assert m(BalancePatterns()[0], s).Some?;
    BalanceDispatched(m, s, at);
    BalanceFields(m, s, at);
  }
}
