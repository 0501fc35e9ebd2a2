/**
 * Which capture group each field of a record comes from, pattern by pattern.
 * The extractors of `services/SmsParser.js` read fixed group numbers (for
 * instance `match[4] || match[3]` for the date of a sent transfer) whatever
 * pattern matched, so for the patterns whose groups are numbered otherwise a
 * field holds another field's text or the received-at fallback. These lemmas
 * state what each field then is.
 */
module MpesaFields {
  import opened JsText
  import opened Amounts
  import opened EntityNames
  import opened DateTime
  import opened Matching
  import opened Transactions
  import opened MpesaPatterns
  import opened MpesaParser
  import opened MpesaProperties

  /** Group `k` of the first match of `pats` is a required group of kind `kind`. */
  lemma {:induction false} FirstRequired(m: Matcher, pats: seq<Pat>, message: string, k: nat, kind: Kind)
    requires ShapesConform(m) && FirstMatch(m, pats, message).Some?
    requires var i := FirstMatch(m, pats, message).value.0;
      i < |pats| && 1 <= k <= |Shape(pats[i])| && Shape(pats[i])[k - 1] == Req(kind)
    ensures var g := FirstMatch(m, pats, message).value.1;
      Group(g, k).Some? && FitsKind(kind, Group(g, k).value)
  {
    var (i, g) := FirstMatch(m, pats, message).value;
    HitGroups(m, pats, message);
    assert MatchFits(m, pats[i], message);
    RequiredGroup(g, Shape(pats[i]), k, kind);
  }

  /** Group `k` of the first match of `pats` lies past the pattern's last group. */
  lemma {:induction false} FirstAbsent(m: Matcher, pats: seq<Pat>, message: string, k: nat)
    requires ShapesConform(m) && FirstMatch(m, pats, message).Some?
    requires var i := FirstMatch(m, pats, message).value.0; i < |pats| && |Shape(pats[i])| < k
    ensures Group(FirstMatch(m, pats, message).value.1, k).None?
  {
    var (i, g) := FirstMatch(m, pats, message).value;
    HitGroups(m, pats, message);
    assert MatchFits(m, pats[i], message);
  }

  /** Group `k` of the first match of `pats`, an optional group of kind `kind`. */
  lemma {:induction false} FirstOptional(m: Matcher, pats: seq<Pat>, message: string, k: nat, kind: Kind)
    requires ShapesConform(m) && FirstMatch(m, pats, message).Some?
    requires var i := FirstMatch(m, pats, message).value.0;
      i < |pats| && 1 <= k <= |Shape(pats[i])| && Shape(pats[i])[k - 1] == Opt(kind)
    ensures var g := FirstMatch(m, pats, message).value.1;
      Group(g, k).Some? ==> FitsKind(kind, Group(g, k).value)
  {
    var (i, g) := FirstMatch(m, pats, message).value;
    HitGroups(m, pats, message);
    assert MatchFits(m, pats[i], message);
    OptionalGroup(g, Shape(pats[i]), k, kind);
  }

  /** 'fixed' or 'target' read as a date gives the fallback. */
  lemma {:induction false} SchemeAsDate(s: string, fallback: string)
    requires FitsKind(SchemeKind, s)
    ensures ParseDate(Some(s), fallback) == fallback
  {
    forall i | 0 <= i < |s|
      ensures s[i] != '/'
    {
      assert Lower(s)[i] == LowerChar(s[i]);
      assert Lower(s)[i] in Lower(s);
    }
    NoSlashDate(s, fallback);
  }

  // ---------------------------------------------------------------- sent and received

  /** The standard sent form reads the amount, name, date and time groups. */
  lemma {:induction false} SentStandardDateTime(m: Matcher, message: string, at: Stamp)
    requires ShapesConform(m) && FirstMatch(m, SentPatterns(), message).Some?
    requires FirstMatch(m, SentPatterns(), message).value.0 == 0
    ensures var g := FirstMatch(m, SentPatterns(), message).value.1;
      var r := ParseSentMoney(m, message, at).value;
      Group(g, 4).Some? && DateToken(Group(g, 4).value) && r.date == ParseDate(Group(g, 4), at.date) &&
      Group(g, 5).Some? && TimeToken(Group(g, 5).value) && r.time == Upper(Group(g, 5).value) &&
      r.amount == -ParseAmount(Group(g, 1)) && r.entity == CleanEntityName(Group(g, 2))
  {
    var g := FirstMatch(m, SentPatterns(), message).value.1;
    FirstRequired(m, SentPatterns(), message, 4, DateKind);
    FirstRequired(m, SentPatterns(), message, 5, TimeKind);
    ParseTimeOfToken(Group(g, 5).value, at.time);
  }

  /**
   * The Pochi form has no phone number and so one group fewer: the time
   * group is read as the date, which falls back, and as the time.
   */
  lemma {:induction false} SentPochiDateTime(m: Matcher, message: string, at: Stamp)
    requires ShapesConform(m) && FirstMatch(m, SentPatterns(), message).Some?
    requires FirstMatch(m, SentPatterns(), message).value.0 == 1
    ensures var g := FirstMatch(m, SentPatterns(), message).value.1;
      var r := ParseSentMoney(m, message, at).value;
      r.date == at.date &&
      Group(g, 4).Some? && TimeToken(Group(g, 4).value) && r.time == Upper(Group(g, 4).value)
  {
    var g := FirstMatch(m, SentPatterns(), message).value.1;
    FirstRequired(m, SentPatterns(), message, 4, TimeKind);
    FirstAbsent(m, SentPatterns(), message, 5);
    TimeTokenAsDate(Group(g, 4).value, at.date);
    ParseTimeOfToken(Group(g, 4).value, at.time);
  }

  /** The generic sent form reads the balance amount as the date, which falls back, and as the time. */
  lemma {:induction false} SentGenericDateTime(m: Matcher, message: string, at: Stamp)
    requires ShapesConform(m) && FirstMatch(m, SentPatterns(), message).Some?
    requires FirstMatch(m, SentPatterns(), message).value.0 == 2
    ensures var g := FirstMatch(m, SentPatterns(), message).value.1;
      var r := ParseSentMoney(m, message, at).value;
      r.date == at.date && AmountToken(r.time) && Group(g, 4) == Some(r.time)
  {
    var g := FirstMatch(m, SentPatterns(), message).value.1;
    FirstRequired(m, SentPatterns(), message, 4, AmountKind);
    FirstAbsent(m, SentPatterns(), message, 5);
    AmountTokenChars(Group(g, 4).value);
    AmountTokenAsDate(Group(g, 4).value, at.date);
    AmountTokenAsTime(Group(g, 4).value, at.time);
  }

  /** The standard received form reads the date and time groups. */
  lemma {:induction false} ReceivedStandardDateTime(m: Matcher, message: string, at: Stamp)
    requires ShapesConform(m) && FirstMatch(m, ReceivedPatterns(), message).Some?
    requires FirstMatch(m, ReceivedPatterns(), message).value.0 == 0
    ensures var g := FirstMatch(m, ReceivedPatterns(), message).value.1;
      var r := ParseReceivedMoney(m, message, at).value;
      Group(g, 4).Some? && DateToken(Group(g, 4).value) && r.date == ParseDate(Group(g, 4), at.date) &&
      Group(g, 5).Some? && TimeToken(Group(g, 5).value) && r.time == Upper(Group(g, 5).value)
  {
    var g := FirstMatch(m, ReceivedPatterns(), message).value.1;
    FirstRequired(m, ReceivedPatterns(), message, 4, DateKind);
    FirstRequired(m, ReceivedPatterns(), message, 5, TimeKind);
    ParseTimeOfToken(Group(g, 5).value, at.time);
  }

  /**
   * The received form without a phone number has one group fewer: the time
   * group is read as the date, which falls back, and as the time.
   */
  lemma {:induction false} ReceivedNoPhoneDateTime(m: Matcher, message: string, at: Stamp)
    requires ShapesConform(m) && FirstMatch(m, ReceivedPatterns(), message).Some?
    requires FirstMatch(m, ReceivedPatterns(), message).value.0 == 1
    ensures var g := FirstMatch(m, ReceivedPatterns(), message).value.1;
      var r := ParseReceivedMoney(m, message, at).value;
      r.date == at.date &&
      Group(g, 4).Some? && TimeToken(Group(g, 4).value) && r.time == Upper(Group(g, 4).value)
  {
    var g := FirstMatch(m, ReceivedPatterns(), message).value.1;
    FirstRequired(m, ReceivedPatterns(), message, 4, TimeKind);
    FirstAbsent(m, ReceivedPatterns(), message, 5);
    TimeTokenAsDate(Group(g, 4).value, at.date);
    ParseTimeOfToken(Group(g, 4).value, at.time);
  }

  /** The generic received form reads the balance amount as the date: both fall back. */
  lemma {:induction false} ReceivedGenericDateTime(m: Matcher, message: string, at: Stamp)
    requires ShapesConform(m) && FirstMatch(m, ReceivedPatterns(), message).Some?
    requires FirstMatch(m, ReceivedPatterns(), message).value.0 == 2
    ensures var r := ParseReceivedMoney(m, message, at).value;
      r.date == at.date && r.time == at.time
  {
    var g := FirstMatch(m, ReceivedPatterns(), message).value.1;
    FirstRequired(m, ReceivedPatterns(), message, 3, AmountKind);
    FirstAbsent(m, ReceivedPatterns(), message, 4);
    FirstAbsent(m, ReceivedPatterns(), message, 5);
    AmountTokenChars(Group(g, 3).value);
    AmountTokenAsDate(Group(g, 3).value, at.date);
  }

  // ---------------------------------------------------------------- payments

  /** The standard buy-goods form reads the date and time groups. */
  lemma {:induction false} BuyGoodsStandardDateTime(m: Matcher, message: string, at: Stamp)
    requires ShapesConform(m) && FirstMatch(m, BuyGoodsPatterns(), message).Some?
    requires FirstMatch(m, BuyGoodsPatterns(), message).value.0 == 0
    ensures var g := FirstMatch(m, BuyGoodsPatterns(), message).value.1;
      var r := ParseBuyGoods(m, message, at).value;
      Group(g, 3).Some? && DateToken(Group(g, 3).value) && r.date == ParseDate(Group(g, 3), at.date) &&
      Group(g, 4).Some? && TimeToken(Group(g, 4).value) && r.time == Upper(Group(g, 4).value)
  {
    var g := FirstMatch(m, BuyGoodsPatterns(), message).value.1;
    FirstRequired(m, BuyGoodsPatterns(), message, 3, DateKind);
    FirstRequired(m, BuyGoodsPatterns(), message, 4, TimeKind);
    ParseTimeOfToken(Group(g, 4).value, at.time);
  }

  /** The generic buy-goods form reads the balance amount as the date: both fall back. */
  lemma {:induction false} BuyGoodsGenericDateTime(m: Matcher, message: string, at: Stamp)
    requires ShapesConform(m) && FirstMatch(m, BuyGoodsPatterns(), message).Some?
    requires FirstMatch(m, BuyGoodsPatterns(), message).value.0 == 1
    ensures var r := ParseBuyGoods(m, message, at).value;
      r.date == at.date && r.time == at.time
  {
    var g := FirstMatch(m, BuyGoodsPatterns(), message).value.1;
    FirstRequired(m, BuyGoodsPatterns(), message, 3, AmountKind);
    FirstAbsent(m, BuyGoodsPatterns(), message, 4);
    AmountTokenChars(Group(g, 3).value);
    AmountTokenAsDate(Group(g, 3).value, at.date);
  }

  /** The standard pay-bill form reads the account number, date and time groups. */
  lemma {:induction false} PayBillStandardFields(m: Matcher, message: string, at: Stamp)
    requires ShapesConform(m) && FirstMatch(m, PayBillPatterns(), message).Some?
    requires FirstMatch(m, PayBillPatterns(), message).value.0 == 0
    ensures var g := FirstMatch(m, PayBillPatterns(), message).value.1;
      var r := ParsePayBill(m, message, at).value;
      r.accountNumber.Some? && r.accountNumber.value != "" && AllDigits(r.accountNumber.value) &&
      Group(g, 4).Some? && DateToken(Group(g, 4).value) && r.date == ParseDate(Group(g, 4), at.date) &&
      Group(g, 5).Some? && TimeToken(Group(g, 5).value) && r.time == Upper(Group(g, 5).value)
  {
    var g := FirstMatch(m, PayBillPatterns(), message).value.1;
    FirstRequired(m, PayBillPatterns(), message, 3, AccountKind);
    FirstRequired(m, PayBillPatterns(), message, 4, DateKind);
    FirstRequired(m, PayBillPatterns(), message, 5, TimeKind);
    ParseTimeOfToken(Group(g, 5).value, at.time);
  }

  /**
   * The generic pay-bill form's third group is the balance amount: it is
   * recorded as the account number; date and time fall back.
   */
  lemma {:induction false} PayBillGenericFields(m: Matcher, message: string, at: Stamp)
    requires ShapesConform(m) && FirstMatch(m, PayBillPatterns(), message).Some?
    requires FirstMatch(m, PayBillPatterns(), message).value.0 == 1
    ensures var r := ParsePayBill(m, message, at).value;
      r.accountNumber.Some? && AmountToken(r.accountNumber.value) &&
      r.date == at.date && r.time == at.time
  {
    FirstRequired(m, PayBillPatterns(), message, 3, AmountKind);
    FirstAbsent(m, PayBillPatterns(), message, 4);
    FirstAbsent(m, PayBillPatterns(), message, 5);
  }

  /** The standard airtime form reads the date and time groups. */
  lemma {:induction false} AirtimeStandardDateTime(m: Matcher, message: string, at: Stamp)
    requires ShapesConform(m) && FirstMatch(m, AirtimePatterns(), message).Some?
    requires FirstMatch(m, AirtimePatterns(), message).value.0 == 0
    ensures var g := FirstMatch(m, AirtimePatterns(), message).value.1;
      var r := ParseAirtime(m, message, at).value;
      Group(g, 2).Some? && DateToken(Group(g, 2).value) && r.date == ParseDate(Group(g, 2), at.date) &&
      Group(g, 3).Some? && TimeToken(Group(g, 3).value) && r.time == Upper(Group(g, 3).value)
  {
    var g := FirstMatch(m, AirtimePatterns(), message).value.1;
    FirstRequired(m, AirtimePatterns(), message, 2, DateKind);
    FirstRequired(m, AirtimePatterns(), message, 3, TimeKind);
    ParseTimeOfToken(Group(g, 3).value, at.time);
  }

  /** The generic airtime form reads the balance amount as the date: both fall back. */
  lemma {:induction false} AirtimeGenericDateTime(m: Matcher, message: string, at: Stamp)
    requires ShapesConform(m) && FirstMatch(m, AirtimePatterns(), message).Some?
    requires FirstMatch(m, AirtimePatterns(), message).value.0 == 1
    ensures var r := ParseAirtime(m, message, at).value;
      r.date == at.date && r.time == at.time
  {
    var g := FirstMatch(m, AirtimePatterns(), message).value.1;
    FirstRequired(m, AirtimePatterns(), message, 2, AmountKind);
    FirstAbsent(m, AirtimePatterns(), message, 3);
    AmountTokenChars(Group(g, 2).value);
    AmountTokenAsDate(Group(g, 2).value, at.date);
  }

  // ---------------------------------------------------------------- cash

  /** The standard withdrawal form: balance and cost from their groups, date and time when present. */
  lemma {:induction false} WithdrawalStandardFields(m: Matcher, message: string, at: Stamp)
    requires ShapesConform(m) && FirstMatch(m, WithdrawalPatterns(), message).Some?
    requires FirstMatch(m, WithdrawalPatterns(), message).value.0 == 0
    ensures var g := FirstMatch(m, WithdrawalPatterns(), message).value.1;
      var r := ParseWithdrawal(m, message, at).value;
      Group(g, 5).Some? && AmountToken(Group(g, 5).value) && r.balance == ParseAmount(Group(g, 5)) &&
      r.balance >= 0.0 && r.transactionCost == OrNum(ParseAmount(Group(g, 6)), ExtractTransactionCost(m, message)) &&
      (Group(g, 3).None? ==> r.date == at.date) && (Group(g, 4).None? ==> r.time == at.time)
  {
    var g := FirstMatch(m, WithdrawalPatterns(), message).value.1;
    FirstRequired(m, WithdrawalPatterns(), message, 5, AmountKind);
    FirstRequired(m, WithdrawalPatterns(), message, 6, AmountKind);
    AmountTokenChars(Group(g, 5).value);
    AmountTokenChars(Group(g, 6).value);
    ParseAmountOfToken(Group(g, 5).value);
  }

  /**
   * The generic withdrawal form has no date or time groups: the balance
   * amount is read as the date, which falls back, and the cost amount as the
   * time.
   */
  lemma {:induction false} WithdrawalGenericFields(m: Matcher, message: string, at: Stamp)
    requires ShapesConform(m) && FirstMatch(m, WithdrawalPatterns(), message).Some?
    requires FirstMatch(m, WithdrawalPatterns(), message).value.0 == 1
    ensures var g := FirstMatch(m, WithdrawalPatterns(), message).value.1;
      var r := ParseWithdrawal(m, message, at).value;
      r.balance == ParseAmount(Group(g, 3)) && r.date == at.date &&
      AmountToken(r.time) && Group(g, 4) == Some(r.time)
  {
    var g := FirstMatch(m, WithdrawalPatterns(), message).value.1;
    FirstRequired(m, WithdrawalPatterns(), message, 3, AmountKind);
    FirstRequired(m, WithdrawalPatterns(), message, 4, AmountKind);
    FirstAbsent(m, WithdrawalPatterns(), message, 5);
    AmountTokenChars(Group(g, 3).value);
    AmountTokenAsDate(Group(g, 3).value, at.date);
    AmountTokenAsTime(Group(g, 4).value, at.time);
  }

  /** The standard deposit form names the agent group and reads the balance group. */
  lemma {:induction false} DepositStandardFields(m: Matcher, message: string, at: Stamp)
    requires ShapesConform(m) && FirstMatch(m, DepositPatterns(), message).Some?
    requires FirstMatch(m, DepositPatterns(), message).value.0 == 0
    ensures var g := FirstMatch(m, DepositPatterns(), message).value.1;
      var r := ParseDeposit(m, message, at).value;
      r.entity == CleanEntityName(Group(g, 2)) && r.balance == ParseAmount(Group(g, 5)) &&
      (Group(g, 3).None? ==> r.date == at.date) && (Group(g, 4).None? ==> r.time == at.time)
  {
    var g := FirstMatch(m, DepositPatterns(), message).value.1;
    FirstRequired(m, DepositPatterns(), message, 2, NoDigitLineKind);
    FirstRequired(m, DepositPatterns(), message, 5, AmountKind);
    AmountTokenChars(Group(g, 5).value);
  }

  /**
   * The generic deposit form has no agent group: its second group, the
   * balance amount, is both the balance and (cleaned) the entity; the cost
   * amount is read as the date, which falls back, and the time falls back.
   */
  lemma {:induction false} DepositGenericFields(m: Matcher, message: string, at: Stamp)
    requires ShapesConform(m) && FirstMatch(m, DepositPatterns(), message).Some?
    requires FirstMatch(m, DepositPatterns(), message).value.0 == 1
    ensures var g := FirstMatch(m, DepositPatterns(), message).value.1;
      var r := ParseDeposit(m, message, at).value;
      Group(g, 2).Some? && AmountToken(Group(g, 2).value) &&
      r.entity == CleanEntityName(Group(g, 2)) && r.balance == ParseAmount(Group(g, 2)) &&
      r.date == at.date && r.time == at.time
  {
    var g := FirstMatch(m, DepositPatterns(), message).value.1;
    FirstRequired(m, DepositPatterns(), message, 2, AmountKind);
    FirstRequired(m, DepositPatterns(), message, 3, AmountKind);
    FirstAbsent(m, DepositPatterns(), message, 4);
    FirstAbsent(m, DepositPatterns(), message, 5);
    AmountTokenChars(Group(g, 2).value);
    AmountTokenChars(Group(g, 3).value);
    AmountTokenAsDate(Group(g, 3).value, at.date);
  }

  // ---------------------------------------------------------------- savings

  /** The three confirmed M-Shwari forms read the date and time groups. */
  lemma {:induction false} MshwariConfirmedDateTime(m: Matcher, message: string, at: Stamp)
    requires ShapesConform(m) && FirstMatch(m, MshwariPatterns(), message).Some?
    requires FirstMatch(m, MshwariPatterns(), message).value.0 < 3
    ensures var g := FirstMatch(m, MshwariPatterns(), message).value.1;
      var r := ParseMshwariTransfer(m, message, at).value;
      Group(g, 2).Some? && DateToken(Group(g, 2).value) && r.date == ParseDate(Group(g, 2), at.date) &&
      Group(g, 3).Some? && TimeToken(Group(g, 3).value) && r.time == Upper(Group(g, 3).value)
  {
    var g := FirstMatch(m, MshwariPatterns(), message).value.1;
    FirstRequired(m, MshwariPatterns(), message, 2, DateKind);
    FirstRequired(m, MshwariPatterns(), message, 3, TimeKind);
    ParseTimeOfToken(Group(g, 3).value, at.time);
  }

  /**
   * A transfer into lock savings also says 'transferred to m-shwari', the
   * first keyword tested: it is recorded as an M-Shwari savings deposit.
   */
  lemma {:induction false} ToLockSavingsLabel(m: Matcher, message: string, at: Stamp)
    requires ShapesConform(m) && KeywordsConform(m) && FirstMatch(m, MshwariPatterns(), message).Some?
    requires FirstMatch(m, MshwariPatterns(), message).value.0 == 2
    ensures var r := ParseMshwariTransfer(m, message, at).value;
      r.entity == "M-Shwari Savings" && r.amount <= 0.0
  {
    AmountsComeFirst();
    FirstAmount(m, MshwariPatterns(), message);
    MshwariKeywordAt(m, message, 2);
    MshwariRecord(m, message, at);
  }

  /** The M-Shwari keyword of the pattern at `k` is in a message it matched first. */
  lemma {:induction false} MshwariKeywordAt(m: Matcher, message: string, k: nat)
    requires KeywordsConform(m) && FirstMatch(m, MshwariPatterns(), message).Some?
    requires FirstMatch(m, MshwariPatterns(), message).value.0 == k
    ensures k == 2 ==> LowerIncludes(message, "transferred to m-shwari")
    ensures k == 3 ==> LowerIncludes(message, "lock savings")
  {
    HitGroups(m, MshwariPatterns(), message);
    KeywordOf(m, MshwariPatterns()[k], message, 2);
  }

  /** The amount and entity of an M-Shwari record are those its keywords give the matched amount. */
  lemma {:induction false} MshwariRecord(m: Matcher, message: string, at: Stamp)
    requires FirstMatch(m, MshwariPatterns(), message).Some?
    ensures var g := FirstMatch(m, MshwariPatterns(), message).value.1;
      var r := ParseMshwariTransfer(m, message, at).value;
      var v := ParseAmount(Group(g, 1));
      && (LowerIncludes(message, "transferred to m-shwari") ==> r.amount == -v && r.entity == "M-Shwari Savings")
      && ((!LowerIncludes(message, "transferred to m-shwari") && !LowerIncludes(message, "transferred from m-shwari") &&
           LowerIncludes(message, "lock savings")) ==> r.amount == -v && r.entity == "M-Shwari Lock Savings")
  {
  }

  /**
   * A move out of lock savings (into M-Shwari) carries neither transfer
   * phrase as a rule: it is then recorded as money leaving for lock
   * savings, a negative amount.
   */
  lemma {:induction false} FromLockSavingsLabel(m: Matcher, message: string, at: Stamp)
    requires ShapesConform(m) && KeywordsConform(m) && FirstMatch(m, MshwariPatterns(), message).Some?
    requires FirstMatch(m, MshwariPatterns(), message).value.0 == 3
    requires !LowerIncludes(message, "transferred to m-shwari")
    requires !LowerIncludes(message, "transferred from m-shwari")
    ensures var r := ParseMshwariTransfer(m, message, at).value;
      r.entity == "M-Shwari Lock Savings" && r.amount <= 0.0
  {
    AmountsComeFirst();
    FirstAmount(m, MshwariPatterns(), message);
    MshwariKeywordAt(m, message, 3);
    MshwariRecord(m, message, at);
  }

  /** The lock-savings move has no date or time group: both fall back. */
  lemma {:induction false} FromLockSavingsDateTime(m: Matcher, message: string, at: Stamp)
    requires ShapesConform(m) && FirstMatch(m, MshwariPatterns(), message).Some?
    requires FirstMatch(m, MshwariPatterns(), message).value.0 == 3
    ensures var r := ParseMshwariTransfer(m, message, at).value;
      r.date == at.date && r.time == at.time
  {
    FirstAbsent(m, MshwariPatterns(), message, 2);
    FirstAbsent(m, MshwariPatterns(), message, 3);
  }

  /** A transfer out of KCB M-Pesa is an inflow named 'KCB M-Pesa Withdrawal', dated by its groups. */
  lemma {:induction false} KcbToMpesaFields(m: Matcher, message: string, at: Stamp)
    requires ShapesConform(m) && KeywordsConform(m) && FirstMatch(m, KcbPatterns(), message).Some?
    requires FirstMatch(m, KcbPatterns(), message).value.0 == 0
    ensures var g := FirstMatch(m, KcbPatterns(), message).value.1;
      var r := ParseKcbTransfer(m, message, at).value;
      r.entity == "KCB M-Pesa Withdrawal" && r.amount == ParseAmount(Group(g, 1)) && r.amount >= 0.0 &&
      Group(g, 2).Some? && DateToken(Group(g, 2).value) && r.date == ParseDate(Group(g, 2), at.date) &&
      Group(g, 3).Some? && TimeToken(Group(g, 3).value) && r.time == Upper(Group(g, 3).value)
  {
    var g := FirstMatch(m, KcbPatterns(), message).value.1;
    FirstRequired(m, KcbPatterns(), message, 1, AmountKind);
    AmountTokenChars(Group(g, 1).value);
    FirstRequired(m, KcbPatterns(), message, 2, DateKind);
    FirstRequired(m, KcbPatterns(), message, 3, TimeKind);
    ParseTimeOfToken(Group(g, 3).value, at.time);
    KcbToMpesaKeywords(m, message);
    KcbRecord(m, message, at);
  }

  lemma {:induction false} KcbToMpesaKeywords(m: Matcher, message: string)
    requires KeywordsConform(m) && FirstMatch(m, KcbPatterns(), message).Some?
    requires FirstMatch(m, KcbPatterns(), message).value.0 == 0
    ensures LowerIncludes(message, "transfered") && LowerIncludes(message, "from your kcb")
  {
    HitGroups(m, KcbPatterns(), message);
    KeywordOf(m, KcbToMpesa, message, 2);
    KeywordOf(m, KcbToMpesa, message, 4);
  }

  /** The amount of a KCB record is the first truthy of groups 1, 3 and 4, signed by the keywords. */
  lemma {:induction false} KcbRecord(m: Matcher, message: string, at: Stamp)
    requires FirstMatch(m, KcbPatterns(), message).Some?
    ensures var g := FirstMatch(m, KcbPatterns(), message).value.1;
      var r := ParseKcbTransfer(m, message, at).value;
      var v := ParseAmount(Or(Or(Group(g, 1), Group(g, 3)), Group(g, 4)));
      && (r.amount == v || r.amount == -v)
      && ((LowerIncludes(message, "transfered") && LowerIncludes(message, "from your kcb")) ==>
            r.amount == v && r.entity == "KCB M-Pesa Withdrawal")
      && r.date == ParseDate(Group(g, 2), at.date) && r.time == ParseTime(Group(g, 3), at.time)
  {
  }

  /**
   * The savings forms of KCB start with 'Dear <name>,': group 1 is the
   * customer's name, and it is what is read as the amount (positive or
   * negative); a name without a digit gives 0, unless it spells 'Infinity'.
   */
  lemma {:induction false} KcbSavingsAmount(m: Matcher, message: string, at: Stamp)
    requires ShapesConform(m) && FirstMatch(m, KcbPatterns(), message).Some?
    requires FirstMatch(m, KcbPatterns(), message).value.0 in {1, 2, 3}
    ensures var g := FirstMatch(m, KcbPatterns(), message).value.1;
      var r := ParseKcbTransfer(m, message, at).value;
      Group(g, 1).Some? && ',' !in Group(g, 1).value &&
      (r.amount == ParseAmount(Group(g, 1)) || r.amount == -ParseAmount(Group(g, 1))) &&
      ((forall c :: c in Group(g, 1).value ==> !IsDigit(c)) && !InfinityLiteral(Group(g, 1).value) ==>
        r.amount == 0.0)
  {
    var g := FirstMatch(m, KcbPatterns(), message).value.1;
    var name := Group(g, 1);
    KcbSavingsName(m, message);
    KcbRecord(m, message, at);
    assert Or(Or(name, Group(g, 3)), Group(g, 4)) == name;
    if (forall c :: c in name.value ==> !IsDigit(c)) && !InfinityLiteral(name.value) {
      ParseAmountWithoutDigits(name.value);
    }
  }

  lemma {:induction false} KcbSavingsName(m: Matcher, message: string)
    requires ShapesConform(m) && FirstMatch(m, KcbPatterns(), message).Some?
    requires FirstMatch(m, KcbPatterns(), message).value.0 in {1, 2, 3}
    ensures var g := FirstMatch(m, KcbPatterns(), message).value.1;
      Truthy(Group(g, 1)) && ',' !in Group(g, 1).value
  {
    FirstRequired(m, KcbPatterns(), message, 1, NoCommaKind);
  }

  /**
   * In the opened and unlocked forms of KCB, group 2 ('fixed' or 'target')
   * is read as the date, which falls back, and group 3 (the KES amount) as
   * the time.
   */
  lemma {:induction false} KcbSavingsDateTime(m: Matcher, message: string, at: Stamp)
    requires ShapesConform(m) && FirstMatch(m, KcbPatterns(), message).Some?
    requires FirstMatch(m, KcbPatterns(), message).value.0 in {1, 2}
    ensures var g := FirstMatch(m, KcbPatterns(), message).value.1;
      var r := ParseKcbTransfer(m, message, at).value;
      r.date == at.date && AmountToken(r.time) && Group(g, 3) == Some(r.time)
  {
    var g := FirstMatch(m, KcbPatterns(), message).value.1;
    FirstRequired(m, KcbPatterns(), message, 2, SchemeKind);
    FirstRequired(m, KcbPatterns(), message, 3, AmountKind);
    KcbRecord(m, message, at);
    SchemeAsDate(Group(g, 2).value, at.date);
    AmountTokenAsTime(Group(g, 3).value, at.time);
  }

  /**
   * In the top-up form of KCB the KES amount, group 2, is read as the date,
   * which falls back, as does the time.
   */
  lemma {:induction false} KcbTopUpDateTime(m: Matcher, message: string, at: Stamp)
    requires ShapesConform(m) && FirstMatch(m, KcbPatterns(), message).Some?
    requires FirstMatch(m, KcbPatterns(), message).value.0 == 3
    ensures var r := ParseKcbTransfer(m, message, at).value;
      r.date == at.date && r.time == at.time
  {
    var g := FirstMatch(m, KcbPatterns(), message).value.1;
    FirstRequired(m, KcbPatterns(), message, 2, AmountKind);
    FirstAbsent(m, KcbPatterns(), message, 3);
    KcbRecord(m, message, at);
    AmountTokenChars(Group(g, 2).value);
    AmountTokenAsDate(Group(g, 2).value, at.date);
  }

  // ---------------------------------------------------------------- Fuliza

  /**
   * Every Fuliza record's amounts are unsigned: the loan, the balance, the
   * overdraft balance and the outstanding amount of a charge.
   */
  lemma {:induction false} FulizaAmountsUnsigned(m: Matcher, message: string, at: Stamp)
    requires ShapesConform(m) && FirstMatch(m, FulizaPatterns(), message).Some?
    ensures var r := ParseFuliza(m, message, at).value;
      r.amount >= 0.0 && (r.kind == FulizaLoan ==> r.balance >= 0.0 && r.overdraftBalance.value >= 0.0) &&
      (r.kind == FulizaCharge ==> r.outstandingAmount.value >= 0.0)
  {
    FulizaGroupsUnsigned(m, message);
  }

  lemma {:induction false} FulizaGroupsUnsigned(m: Matcher, message: string)
    requires ShapesConform(m) && FirstMatch(m, FulizaPatterns(), message).Some?
    ensures var g := FirstMatch(m, FulizaPatterns(), message).value.1;
      ParseAmount(Group(g, 1)) >= 0.0 && ParseAmount(Group(g, 2)) >= 0.0 && ParseAmount(Group(g, 3)) >= 0.0
  {
    var (i, g) := FirstMatch(m, FulizaPatterns(), message).value;
    FirstRequired(m, FulizaPatterns(), message, 1, AmountKind);
    FirstRequired(m, FulizaPatterns(), message, 2, AmountKind);
    AmountTokenChars(Group(g, 1).value);
    AmountTokenChars(Group(g, 2).value);
    if i == 0 {
      FirstAbsent(m, FulizaPatterns(), message, 3);
    } else {
      FirstRequired(m, FulizaPatterns(), message, 3, AmountKind);
      AmountTokenChars(Group(g, 3).value);
    }
  }

  /**
   * A Fuliza notice that does not say 'interest charged' is recorded as a
   * loan whose balance is the outstanding total and whose overdraft balance
   * is 0: the notice has no third group.
   */
  lemma {:induction false} FulizaNoticeAsLoan(m: Matcher, message: string, at: Stamp)
    requires ShapesConform(m) && FirstMatch(m, FulizaPatterns(), message).Some?
    requires FirstMatch(m, FulizaPatterns(), message).value.0 == 0
    requires !LowerIncludes(message, "interest charged")
    ensures var g := FirstMatch(m, FulizaPatterns(), message).value.1;
      var r := ParseFuliza(m, message, at).value;
      r.kind == FulizaLoan && r.balance == ParseAmount(Group(g, 2)) && r.overdraftBalance == Some(0.0)
  {
    FirstAbsent(m, FulizaPatterns(), message, 3);
  }

  /** A message the full-repayment pattern matches is always a full repayment. */
  lemma {:induction false} FullRepaymentKind(m: Matcher, message: string, at: Stamp)
    requires KeywordsConform(m) && FirstMatch(m, RepaymentPatterns(), message).Some?
    requires FirstMatch(m, RepaymentPatterns(), message).value.0 == 0
    ensures ParseFulizaRepayment(m, message, at).value.kind == FulizaFullRepayment
  {
    HitGroups(m, RepaymentPatterns(), message);
    KeywordOf(m, FullRepay, message, 3);
  }
}
