/**
 * What `services/SmsParser.js` promises about its results: the gate and the
 * dispatch order, the sign of every category's amount, the keyword-driven
 * types and labels, and what the extractors record when a pattern's groups
 * are numbered differently from the record's reading of them. Every
 * statement about the regexes holds for any matcher that satisfies
 * `ShapesConform` (its groups have the pattern's shape) or `KeywordsConform`
 * (a matched message holds the pattern's keywords).
 */
module MpesaProperties {
  import opened JsText
  import opened Amounts
  import opened EntityNames
  import opened DateTime
  import opened Matching
  import opened Transactions
  import opened MpesaPatterns
  import opened MpesaParser

  /** The first pattern that matches is the one at `i` when all before it fail. */
  lemma {:induction false} HitAt(m: Matcher, pats: seq<Pat>, message: string, i: nat, g: Groups)
    requires i < |pats| && m(pats[i], message) == Some(g)
    requires forall j :: 0 <= j < i ==> m(pats[j], message).None?
    ensures FirstMatch(m, pats, message) == Some((i, g))
  {
    FirstSomeAt(p => m(p, message), pats, i);
  }

  /** The groups of the first pattern that matches are that pattern's groups. */
  lemma {:induction false} HitGroups(m: Matcher, pats: seq<Pat>, message: string)
    requires FirstMatch(m, pats, message).Some?
    ensures var (i, g) := FirstMatch(m, pats, message).value;
      i < |pats| && m(pats[i], message) == Some(g)
  {
  }

  /** When every pattern of `pats` has an amount group at `k`, the first match's group `k` is an unsigned amount. */
  lemma {:induction false} FirstAmount(m: Matcher, pats: seq<Pat>, message: string)
    requires ShapesConform(m) && FirstMatch(m, pats, message).Some?
    requires AmountFirst(pats)
    ensures var g := FirstMatch(m, pats, message).value.1;
      Group(g, 1).Some? && AmountToken(Group(g, 1).value) && ParseAmount(Group(g, 1)) >= 0.0 &&
      ParseAmount(Group(g, 1)) == TokenValue(Group(g, 1).value)
  {
    var (i, g) := FirstMatch(m, pats, message).value;
    HitGroups(m, pats, message);
    assert pats[i] in pats;
    assert MatchFits(m, pats[i], message);
    AmountLedShape(pats[i]);
    RequiredGroup(g, Shape(pats[i]), 1, AmountKind);
    AmountTokenChars(Group(g, 1).value);
    ParseAmountOfToken(Group(g, 1).value);
  }

  /** The patterns whose first group is the amount: all but the KCB ones. */
  predicate AmountLed(p: Pat) {
    !(p.KcbOpened? || p.KcbUnlocked? || p.KcbTopUp?)
  }

  lemma {:induction false} AmountLedShape(p: Pat)
    requires AmountLed(p)
    ensures 1 <= |Shape(p)| && Shape(p)[0] == A
  {
  }

  /** Every pattern of `pats` captures an amount as its first group. */
  predicate AmountFirst(pats: seq<Pat>) {
    forall p :: p in pats ==> AmountLed(p)
  }

  /** The pattern lists whose first group is always the amount (all but the KCB ones). */
  lemma {:induction false} AmountsComeFirst()
    ensures AmountFirst(SentPatterns()) && AmountFirst(ReceivedPatterns())
    ensures AmountFirst(BuyGoodsPatterns()) && AmountFirst(PayBillPatterns())
    ensures AmountFirst(AirtimePatterns()) && AmountFirst(MshwariPatterns())
    ensures AmountFirst(FulizaPatterns()) && AmountFirst(RepaymentPatterns())
    ensures AmountFirst(BalanceLinePatterns()) && AmountFirst(CostPatterns())
    ensures AmountFirst(WithdrawalPatterns()) && AmountFirst(DepositPatterns())
  {
  }

  // ---------------------------------------------------------------- gate and dispatch

  /** The result is that of the first extractor, in the fixed order, that returns one. */
  lemma {:induction false} DispatchFirst(m: Matcher, message: string, at: Stamp, i: nat)
    requires i < |Extractors()| && Run(Extractors()[i], m, message, at).Some?
    requires forall j :: 0 <= j < i ==> Run(Extractors()[j], m, message, at).None?
    ensures Dispatch(m, message, at) == Run(Extractors()[i], m, message, at)
  {
    FirstSomeAt(e => Run(e, m, message, at), Extractors(), i);
  }

  /**
   * A message one of the sent patterns accepts is typed 'sent', whatever
   * else it says ('for account' included): the pay-bill extractor is never
   * consulted.
   */
  lemma {:induction false} SentShadowsPayBill(m: Matcher, smsBody: string, at: Stamp)
    requires smsBody != ""
    requires IsMpesaMessage(Trim(smsBody))
    requires !NoMatch(m, SentPatterns(), Trim(smsBody))
    ensures ParseSms(m, Some(smsBody), at).Some?
    ensures ParseSms(m, Some(smsBody), at).value.kind == Sent
  {
    var message := Trim(smsBody);
    var r := ParseSentMoney(m, message, at);
    assert r.Some? && r.value.kind == Sent;
    assert Extractors()[0] == SentMoneyParser;
    DispatchFirst(m, message, at, 0);
    assert ParseSms(m, Some(smsBody), at) == r;
  }

  // ---------------------------------------------------------------- helpers

  /** `extractBalance` reads the first balance phrase that matches. */
  lemma {:induction false} ExtractBalanceOfFirst(m: Matcher, message: string, i: nat)
    requires i < |BalanceLinePatterns()| && m(BalanceLinePatterns()[i], message).Some?
    requires forall j :: 0 <= j < i ==> m(BalanceLinePatterns()[j], message).None?
    ensures ExtractBalance(m, message) ==
      ParseAmount(Group(m(BalanceLinePatterns()[i], message).value, 1))
  {
    HitAt(m, BalanceLinePatterns(), message, i, m(BalanceLinePatterns()[i], message).value);
  }

  /** `extractTransactionCost` reads the first cost phrase that matches. */
  lemma {:induction false} ExtractTransactionCostOfFirst(m: Matcher, message: string, i: nat)
    requires i < |CostPatterns()| && m(CostPatterns()[i], message).Some?
    requires forall j :: 0 <= j < i ==> m(CostPatterns()[j], message).None?
    ensures ExtractTransactionCost(m, message) ==
      ParseAmount(Group(m(CostPatterns()[i], message).value, 1))
  {
    HitAt(m, CostPatterns(), message, i, m(CostPatterns()[i], message).value);
  }

  /** A balance read from the message is never negative. */
  lemma {:induction false} ExtractBalanceNonNegative(m: Matcher, message: string)
    requires ShapesConform(m)
    ensures ExtractBalance(m, message) >= 0.0
  {
    if FirstMatch(m, BalanceLinePatterns(), message).Some? {
      AmountsComeFirst();
      FirstAmount(m, BalanceLinePatterns(), message);
    }
  }

  /** A cost read from the message is never negative. */
  lemma {:induction false} ExtractTransactionCostNonNegative(m: Matcher, message: string)
    requires ShapesConform(m)
    ensures ExtractTransactionCost(m, message) >= 0.0
  {
    var hit := FirstMatch(m, CostPatterns(), message);
    if hit.Some? {
      AmountsComeFirst();
      FirstAmount(m, CostPatterns(), message);
    }
  }

  // ---------------------------------------------------------------- outflows

  lemma {:induction false} SentIsOutflow(m: Matcher, message: string, at: Stamp)
    requires ShapesConform(m)
    ensures var r := ParseSentMoney(m, message, at); r.Some? ==>
      var t := Group(FirstMatch(m, SentPatterns(), message).value.1, 1);
      t.Some? && AmountToken(t.value) && r.value.amount == -ParseAmount(t) == -TokenValue(t.value) &&
      r.value.amount <= 0.0
  {
    if FirstMatch(m, SentPatterns(), message).Some? {
      AmountsComeFirst();
      FirstAmount(m, SentPatterns(), message);
    }
  }

  lemma {:induction false} BuyGoodsIsOutflow(m: Matcher, message: string, at: Stamp)
    requires ShapesConform(m)
    ensures var r := ParseBuyGoods(m, message, at); r.Some? ==>
      var t := Group(FirstMatch(m, BuyGoodsPatterns(), message).value.1, 1);
      t.Some? && AmountToken(t.value) && r.value.amount == -ParseAmount(t) == -TokenValue(t.value) &&
      r.value.amount <= 0.0
  {
    if FirstMatch(m, BuyGoodsPatterns(), message).Some? {
      AmountsComeFirst();
      FirstAmount(m, BuyGoodsPatterns(), message);
    }
  }

  lemma {:induction false} PayBillIsOutflow(m: Matcher, message: string, at: Stamp)
    requires ShapesConform(m)
    ensures var r := ParsePayBill(m, message, at); r.Some? ==>
      var t := Group(FirstMatch(m, PayBillPatterns(), message).value.1, 1);
      t.Some? && AmountToken(t.value) && r.value.amount == -ParseAmount(t) == -TokenValue(t.value) &&
      r.value.amount <= 0.0
  {
    if FirstMatch(m, PayBillPatterns(), message).Some? {
      AmountsComeFirst();
      FirstAmount(m, PayBillPatterns(), message);
    }
  }

  lemma {:induction false} AirtimeIsOutflow(m: Matcher, message: string, at: Stamp)
    requires ShapesConform(m)
    ensures var r := ParseAirtime(m, message, at); r.Some? ==>
      var t := Group(FirstMatch(m, AirtimePatterns(), message).value.1, 1);
      t.Some? && AmountToken(t.value) && r.value.amount == -ParseAmount(t) == -TokenValue(t.value) &&
      r.value.amount <= 0.0 && r.value.entity == "Airtime Purchase"
  {
    if FirstMatch(m, AirtimePatterns(), message).Some? {
      AmountsComeFirst();
      FirstAmount(m, AirtimePatterns(), message);
    }
  }

  lemma {:induction false} RepaymentIsOutflow(m: Matcher, message: string, at: Stamp)
    requires ShapesConform(m)
    ensures var r := ParseFulizaRepayment(m, message, at); r.Some? ==>
      var t := Group(FirstMatch(m, RepaymentPatterns(), message).value.1, 1);
      t.Some? && AmountToken(t.value) && r.value.amount == -ParseAmount(t) == -TokenValue(t.value) &&
      r.value.amount <= 0.0
  {
    if FirstMatch(m, RepaymentPatterns(), message).Some? {
      AmountsComeFirst();
      FirstAmount(m, RepaymentPatterns(), message);
    }
  }

  lemma {:induction false} WithdrawalIsOutflow(m: Matcher, message: string, at: Stamp)
    requires ShapesConform(m)
    ensures var r := ParseWithdrawal(m, message, at); r.Some? ==>
      var t := Group(FirstMatch(m, WithdrawalPatterns(), message).value.1, 1);
      t.Some? && AmountToken(t.value) && r.value.amount == -ParseAmount(t) == -TokenValue(t.value) &&
      r.value.amount <= 0.0
  {
    if FirstMatch(m, WithdrawalPatterns(), message).Some? {
      AmountsComeFirst();
      FirstAmount(m, WithdrawalPatterns(), message);
    }
  }

  // ---------------------------------------------------------------- inflows

  lemma {:induction false} ReceivedIsInflow(m: Matcher, message: string, at: Stamp)
    requires ShapesConform(m)
    ensures var r := ParseReceivedMoney(m, message, at); r.Some? ==>
      var t := Group(FirstMatch(m, ReceivedPatterns(), message).value.1, 1);
      t.Some? && AmountToken(t.value) && r.value.amount == ParseAmount(t) == TokenValue(t.value) &&
      r.value.amount >= 0.0 && r.value.transactionCost == 0.0
  {
    if FirstMatch(m, ReceivedPatterns(), message).Some? {
      AmountsComeFirst();
      FirstAmount(m, ReceivedPatterns(), message);
    }
  }

  lemma {:induction false} DepositIsInflow(m: Matcher, message: string, at: Stamp)
    requires ShapesConform(m)
    ensures var r := ParseDeposit(m, message, at); r.Some? ==>
      var t := Group(FirstMatch(m, DepositPatterns(), message).value.1, 1);
      t.Some? && AmountToken(t.value) && r.value.amount == ParseAmount(t) == TokenValue(t.value) &&
      r.value.amount >= 0.0
  {
    if FirstMatch(m, DepositPatterns(), message).Some? {
      AmountsComeFirst();
      FirstAmount(m, DepositPatterns(), message);
    }
  }

  lemma {:induction false} FulizaLoanIsInflow(m: Matcher, message: string, at: Stamp)
    requires ShapesConform(m)
    ensures var r := ParseFuliza(m, message, at); r.Some? && r.value.kind == FulizaLoan ==>
      var t := Group(FirstMatch(m, FulizaPatterns(), message).value.1, 1);
      t.Some? && AmountToken(t.value) && r.value.amount == ParseAmount(t) == TokenValue(t.value) &&
      r.value.amount >= 0.0
  {
    if FirstMatch(m, FulizaPatterns(), message).Some? {
      AmountsComeFirst();
      FirstAmount(m, FulizaPatterns(), message);
    }
  }

  // ---------------------------------------------------------------- keyword-driven results

  /** The keywords that make an M-Shwari amount an outflow. */
  predicate MshwariOutflow(message: string) {
    LowerIncludes(message, "transferred to m-shwari") ||
    (!LowerIncludes(message, "transferred from m-shwari") && LowerIncludes(message, "lock savings"))
  }

  /**
   * An M-Shwari transfer's amount is the matched amount, negated exactly
   * when the text says 'transferred to m-shwari', or says 'lock savings'
   * without 'transferred from m-shwari'.
   */
  lemma {:induction false} MshwariSign(m: Matcher, message: string, at: Stamp)
    requires ShapesConform(m)
    ensures var r := ParseMshwariTransfer(m, message, at);
      r.Some? ==>
        var v := ParseAmount(Group(FirstMatch(m, MshwariPatterns(), message).value.1, 1));
        v >= 0.0 && r.value.amount == (if MshwariOutflow(message) then -v else v)
  {
    if FirstMatch(m, MshwariPatterns(), message).Some? {
      AmountsComeFirst();
      FirstAmount(m, MshwariPatterns(), message);
    }
  }

  /** A message a pattern matched holds each of the pattern's keywords. */
  lemma {:induction false} KeywordOf(m: Matcher, p: Pat, message: string, k: nat)
    requires KeywordsConform(m) && m(p, message).Some? && k < |Keywords(p)|
    ensures LowerIncludes(message, Keywords(p)[k])
  {
    assert MatchHasKeywords(m, p, message);
    InOrderIncludes(message, Keywords(p));
  }

  /** Every M-Shwari pattern carries one of the three keywords the labels depend on. */
  lemma {:induction false} MshwariKeyword(m: Matcher, message: string)
    requires KeywordsConform(m) && FirstMatch(m, MshwariPatterns(), message).Some?
    ensures LowerIncludes(message, "transferred to m-shwari") ||
      LowerIncludes(message, "transferred from m-shwari") || LowerIncludes(message, "lock savings")
  {
    var (i, g) := FirstMatch(m, MshwariPatterns(), message).value;
    HitGroups(m, MshwariPatterns(), message);
    var p := MshwariPatterns()[i];
    KeywordOf(m, p, message, 2);
  }

  /** The plain 'M-Shwari' label is never used: every match names its direction. */
  lemma {:induction false} MshwariEntityNamed(m: Matcher, message: string, at: Stamp)
    requires KeywordsConform(m)
    ensures var r := ParseMshwariTransfer(m, message, at);
      r.Some? ==> r.value.entity in {"M-Shwari Savings", "M-Shwari Withdrawal", "M-Shwari Lock Savings"}
  {
    if FirstMatch(m, MshwariPatterns(), message).Some? {
      MshwariKeyword(m, message);
    }
  }
}
