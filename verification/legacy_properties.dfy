/**
 * What the older copy in `services/test-mpesa.js` promises: its names are
 * cleaned exactly as the current parser cleans them, every amount and
 * balance it reports is unsigned, the first extractor in the fixed order
 * decides, and buy-goods and pay-bill records need 'buy goods' or 'pay bill'
 * after 'paid to' and take their date and time from the message text.
 */
module LegacyProperties {
  import opened JsText
  import opened Amounts
  import EntityNames
  import opened DateTime
  import opened Matching
  import opened Transactions
  import opened LegacyParser

  /** Dropping trailing whitespace after the edges are stripped changes nothing: both copies clean names alike. */
  lemma {:induction false} CleanEntityNameAgrees(name: Option<string>)
    ensures CleanEntityName(name) == EntityNames.CleanEntityName(name)
  {
    if Truthy(name) {
      EntityNames.NormaliseWithoutTrimEnd(name.value);
    }
  }

  /** The first pattern that matches, with groups of that pattern's shape. */
  lemma {:induction false} HitFits(m: Matcher, pats: seq<Pat>, message: string) returns (i: nat, g: Groups)
    requires ShapesConform(m) && FirstMatch(m, pats, message).Some?
    ensures FirstMatch(m, pats, message) == Some((i, g))
    ensures i < |pats| && m(pats[i], message) == Some(g) && Fits(g, Shape(pats[i]))
  {
    i, g := FirstMatch(m, pats, message).value.0, FirstMatch(m, pats, message).value.1;
    assert MatchFits(m, pats[i], message);
  }

  /** A required amount group is present, non-empty and has no minus sign. */
  lemma {:induction false} AmountGroup(g: Groups, shape: seq<Slot>, k: nat)
    requires Fits(g, shape) && 1 <= k <= |shape| && shape[k - 1] == A
    ensures Truthy(Group(g, k)) && '-' !in Group(g, k).value && ParseAmount(Group(g, k)) >= 0.0
  {
    RequiredGroup(g, shape, k, AmountKind);
    AmountTokenChars(Group(g, k).value);
  }

  /** Amount and balance of a record are both unsigned. */
  predicate Unsigned(r: Option<Record>) {
    r.Some? ==> r.value.amount >= 0.0 && r.value.balance >= 0.0
  }

  /** The amount of a record is group 1 of the first match, read as it stands. */
  predicate AmountIsGroupOne(m: Matcher, pats: seq<Pat>, message: string, r: Option<Record>) {
    r.Some? && FirstMatch(m, pats, message).Some? ==>
      r.value.amount == ParseAmount(Group(FirstMatch(m, pats, message).value.1, 1))
  }

  /** Group `k` of pattern `p` is a required amount. */
  predicate AmountAt(p: Pat, k: nat) {
    1 <= k <= |Shape(p)| && Shape(p)[k - 1] == A
  }

  /** Every pattern of `pats` has a required amount at group `k`. */
  predicate AmountsAt(pats: seq<Pat>, k: nat) {
    forall i :: 0 <= i < |pats| ==> AmountAt(pats[i], k)
  }

  /**
   * Every pattern of `pats` has a required amount at group `j`, or has
   * fewer than `j` groups and a required amount at group `k`: the balance
   * `match[j] || match[k]`.
   */
  predicate BalancesAt(pats: seq<Pat>, j: nat, k: nat) {
    forall i :: 0 <= i < |pats| ==> AmountAt(pats[i], j) || (|Shape(pats[i])| < j && AmountAt(pats[i], k))
  }

  /** Group `k` of the first match is an unsigned amount when every pattern has one there. */
  lemma {:induction false} FirstAmountAt(m: Matcher, pats: seq<Pat>, message: string, k: nat)
    requires ShapesConform(m) && FirstMatch(m, pats, message).Some? && AmountsAt(pats, k)
    ensures ParseAmount(Group(FirstMatch(m, pats, message).value.1, k)) >= 0.0
  {
    var i, g := HitFits(m, pats, message);
    assert AmountAt(pats[i], k);
    AmountGroup(g, Shape(pats[i]), k);
  }

  /** `match[j] || match[k]` of the first match is an unsigned amount. */
  lemma {:induction false} FirstBalanceAt(m: Matcher, pats: seq<Pat>, message: string, j: nat, k: nat)
    requires ShapesConform(m) && FirstMatch(m, pats, message).Some? && BalancesAt(pats, j, k)
    ensures ParseAmount(Or(Group(FirstMatch(m, pats, message).value.1, j), Group(FirstMatch(m, pats, message).value.1, k))) >= 0.0
  {
    var i, g := HitFits(m, pats, message);
    if AmountAt(pats[i], j) {
      AmountGroup(g, Shape(pats[i]), j);
    } else {
      assert |Shape(pats[i])| < j && AmountAt(pats[i], k);
      AmountGroup(g, Shape(pats[i]), k);
    }
  }

  /** Where the amount and the balance stand in the patterns of each extractor. */
  lemma {:induction false} SentShapes()
    ensures AmountsAt(SentPatterns(), 1) && BalancesAt(SentPatterns(), 5, 3)
  {
    assert AmountAt(SentConfirmed, 5) && AmountAt(SentAny, 3);
  }

  lemma {:induction false} ReceivedShapes()
    ensures AmountsAt(ReceivedPatterns(), 1) && BalancesAt(ReceivedPatterns(), 5, 3)
  {
    assert AmountAt(ReceivedConfirmed, 5) && AmountAt(ReceivedAny, 3);
  }

  lemma {:induction false} WithdrawalShapes()
    ensures AmountsAt(WithdrawalPatterns(), 1) && BalancesAt(WithdrawalPatterns(), 5, 3)
  {
    assert AmountAt(WithdrawnFrom, 5) && AmountAt(WithdrawnAny, 3);
  }

  lemma {:induction false} DepositShapes()
    ensures AmountsAt(DepositPatterns(), 1) && BalancesAt(DepositPatterns(), 5, 2)
  {
    assert AmountAt(DepositedTo, 5) && AmountAt(DepositedAny, 2);
  }

  lemma {:induction false} PaymentShapes()
    ensures AmountsAt(BuyGoodsPatterns(), 1) && AmountsAt(BuyGoodsPatterns(), 3)
    ensures AmountsAt(PayBillPatterns(), 1) && AmountsAt(PayBillPatterns(), 3)
    ensures AmountsAt(AirtimePatterns(), 1) && AmountsAt(AirtimePatterns(), 2)
    ensures AmountsAt(BalancePatterns(), 1)
  {
  }

  lemma {:induction false} SentUnsigned(m: Matcher, message: string, at: Stamp)
    requires ShapesConform(m)
    ensures var r := ParseSentMoney(m, message, at);
      Unsigned(r) && AmountIsGroupOne(m, SentPatterns(), message, r)
  {
    if FirstMatch(m, SentPatterns(), message).Some? {
      SentShapes();
      FirstAmountAt(m, SentPatterns(), message, 1);
      FirstBalanceAt(m, SentPatterns(), message, 5, 3);
    }
  }

  lemma {:induction false} ReceivedUnsigned(m: Matcher, message: string, at: Stamp)
    requires ShapesConform(m)
    ensures var r := ParseReceivedMoney(m, message, at);
      Unsigned(r) && AmountIsGroupOne(m, ReceivedPatterns(), message, r)
  {
    if FirstMatch(m, ReceivedPatterns(), message).Some? {
      ReceivedShapes();
      FirstAmountAt(m, ReceivedPatterns(), message, 1);
      FirstBalanceAt(m, ReceivedPatterns(), message, 5, 3);
    }
  }

  lemma {:induction false} WithdrawalUnsigned(m: Matcher, message: string, at: Stamp)
    requires ShapesConform(m)
    ensures var r := ParseWithdrawal(m, message, at);
      Unsigned(r) && AmountIsGroupOne(m, WithdrawalPatterns(), message, r)
  {
    if FirstMatch(m, WithdrawalPatterns(), message).Some? {
      WithdrawalShapes();
      FirstAmountAt(m, WithdrawalPatterns(), message, 1);
      FirstBalanceAt(m, WithdrawalPatterns(), message, 5, 3);
    }
  }

  lemma {:induction false} DepositUnsigned(m: Matcher, message: string, at: Stamp)
    requires ShapesConform(m)
    ensures var r := ParseDeposit(m, message, at);
      Unsigned(r) && AmountIsGroupOne(m, DepositPatterns(), message, r)
  {
    if FirstMatch(m, DepositPatterns(), message).Some? {
      DepositShapes();
      FirstAmountAt(m, DepositPatterns(), message, 1);
      FirstBalanceAt(m, DepositPatterns(), message, 5, 2);
    }
  }

  lemma {:induction false} BuyGoodsUnsigned(m: Matcher, message: string, at: Stamp)
    requires ShapesConform(m)
    ensures var r := ParseBuyGoods(m, message, at);
      Unsigned(r) && AmountIsGroupOne(m, BuyGoodsPatterns(), message, r)
  {
    if FirstMatch(m, BuyGoodsPatterns(), message).Some? {
      PaymentShapes();
      FirstAmountAt(m, BuyGoodsPatterns(), message, 1);
      FirstAmountAt(m, BuyGoodsPatterns(), message, 3);
    }
  }

  lemma {:induction false} PayBillUnsigned(m: Matcher, message: string, at: Stamp)
    requires ShapesConform(m)
    ensures var r := ParsePayBill(m, message, at);
      Unsigned(r) && AmountIsGroupOne(m, PayBillPatterns(), message, r)
  {
    if FirstMatch(m, PayBillPatterns(), message).Some? {
      PaymentShapes();
      FirstAmountAt(m, PayBillPatterns(), message, 1);
      FirstAmountAt(m, PayBillPatterns(), message, 3);
    }
  }

  lemma {:induction false} AirtimeUnsigned(m: Matcher, message: string, at: Stamp)
    requires ShapesConform(m)
    ensures var r := ParseAirtime(m, message, at);
      Unsigned(r) && AmountIsGroupOne(m, AirtimePatterns(), message, r)
  {
    if FirstMatch(m, AirtimePatterns(), message).Some? {
      PaymentShapes();
      FirstAmountAt(m, AirtimePatterns(), message, 1);
      FirstAmountAt(m, AirtimePatterns(), message, 2);
    }
  }

  lemma {:induction false} BalanceUnsigned(m: Matcher, message: string, at: Stamp)
    requires ShapesConform(m)
    ensures Unsigned(ParseBalance(m, message, at))
  {
    if FirstMatch(m, BalancePatterns(), message).Some? {
      PaymentShapes();
      FirstAmountAt(m, BalancePatterns(), message, 1);
    }
  }

  lemma {:induction false} RunUnsigned(e: Extractor, m: Matcher, message: string, at: Stamp)
    requires ShapesConform(m)
    ensures Unsigned(Run(e, m, message, at))
  {
    match e
    case SentMoneyParser => SentUnsigned(m, message, at);
    case ReceivedMoneyParser => ReceivedUnsigned(m, message, at);
    case WithdrawalParser => WithdrawalUnsigned(m, message, at);
    case DepositParser => DepositUnsigned(m, message, at);
    case BuyGoodsParser => BuyGoodsUnsigned(m, message, at);
    case PayBillParser => PayBillUnsigned(m, message, at);
    case AirtimeParser => AirtimeUnsigned(m, message, at);
    case BalanceParser => BalanceUnsigned(m, message, at);
  }

  /** Whatever this copy returns carries an unsigned amount and an unsigned balance. */
  lemma {:induction false} ParseSmsUnsigned(m: Matcher, smsBody: Option<string>, at: Stamp)
    requires ShapesConform(m)
    ensures Unsigned(ParseSms(m, smsBody, at))
  {
    if Truthy(smsBody) && IsMpesaMessage(Trim(smsBody.value)) {
      var message := Trim(smsBody.value);
      var hit := FirstSome(e => Run(e, m, message, at), Extractors());
      if hit.Some? {
        RunUnsigned(Extractors()[hit.value.0], m, message, at);
      }
    }
  }

  /** The result is that of the first extractor, in the fixed order, that returns one. */
  lemma {:induction false} DispatchFirst(m: Matcher, message: string, at: Stamp, i: nat)
    requires i < |Extractors()| && Run(Extractors()[i], m, message, at).Some?
    requires forall j :: 0 <= j < i ==> Run(Extractors()[j], m, message, at).None?
    ensures Dispatch(m, message, at) == Run(Extractors()[i], m, message, at)
  {
    FirstSomeAt(e => Run(e, m, message, at), Extractors(), i);
  }

  /** The keywords at `a` and `b` of a pattern that matched occur in that order. */
  lemma {:induction false} KeywordsBefore(m: Matcher, p: Pat, message: string, a: nat, b: nat)
    requires KeywordsConform(m) && m(p, message).Some? && a < b < |Keywords(p)|
    ensures OccursBefore(message, Keywords(p)[a], Keywords(p)[b])
  {
    assert MatchHasKeywords(m, p, message);
    InOrderFromBefore(message, Keywords(p), 0, a, b);
  }

  /** A message a buy-goods pattern matches has 'buy goods' after 'paid to'. */
  lemma {:induction false} BuyGoodsKeywords(m: Matcher, message: string)
    requires KeywordsConform(m) && FirstMatch(m, BuyGoodsPatterns(), message).Some?
    ensures OccursBefore(message, "paid to", "buy goods")
  {
    if FirstMatch(m, BuyGoodsPatterns(), message).value.0 == 0 {
      KeywordsBefore(m, GoodsConfirmed, message, 2, 3);
    } else {
      KeywordsBefore(m, GoodsAny, message, 1, 2);
    }
  }

  /** A message a pay-bill pattern matches has 'pay bill' after 'paid to'. */
  lemma {:induction false} PayBillKeywords(m: Matcher, message: string)
    requires KeywordsConform(m) && FirstMatch(m, PayBillPatterns(), message).Some?
    ensures OccursBefore(message, "paid to", "pay bill")
  {
    if FirstMatch(m, PayBillPatterns(), message).value.0 == 0 {
      KeywordsBefore(m, BillConfirmed, message, 2, 3);
    } else {
      KeywordsBefore(m, BillAny, message, 1, 2);
    }
  }

  /**
   * A buy-goods record needs 'buy goods' after 'paid to', and takes its date
   * and time from the first date and time in the text.
   */
  lemma {:induction false} BuyGoodsAfterPaidTo(m: Matcher, message: string, at: Stamp)
    requires KeywordsConform(m)
    ensures var r := ParseBuyGoods(m, message, at);
      r.Some? ==> (OccursBefore(message, "paid to", "buy goods") &&
        r.value.date == ExtractDateFromMessage(message, at.date) &&
        r.value.time == ExtractTimeFromMessage(message, at.time))
  {
    if FirstMatch(m, BuyGoodsPatterns(), message).Some? {
      BuyGoodsKeywords(m, message);
    }
  }

  /**
   * A pay-bill record needs 'pay bill' after 'paid to', and takes its date
   * and time from the first date and time in the text.
   */
  lemma {:induction false} PayBillAfterPaidTo(m: Matcher, message: string, at: Stamp)
    requires KeywordsConform(m)
    ensures var r := ParsePayBill(m, message, at);
      r.Some? ==> (OccursBefore(message, "paid to", "pay bill") &&
        r.value.date == ExtractDateFromMessage(message, at.date) &&
        r.value.time == ExtractTimeFromMessage(message, at.time))
  {
    if FirstMatch(m, PayBillPatterns(), message).Some? {
      PayBillKeywords(m, message);
    }
  }
}
