/**
 * `MpesaParser` of `services/SmsParser.js`: the keyword gate, the twelve
 * category extractors tried in a fixed order, and the balance and cost
 * helpers. Every regex match goes through the matcher `m`; every
 * `includes` test, amount, name, date and time is computed here.
 */
module MpesaParser {
  import opened JsText
  import opened Amounts
  import opened EntityNames
  import opened DateTime
  import opened Matching
  import opened Transactions
  import opened MpesaPatterns

  /** The keywords of the gate, in lower case. */
  function Indicators(): seq<string> {
    ["confirmed", "ksh", "new m-pesa balance", "transaction cost", "mpesa", "sent to",
     "received from", "withdraw", "deposit", "fuliza", "overdraft", "loan", "repay",
     "m-shwari", "kcb m-pesa", "paid to", "transferred"]
  }

  /** `isMpesaMessage`: the lower-cased text contains one of the indicators. */
  function IsMpesaMessage(message: string): (r: bool)
    ensures r <==> exists k :: 0 <= k < |Indicators()| && LowerIncludes(message, Indicators()[k])
  {
    IncludesAny(message, Indicators())
  }

  /** The date of a record is the fallback or a `YYYY-MM-DD` date; its time the fallback or an upper-case time. */
  predicate DatedAndTimed(t: Transaction, at: Stamp) {
    (t.date == at.date || IsIsoDateShape(t.date)) && (t.time == at.time || IsShownTime(t.time))
  }

  /** `extractBalance`: the amount after the first balance phrase that matches, else 0. */
  function ExtractBalance(m: Matcher, message: string): (r: real)
    ensures NoMatch(m, BalanceLinePatterns(), message) ==> r == 0.0
  {
    match FirstMatch(m, BalanceLinePatterns(), message)
    case None => 0.0
    case Some((_, g)) => ParseAmount(Group(g, 1))
  }

  /** `extractTransactionCost`: the amount after the first cost phrase that matches, else 0. */
  function ExtractTransactionCost(m: Matcher, message: string): (r: real)
    ensures NoMatch(m, CostPatterns(), message) ==> r == 0.0
  {
    match FirstMatch(m, CostPatterns(), message)
    case None => 0.0
    case Some((_, g)) => ParseAmount(Group(g, 1))
  }

  function ParseSentMoney(m: Matcher, message: string, at: Stamp): (r: Option<Transaction>)
    ensures r.None? <==> NoMatch(m, SentPatterns(), message)
    ensures r.Some? ==> r.value.kind == Sent && r.value.rawMessage == message
    ensures r.Some? ==> DatedAndTimed(r.value, at)
  {
    match FirstMatch(m, SentPatterns(), message)
    case None => None
    case Some((_, g)) =>
      Some(Transaction(
        Sent, -ParseAmount(Group(g, 1)), CleanEntityName(Group(g, 2)),
        ExtractBalance(m, message), ExtractTransactionCost(m, message),
        ParseDate(Or(Group(g, 4), Group(g, 3)), at.date),
        ParseTime(Or(Group(g, 5), Group(g, 4)), at.time),
        message, None, None, None))
  }

  function ParseReceivedMoney(m: Matcher, message: string, at: Stamp): (r: Option<Transaction>)
    ensures r.None? <==> NoMatch(m, ReceivedPatterns(), message)
    ensures r.Some? ==> r.value.kind == Received && r.value.rawMessage == message
    ensures r.Some? ==> r.value.transactionCost == 0.0
    ensures r.Some? ==> DatedAndTimed(r.value, at)
  {
    match FirstMatch(m, ReceivedPatterns(), message)
    case None => None
    case Some((_, g)) =>
      Some(Transaction(
        Received, ParseAmount(Group(g, 1)), CleanEntityName(Group(g, 2)),
        ExtractBalance(m, message), 0.0,
        ParseDate(Or(Group(g, 4), Group(g, 3)), at.date),
        ParseTime(Or(Group(g, 5), Group(g, 4)), at.time),
        message, None, None, None))
  }

  function ParseBuyGoods(m: Matcher, message: string, at: Stamp): (r: Option<Transaction>)
    ensures r.None? <==> NoMatch(m, BuyGoodsPatterns(), message)
    ensures r.Some? ==> r.value.kind == BuyGoods && r.value.rawMessage == message
    ensures r.Some? ==> DatedAndTimed(r.value, at)
  {
    match FirstMatch(m, BuyGoodsPatterns(), message)
    case None => None
    case Some((_, g)) =>
      Some(Transaction(
        BuyGoods, -ParseAmount(Group(g, 1)), CleanEntityName(Group(g, 2)),
        ExtractBalance(m, message), ExtractTransactionCost(m, message),
        ParseDate(Group(g, 3), at.date), ParseTime(Group(g, 4), at.time),
        message, None, None, None))
  }

  function ParsePayBill(m: Matcher, message: string, at: Stamp): (r: Option<Transaction>)
    ensures r.None? <==> NoMatch(m, PayBillPatterns(), message)
    ensures r.Some? ==> r.value.kind == PayBill && r.value.rawMessage == message
    ensures r.Some? ==> DatedAndTimed(r.value, at)
  {
    match FirstMatch(m, PayBillPatterns(), message)
    case None => None
    case Some((_, g)) =>
      Some(Transaction(
        PayBill, -ParseAmount(Group(g, 1)), CleanEntityName(Group(g, 2)),
        ExtractBalance(m, message), ExtractTransactionCost(m, message),
        ParseDate(Group(g, 4), at.date), ParseTime(Group(g, 5), at.time),
        message, Group(g, 3), None, None))
  }

  function ParseAirtime(m: Matcher, message: string, at: Stamp): (r: Option<Transaction>)
    ensures r.None? <==> NoMatch(m, AirtimePatterns(), message)
    ensures r.Some? ==> r.value.kind == Airtime && r.value.rawMessage == message
    ensures r.Some? ==> r.value.entity == "Airtime Purchase"
    ensures r.Some? ==> DatedAndTimed(r.value, at)
  {
    match FirstMatch(m, AirtimePatterns(), message)
    case None => None
    case Some((_, g)) =>
      Some(Transaction(
        Airtime, -ParseAmount(Group(g, 1)), "Airtime Purchase",
        ExtractBalance(m, message), ExtractTransactionCost(m, message),
        ParseDate(Group(g, 2), at.date), ParseTime(Group(g, 3), at.time),
        message, None, None, None))
  }

  /** The amount and entity an M-Shwari match gets from the keywords of the message. */
  function MshwariAmountEntity(message: string, v: real): (real, string) {
    if LowerIncludes(message, "transferred to m-shwari") then (-v, "M-Shwari Savings")
    else if LowerIncludes(message, "transferred from m-shwari") then (v, "M-Shwari Withdrawal")
    else if LowerIncludes(message, "lock savings") then (-v, "M-Shwari Lock Savings")
    else (v, "M-Shwari")
  }

  function ParseMshwariTransfer(m: Matcher, message: string, at: Stamp): (r: Option<Transaction>)
    ensures r.None? <==> NoMatch(m, MshwariPatterns(), message)
    ensures r.Some? ==> r.value.kind == MshwariTransfer && r.value.rawMessage == message
    ensures r.Some? ==> DatedAndTimed(r.value, at)
  {
    match FirstMatch(m, MshwariPatterns(), message)
    case None => None
    case Some((_, g)) =>
      var (amount, entity) := MshwariAmountEntity(message, ParseAmount(Group(g, 1)));
      Some(Transaction(
        MshwariTransfer, amount, entity,
        ExtractBalance(m, message), ExtractTransactionCost(m, message),
        ParseDate(Group(g, 2), at.date), ParseTime(Group(g, 3), at.time),
        message, None, None, None))
  }

  /** The amount and entity a KCB match gets from the keywords of the message. */
  function KcbAmountEntity(message: string, v: real, scheme: Option<string>): (real, string) {
    if LowerIncludes(message, "transfered") && LowerIncludes(message, "from your kcb") then
      (v, "KCB M-Pesa Withdrawal")
    else if LowerIncludes(message, "opened a") then
      (-v, "KCB " + TemplateText(scheme) + " Savings")
    else if LowerIncludes(message, "unlocked") then
      (v, "KCB " + TemplateText(scheme) + " Savings Unlock")
    else if LowerIncludes(message, "top up") then
      (-v, "KCB Target Savings Top Up")
    else (v, "KCB M-Pesa")
  }

  function ParseKcbTransfer(m: Matcher, message: string, at: Stamp): (r: Option<Transaction>)
    ensures r.None? <==> NoMatch(m, KcbPatterns(), message)
    ensures r.Some? ==> r.value.kind == KcbTransfer && r.value.rawMessage == message
    ensures r.Some? ==> DatedAndTimed(r.value, at)
  {
    match FirstMatch(m, KcbPatterns(), message)
    case None => None
    case Some((_, g)) =>
      var v := ParseAmount(Or(Or(Group(g, 1), Group(g, 3)), Group(g, 4)));
      var (amount, entity) := KcbAmountEntity(message, v, Group(g, 2));
      Some(Transaction(
        KcbTransfer, amount, entity,
        ExtractBalance(m, message), ExtractTransactionCost(m, message),
        ParseDate(Group(g, 2), at.date), ParseTime(Group(g, 3), at.time),
        message, None, None, None))
  }

  /**
   * `parseFuliza`: an interest-charge notice when the text mentions 'interest
   * charged', otherwise an overdraft loan; neither has a cost.
   */
  function ParseFuliza(m: Matcher, message: string, at: Stamp): (r: Option<Transaction>)
    ensures r.None? <==> NoMatch(m, FulizaPatterns(), message)
    ensures r.Some? ==> r.value.rawMessage == message && r.value.transactionCost == 0.0
    ensures r.Some? ==> (r.value.kind == FulizaCharge || r.value.kind == FulizaLoan)
    ensures r.Some? ==> (r.value.kind == FulizaCharge <==> LowerIncludes(message, "interest charged"))
    ensures r.Some? && r.value.kind == FulizaCharge ==>
      r.value.amount == 0.0 && r.value.outstandingAmount.Some?
    ensures r.Some? && r.value.kind == FulizaLoan ==> r.value.overdraftBalance.Some?
    ensures r.Some? ==> DatedAndTimed(r.value, at)
  {
    match FirstMatch(m, FulizaPatterns(), message)
    case None => None
    case Some((_, g)) =>
      var date := ExtractDateFromMessage(message, at.date);
      var time := ExtractTimeFromMessage(message, at.time);
      if LowerIncludes(message, "interest charged") then
        Some(Transaction(
          FulizaCharge, 0.0, "Fuliza Interest Charge", ExtractBalance(m, message), 0.0,
          date, time, message, None, Some(ParseAmount(Group(g, 2))), None))
      else
        Some(Transaction(
          FulizaLoan, ParseAmount(Group(g, 1)), "Fuliza Overdraft", ParseAmount(Group(g, 2)), 0.0,
          date, time, message, None, None, Some(OrNum(ParseAmount(Group(g, 3)), 0.0))))
  }

  /**
   * `parseFulizaRepayment`: a full repayment when the text mentions 'fully
   * pay', otherwise a partial one; no cost and an overdraft balance of 0.
   */
  function ParseFulizaRepayment(m: Matcher, message: string, at: Stamp): (r: Option<Transaction>)
    ensures r.None? <==> NoMatch(m, RepaymentPatterns(), message)
    ensures r.Some? ==> r.value.rawMessage == message && r.value.transactionCost == 0.0
    ensures r.Some? ==> r.value.overdraftBalance == Some(0.0)
    ensures r.Some? ==> (r.value.kind == FulizaFullRepayment || r.value.kind == FulizaPartialRepayment)
    ensures r.Some? ==> (r.value.kind == FulizaFullRepayment <==> LowerIncludes(message, "fully pay"))
    ensures r.Some? ==> DatedAndTimed(r.value, at)
  {
    match FirstMatch(m, RepaymentPatterns(), message)
    case None => None
    case Some((_, g)) =>
      var full := LowerIncludes(message, "fully pay");
      Some(Transaction(
        if full then FulizaFullRepayment else FulizaPartialRepayment,
        -ParseAmount(Group(g, 1)),
        if full then "Fuliza Full Repayment" else "Fuliza Partial Repayment",
        ExtractBalance(m, message), 0.0,
        ExtractDateFromMessage(message, at.date), ExtractTimeFromMessage(message, at.time),
        message, None, None, Some(0.0)))
  }

  /** `parseBalance`: a balance inquiry moves no money and costs nothing. */
  function ParseBalance(m: Matcher, message: string, at: Stamp): (r: Option<Transaction>)
    ensures r.None? <==> NoMatch(m, BalancePatterns(), message)
    ensures r.Some? ==> r.value.kind == BalanceInquiry && r.value.rawMessage == message
    ensures r.Some? ==> r.value.amount == 0.0 && r.value.transactionCost == 0.0
    ensures r.Some? ==> DatedAndTimed(r.value, at)
  {
    match FirstMatch(m, BalancePatterns(), message)
    case None => None
    case Some((_, g)) =>
      Some(Transaction(
        BalanceInquiry, 0.0, "Balance Inquiry", ParseAmount(Group(g, 1)), 0.0,
        ExtractDateFromMessage(message, at.date), ExtractTimeFromMessage(message, at.time),
        message, None, None, None))
  }

  function ParseWithdrawal(m: Matcher, message: string, at: Stamp): (r: Option<Transaction>)
    ensures r.None? <==> NoMatch(m, WithdrawalPatterns(), message)
    ensures r.Some? ==> r.value.kind == Withdrawal && r.value.rawMessage == message
    ensures r.Some? ==> DatedAndTimed(r.value, at)
  {
    match FirstMatch(m, WithdrawalPatterns(), message)
    case None => None
    case Some((_, g)) =>
      Some(Transaction(
        Withdrawal, -ParseAmount(Group(g, 1)), CleanEntityName(Group(g, 2)),
        ParseAmount(Or(Group(g, 5), Group(g, 3))),
        OrNum(ParseAmount(Or(Group(g, 6), Group(g, 4))), ExtractTransactionCost(m, message)),
        ParseDate(Group(g, 3), at.date), ParseTime(Group(g, 4), at.time),
        message, None, None, None))
  }

  function ParseDeposit(m: Matcher, message: string, at: Stamp): (r: Option<Transaction>)
    ensures r.None? <==> NoMatch(m, DepositPatterns(), message)
    ensures r.Some? ==> r.value.kind == Deposit && r.value.rawMessage == message
    ensures r.Some? ==> DatedAndTimed(r.value, at)
  {
    match FirstMatch(m, DepositPatterns(), message)
    case None => None
    case Some((_, g)) =>
      Some(Transaction(
        Deposit, ParseAmount(Group(g, 1)), CleanEntityName(Or(Group(g, 2), Some("M-Pesa Agent"))),
        ParseAmount(Or(Group(g, 5), Group(g, 2))),
        OrNum(ParseAmount(Or(Group(g, 6), Group(g, 3))), ExtractTransactionCost(m, message)),
        ParseDate(Group(g, 3), at.date), ParseTime(Group(g, 4), at.time),
        message, None, None, None))
  }

  /** The twelve extractors. */
  datatype Extractor =
    | SentMoneyParser | ReceivedMoneyParser | WithdrawalParser | DepositParser
    | BuyGoodsParser | PayBillParser | AirtimeParser | MshwariParser | KcbParser
    | FulizaParser | FulizaRepaymentParser | BalanceParser

  /** The order `parseSMS` tries them in. */
  function Extractors(): seq<Extractor> {
    [SentMoneyParser, ReceivedMoneyParser, WithdrawalParser, DepositParser,
     BuyGoodsParser, PayBillParser, AirtimeParser, MshwariParser, KcbParser,
     FulizaParser, FulizaRepaymentParser, BalanceParser]
  }

  function Run(e: Extractor, m: Matcher, message: string, at: Stamp): (r: Option<Transaction>)
    ensures r.Some? ==> r.value.rawMessage == message
    ensures r.Some? ==> DatedAndTimed(r.value, at)
  {
    match e
    case SentMoneyParser => ParseSentMoney(m, message, at)
    case ReceivedMoneyParser => ParseReceivedMoney(m, message, at)
    case WithdrawalParser => ParseWithdrawal(m, message, at)
    case DepositParser => ParseDeposit(m, message, at)
    case BuyGoodsParser => ParseBuyGoods(m, message, at)
    case PayBillParser => ParsePayBill(m, message, at)
    case AirtimeParser => ParseAirtime(m, message, at)
    case MshwariParser => ParseMshwariTransfer(m, message, at)
    case KcbParser => ParseKcbTransfer(m, message, at)
    case FulizaParser => ParseFuliza(m, message, at)
    case FulizaRepaymentParser => ParseFulizaRepayment(m, message, at)
    case BalanceParser => ParseBalance(m, message, at)
  }

  /** The `a || b || ...` chain: the result of the first extractor that returns one. */
  function Dispatch(m: Matcher, message: string, at: Stamp): (r: Option<Transaction>)
    ensures r.None? <==> forall j :: 0 <= j < |Extractors()| ==> Run(Extractors()[j], m, message, at).None?
    ensures r.Some? ==> r.value.rawMessage == message
    ensures r.Some? ==> DatedAndTimed(r.value, at)
  {
    match FirstSome(e => Run(e, m, message, at), Extractors())
    case None => None
    case Some((_, t)) => Some(t)
  }

  /**
   * `parseSMS`: nothing for a missing or empty body or one whose trimmed text
   * fails the gate, otherwise what the extractors make of the trimmed text.
   */
  function ParseSms(m: Matcher, smsBody: Option<string>, at: Stamp): (r: Option<Transaction>)
    ensures !Truthy(smsBody) ==> r.None?
    ensures Truthy(smsBody) && !IsMpesaMessage(Trim(smsBody.value)) ==> r.None?
    ensures Truthy(smsBody) && IsMpesaMessage(Trim(smsBody.value)) ==>
      r == Dispatch(m, Trim(smsBody.value), at)
    ensures r.Some? ==> r.value.rawMessage == Trim(smsBody.value)
    ensures r.Some? ==> DatedAndTimed(r.value, at)
  {
    if !Truthy(smsBody) then None
    else
      var message := Trim(smsBody.value);
      if !IsMpesaMessage(message) then None else Dispatch(m, message, at)
  }
}
