/**
 * The older copy of `MpesaParser` embedded in `services/test-mpesa.js`: a
 * gate of nine keywords, eight extractors tried in a fixed order, unsigned
 * amounts, no transaction cost and buy-goods and pay-bill patterns that
 * require 'buy goods' or 'pay bill' after 'paid to'. Its `parseAmount`,
 * `parseDate`, `parseTime`, `extractDateFromMessage` and
 * `extractTimeFromMessage` are the same code as in `services/SmsParser.js`
 * and are the functions of `Amounts` and `DateTime`; its `cleanEntityName`
 * lacks the final trailing-space step and is modelled here.
 */
module LegacyParser {
  import opened JsText
  import opened Amounts
  import EntityNames
  import opened DateTime
  import opened Matching
  import opened Transactions

  datatype Pat =
    // parseSentMoney
    | SentConfirmed | SentAny
    // parseReceivedMoney
    | ReceivedConfirmed | ReceivedAny
    // parseWithdrawal
    | WithdrawnFrom | WithdrawnAny
    // parseDeposit
    | DepositedTo | DepositedAny
    // parseBuyGoods
    | GoodsConfirmed | GoodsAny
    // parsePayBill
    | BillConfirmed | BillAny
    // parseAirtime
    | AirtimeConfirmed | AirtimeAny
    // parseBalance
    | MpesaBalance | AnyBalance

  /** A regex engine: the groups of the first match of a pattern in a message, if any. */
  type Matcher = (Pat, string) -> Option<Groups>

  const A := Req(AmountKind)

  /** The capture groups of each pattern, in order (the `254…` phone part captures nothing). */
  function Shape(p: Pat): seq<Slot> {
    match p
    case SentConfirmed => [A, Req(NoDigitLineKind), Req(DateKind), Req(TimeKind), A]
    case SentAny => [A, Req(NoDigitLineKind), A]
    case ReceivedConfirmed => [A, Req(NoDigitLineKind), Req(DateKind), Req(TimeKind), A]
    case ReceivedAny => [A, Req(NoDigitLineKind), A]
    case WithdrawnFrom => [A, Req(NoDigitLineKind), Opt(DateKind), Opt(TimeKind), A]
    case WithdrawnAny => [A, Req(NoDotKind), A]
    case DepositedTo => [A, Req(NoDigitLineKind), Opt(DateKind), Opt(TimeKind), A]
    case DepositedAny => [A, A]
    case GoodsConfirmed => [A, Req(NoDigitLineKind), A]
    case GoodsAny => [A, Req(NoDotKind), A]
    case BillConfirmed => [A, Req(NoDigitLineKind), A]
    case BillAny => [A, Req(NoDotKind), A]
    case AirtimeConfirmed => [A, A]
    case AirtimeAny => [A, A]
    case MpesaBalance => [A]
    case AnyBalance => [A]
  }

  /** The literal keywords of each pattern (lower case), in the order it requires them. */
  function Keywords(p: Pat): seq<string> {
    match p
    case SentConfirmed => ["confirmed.", "ksh", "sent to", "on", "at", "new m-pesa balance is ksh"]
    case SentAny => ["ksh", "sent to", "balance", "ksh"]
    case ReceivedConfirmed =>
      ["confirmed.", "you have received ksh", "from", "on", "at", "new m-pesa balance is ksh"]
    case ReceivedAny => ["received ksh", "from", "balance", "ksh"]
    case WithdrawnFrom => ["confirmed.", "ksh", "withdrawn from", "new m-pesa balance is ksh"]
    case WithdrawnAny => ["withdrawn ksh", "from", "balance", "ksh"]
    case DepositedTo => ["confirmed.", "ksh", "deposited to", "new m-pesa balance is ksh"]
    case DepositedAny => ["deposited ksh", "balance", "ksh"]
    case GoodsConfirmed => ["confirmed.", "ksh", "paid to", "buy goods", "new m-pesa balance is ksh"]
    case GoodsAny => ["ksh", "paid to", "buy goods", "balance", "ksh"]
    case BillConfirmed => ["confirmed.", "ksh", "paid to", "pay bill", "new m-pesa balance is ksh"]
    case BillAny => ["ksh", "paid to", "pay bill", "balance", "ksh"]
    case AirtimeConfirmed => ["confirmed.", "ksh", "airtime", "new m-pesa balance is ksh"]
    case AirtimeAny => ["ksh", "airtime", "balance", "ksh"]
    case MpesaBalance => ["your m-pesa balance", "ksh"]
    case AnyBalance => ["balance", "ksh"]
  }

  /** The groups of every match have the shape of the pattern's groups. */
  ghost predicate ShapesConform(m: Matcher) {
    forall p, message :: MatchFits(m, p, message)
  }

  ghost predicate MatchFits(m: Matcher, p: Pat, message: string) {
    m(p, message).Some? ==> Fits(m(p, message).value, Shape(p))
  }

  /** A message a pattern matches holds the pattern's keywords in order. */
  ghost predicate KeywordsConform(m: Matcher) {
    forall p, message :: MatchHasKeywords(m, p, message)
  }

  ghost predicate MatchHasKeywords(m: Matcher, p: Pat, message: string) {
    m(p, message).Some? ==> InOrder(message, Keywords(p))
  }

  /** The pattern lists of the extractors, in the order they are tried. */
  function SentPatterns(): seq<Pat> { [SentConfirmed, SentAny] }
  function ReceivedPatterns(): seq<Pat> { [ReceivedConfirmed, ReceivedAny] }
  function WithdrawalPatterns(): seq<Pat> { [WithdrawnFrom, WithdrawnAny] }
  function DepositPatterns(): seq<Pat> { [DepositedTo, DepositedAny] }
  function BuyGoodsPatterns(): seq<Pat> { [GoodsConfirmed, GoodsAny] }
  function PayBillPatterns(): seq<Pat> { [BillConfirmed, BillAny] }
  function AirtimePatterns(): seq<Pat> { [AirtimeConfirmed, AirtimeAny] }
  function BalancePatterns(): seq<Pat> { [MpesaBalance, AnyBalance] }

  /** The first pattern of `pats` that matches `message`, with its groups. */
  function FirstMatch(m: Matcher, pats: seq<Pat>, message: string): Option<(nat, Groups)> {
    FirstSome(p => m(p, message), pats)
  }

  /** No pattern of `pats` matches `message`. */
  predicate NoMatch(m: Matcher, pats: seq<Pat>, message: string) {
    forall j :: 0 <= j < |pats| ==> m(pats[j], message).None?
  }

  /** The record of this copy: no transaction cost and no optional fields. */
  datatype Record = Record(
    kind: TxnType,
    amount: real,
    entity: string,
    balance: real,
    date: string,
    time: string,
    rawMessage: string)

  /** The keywords of the gate, in lower case. */
  function Indicators(): seq<string> {
    ["confirmed", "ksh", "new m-pesa balance", "transaction cost", "mpesa", "sent to",
     "received from", "withdraw", "deposit"]
  }

  /** `isMpesaMessage`: the lower-cased text contains one of the nine indicators. */
  function IsMpesaMessage(message: string): (r: bool)
    ensures r <==> exists k :: 0 <= k < |Indicators()| && LowerIncludes(message, Indicators()[k])
  {
    IncludesAny(message, Indicators())
  }

  /**
   * `cleanEntityName` of this copy: 'Unknown' for a missing or empty name,
   * otherwise trimmed, whitespace runs collapsed, non-word edges stripped
   * and upper-cased.
   */
  function CleanEntityName(name: Option<string>): (r: string)
    ensures !Truthy(name) ==> r == "Unknown"
    ensures Truthy(name) ==> EntityNames.IsCleanName(r)
  {
    if !Truthy(name) then "Unknown"
    else
      var collapsed := EntityNames.CollapseSpaces(Trim(name.value));
      var stripped := EntityNames.StripNonWordEdges(collapsed);
      EntityNames.UpperKeepsClean(stripped);
      Upper(stripped)
  }

  /** The date of a record is the fallback or a `YYYY-MM-DD` date; its time the fallback or an upper-case time. */
  predicate DatedAndTimed(t: Record, at: Stamp) {
    (t.date == at.date || IsIsoDateShape(t.date)) && (t.time == at.time || IsShownTime(t.time))
  }

  function ParseSentMoney(m: Matcher, message: string, at: Stamp): (r: Option<Record>)
    ensures r.None? <==> NoMatch(m, SentPatterns(), message)
    ensures r.Some? ==> r.value.kind == Sent && r.value.rawMessage == message
    ensures r.Some? ==> DatedAndTimed(r.value, at)
  {
    match FirstMatch(m, SentPatterns(), message)
    case None => None
    case Some((_, g)) =>
      Some(Record(
        Sent, ParseAmount(Group(g, 1)), CleanEntityName(Group(g, 2)),
        ParseAmount(Or(Group(g, 5), Group(g, 3))),
        ParseDate(Group(g, 3), at.date), ParseTime(Group(g, 4), at.time), message))
  }

  function ParseReceivedMoney(m: Matcher, message: string, at: Stamp): (r: Option<Record>)
    ensures r.None? <==> NoMatch(m, ReceivedPatterns(), message)
    ensures r.Some? ==> r.value.kind == Received && r.value.rawMessage == message
    ensures r.Some? ==> DatedAndTimed(r.value, at)
  {
    match FirstMatch(m, ReceivedPatterns(), message)
    case None => None
    case Some((_, g)) =>
      Some(Record(
        Received, ParseAmount(Group(g, 1)), CleanEntityName(Group(g, 2)),
        ParseAmount(Or(Group(g, 5), Group(g, 3))),
        ParseDate(Group(g, 3), at.date), ParseTime(Group(g, 4), at.time), message))
  }

  function ParseWithdrawal(m: Matcher, message: string, at: Stamp): (r: Option<Record>)
    ensures r.None? <==> NoMatch(m, WithdrawalPatterns(), message)
    ensures r.Some? ==> r.value.kind == Withdrawal && r.value.rawMessage == message
    ensures r.Some? ==> DatedAndTimed(r.value, at)
  {
    match FirstMatch(m, WithdrawalPatterns(), message)
    case None => None
    case Some((_, g)) =>
      Some(Record(
        Withdrawal, ParseAmount(Group(g, 1)), CleanEntityName(Group(g, 2)),
        ParseAmount(Or(Group(g, 5), Group(g, 3))),
        ParseDate(Group(g, 3), at.date), ParseTime(Group(g, 4), at.time), message))
  }

  function ParseDeposit(m: Matcher, message: string, at: Stamp): (r: Option<Record>)
    ensures r.None? <==> NoMatch(m, DepositPatterns(), message)
    ensures r.Some? ==> r.value.kind == Deposit && r.value.rawMessage == message
    ensures r.Some? ==> DatedAndTimed(r.value, at)
  {
    match FirstMatch(m, DepositPatterns(), message)
    case None => None
    case Some((_, g)) =>
      Some(Record(
        Deposit, ParseAmount(Group(g, 1)), CleanEntityName(Or(Group(g, 2), Some("M-Pesa Agent"))),
        ParseAmount(Or(Group(g, 5), Group(g, 2))),
        ParseDate(Group(g, 3), at.date), ParseTime(Group(g, 4), at.time), message))
  }

  function ParseBuyGoods(m: Matcher, message: string, at: Stamp): (r: Option<Record>)
    ensures r.None? <==> NoMatch(m, BuyGoodsPatterns(), message)
    ensures r.Some? ==> r.value.kind == BuyGoods && r.value.rawMessage == message
    ensures r.Some? ==> DatedAndTimed(r.value, at)
  {
    match FirstMatch(m, BuyGoodsPatterns(), message)
    case None => None
    case Some((_, g)) =>
      Some(Record(
        BuyGoods, ParseAmount(Group(g, 1)), CleanEntityName(Group(g, 2)), ParseAmount(Group(g, 3)),
        ExtractDateFromMessage(message, at.date), ExtractTimeFromMessage(message, at.time), message))
  }

  function ParsePayBill(m: Matcher, message: string, at: Stamp): (r: Option<Record>)
    ensures r.None? <==> NoMatch(m, PayBillPatterns(), message)
    ensures r.Some? ==> r.value.kind == PayBill && r.value.rawMessage == message
    ensures r.Some? ==> DatedAndTimed(r.value, at)
  {
    match FirstMatch(m, PayBillPatterns(), message)
    case None => None
    case Some((_, g)) =>
      Some(Record(
        PayBill, ParseAmount(Group(g, 1)), CleanEntityName(Group(g, 2)), ParseAmount(Group(g, 3)),
        ExtractDateFromMessage(message, at.date), ExtractTimeFromMessage(message, at.time), message))
  }

  function ParseAirtime(m: Matcher, message: string, at: Stamp): (r: Option<Record>)
    ensures r.None? <==> NoMatch(m, AirtimePatterns(), message)
    ensures r.Some? ==> r.value.kind == Airtime && r.value.rawMessage == message
    ensures r.Some? ==> r.value.entity == "Airtime Purchase"
    ensures r.Some? ==> DatedAndTimed(r.value, at)
  {
    match FirstMatch(m, AirtimePatterns(), message)
    case None => None
    case Some((_, g)) =>
      Some(Record(
        Airtime, ParseAmount(Group(g, 1)), "Airtime Purchase", ParseAmount(Group(g, 2)),
        ExtractDateFromMessage(message, at.date), ExtractTimeFromMessage(message, at.time), message))
  }

  function ParseBalance(m: Matcher, message: string, at: Stamp): (r: Option<Record>)
    ensures r.None? <==> NoMatch(m, BalancePatterns(), message)
    ensures r.Some? ==> r.value.kind == BalanceInquiry && r.value.rawMessage == message
    ensures r.Some? ==> r.value.amount == 0.0 && r.value.entity == "Balance Inquiry"
    ensures r.Some? ==> DatedAndTimed(r.value, at)
  {
    match FirstMatch(m, BalancePatterns(), message)
    case None => None
    case Some((_, g)) =>
      Some(Record(
        BalanceInquiry, 0.0, "Balance Inquiry", ParseAmount(Group(g, 1)),
        ExtractDateFromMessage(message, at.date), ExtractTimeFromMessage(message, at.time), message))
  }

  /** The eight extractors. */
  datatype Extractor =
    | SentMoneyParser | ReceivedMoneyParser | WithdrawalParser | DepositParser
    | BuyGoodsParser | PayBillParser | AirtimeParser | BalanceParser

  /** The order `parseSMS` tries them in. */
  function Extractors(): seq<Extractor> {
    [SentMoneyParser, ReceivedMoneyParser, WithdrawalParser, DepositParser,
     BuyGoodsParser, PayBillParser, AirtimeParser, BalanceParser]
  }

  /** The extractor function each name in the chain stands for. */
  function Parser(e: Extractor): (Matcher, string, Stamp) -> Option<Record> {
    match e
    case SentMoneyParser => ParseSentMoney
    case ReceivedMoneyParser => ParseReceivedMoney
    case WithdrawalParser => ParseWithdrawal
    case DepositParser => ParseDeposit
    case BuyGoodsParser => ParseBuyGoods
    case PayBillParser => ParsePayBill
    case AirtimeParser => ParseAirtime
    case BalanceParser => ParseBalance
  }

  function Run(e: Extractor, m: Matcher, message: string, at: Stamp): (r: Option<Record>)
    ensures r.Some? ==> r.value.rawMessage == message
    ensures r.Some? ==> DatedAndTimed(r.value, at)
  {
    Parser(e)(m, message, at)
  }

  /** The `a || b || ...` chain: the result of the first extractor that returns one. */
  function Dispatch(m: Matcher, message: string, at: Stamp): (r: Option<Record>)
    ensures r.None? <==> forall j :: 0 <= j < |Extractors()| ==> Run(Extractors()[j], m, message, at).None?
    ensures r.Some? ==> r.value.rawMessage == message
    ensures r.Some? ==> DatedAndTimed(r.value, at)
  {
    match FirstSome(e => Run(e, m, message, at), Extractors())
    case None => None
    case Some((_, t)) => Some(t)
  }

  /**
   * `parseSMS`: nothing for a missing or empty body or one whose trimmed text
   * fails the gate, otherwise what the extractors make of the trimmed text.
   */
  function ParseSms(m: Matcher, smsBody: Option<string>, at: Stamp): (r: Option<Record>)
    ensures !Truthy(smsBody) ==> r.None?
    ensures Truthy(smsBody) && !IsMpesaMessage(Trim(smsBody.value)) ==> r.None?
    ensures Truthy(smsBody) && IsMpesaMessage(Trim(smsBody.value)) ==>
      r == Dispatch(m, Trim(smsBody.value), at)
    ensures r.Some? ==> r.value.rawMessage == Trim(smsBody.value)
    ensures r.Some? ==> DatedAndTimed(r.value, at)
  {
    if !Truthy(smsBody) then None
    else
      var message := Trim(smsBody.value);
      if !IsMpesaMessage(message) then None else Dispatch(m, message, at)
  }
}
