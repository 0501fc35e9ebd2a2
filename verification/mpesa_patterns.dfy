/**
 * The regular expressions of `services/SmsParser.js`, one constructor per
 * pattern, with the shape of their capture groups and the literal keywords
 * each one requires, in the order the pattern requires them (all patterns
 * are case-insensitive).
 */
module MpesaPatterns {
  import opened JsText
  import opened Matching

  datatype Pat =
    // parseSentMoney
    | SentWithPhone | SentPochi | SentAny
    // parseReceivedMoney
    | ReceivedWithPhone | ReceivedNoPhone | ReceivedAny
    // parseBuyGoods
    | GoodsConfirmed | GoodsAny
    // parsePayBill
    | BillWithAccount | BillAny
    // parseAirtime
    | AirtimeConfirmed | AirtimeAny
    // parseMshwariTransfer
    | ToMshwari | FromMshwari | ToLockSavings | FromLockSavings
    // parseKCBTransfer
    | KcbToMpesa | KcbOpened | KcbUnlocked | KcbTopUp
    // parseFuliza
    | FulizaNotice | FulizaReceived | FulizaAny
    // parseFulizaRepayment
    | FullRepay | PartialRepay | RepayAny
    // parseBalance
    | MpesaBalance | AnyBalance
    // extractBalance
    | NewBalanceIs | MpesaBalanceIs | BalanceIs
    // extractTransactionCost
    | TransactionCostComma | TransactionCostKsh | CostAny | ChargeAny | FeeAny
    // parseWithdrawal
    | WithdrawnFrom | WithdrawnAny
    // parseDeposit
    | DepositedTo | DepositedAny

  /** A regex engine: the groups of the first match of a pattern in a message, if any. */
  type Matcher = (Pat, string) -> Option<Groups>

  const A := Req(AmountKind)
  const D := Req(DateKind)
  const T := Req(TimeKind)

  /** The capture groups of each pattern, in order. */
  function Shape(p: Pat): seq<Slot> {
    match p
    case SentWithPhone => [A, Req(NoDigitKind), Req(PhoneKind), D, T]
    case SentPochi => [A, Req(NoDigitKind), D, T]
    case SentAny => [A, Req(NoDotKind), Opt(DateKind), A]
    case ReceivedWithPhone => [A, Req(NoDigitKind), Req(PhoneKind), D, T]
    case ReceivedNoPhone => [A, Req(NoDigitKind), D, T]
    case ReceivedAny => [A, Req(NoDotKind), A]
    case GoodsConfirmed => [A, Req(NoDotKind), D, T]
    case GoodsAny => [A, Req(NoDotKind), A]
    case BillWithAccount => [A, Req(NoDigitKind), Req(AccountKind), D, T]
    case BillAny => [A, Req(NoDotKind), A]
    case AirtimeConfirmed => [A, D, T]
    case AirtimeAny => [A, A]
    case ToMshwari => [A, D, T]
    case FromMshwari => [A, D, T]
    case ToLockSavings => [A, D, T]
    case FromLockSavings => [A]
    case KcbToMpesa => [A, D, T]
    case KcbOpened => [Req(NoCommaKind), Req(SchemeKind), A]
    case KcbUnlocked => [Req(NoCommaKind), Req(SchemeKind), A]
    case KcbTopUp => [Req(NoCommaKind), A]
    case FulizaNotice => [A, A]
    case FulizaReceived => [A, A, A]
    case FulizaAny => [A, A, A]
    case FullRepay => [A]
    case PartialRepay => [A]
    case RepayAny => [A, A, A]
    case MpesaBalance => [A]
    case AnyBalance => [A]
    case NewBalanceIs => [A]
    case MpesaBalanceIs => [A]
    case BalanceIs => [A]
    case TransactionCostComma => [A]
    case TransactionCostKsh => [A]
    case CostAny => [A]
    case ChargeAny => [A]
    case FeeAny => [A]
    case WithdrawnFrom => [A, Req(NoDigitLineKind), Opt(DateKind), Opt(TimeKind), A, A]
    case WithdrawnAny => [A, Req(NoDotKind), A, A]
    case DepositedTo => [A, Req(NoDigitLineKind), Opt(DateKind), Opt(TimeKind), A, A]
    case DepositedAny => [A, A, A]
  }

  /**
   * The literal keywords of each pattern (lower case), in the order it
   * requires them; a long literal is listed as consecutive pieces where a
   * piece is itself one of the `includes` tests of the extractors.
   */
  function Keywords(p: Pat): seq<string> {
    match p
    case SentWithPhone => ["confirmed.", "ksh", "sent to", "on", "at"]
    case SentPochi => ["confirmed.", "ksh", "sent to", "on", "at"]
    case SentAny => ["ksh", "sent to", "balance", "ksh"]
    case ReceivedWithPhone => ["confirmed.", "you have received ksh", "from", "on", "at"]
    case ReceivedNoPhone => ["confirmed.", "you have received ksh", "from", "on", "at"]
    case ReceivedAny => ["received ksh", "from", "balance", "ksh"]
    case GoodsConfirmed => ["confirmed.", "ksh", "paid to", ".", "on", "at"]
    case GoodsAny => ["ksh", "paid to", "balance", "ksh"]
    case BillWithAccount => ["confirmed.", "ksh", "sent to", "for account", "on", "at"]
    case BillAny => ["ksh", "sent to", "for account", "balance", "ksh"]
    case AirtimeConfirmed => ["confirmed.", "you bought ksh", "of airtime", "on", "at"]
    case AirtimeAny => ["ksh", "airtime", "balance", "ksh"]
    case ToMshwari => ["confirmed.", "ksh", "transferred to m-shwari", " account", "on", "at"]
    case FromMshwari => ["confirmed.", "ksh", "transferred from m-shwari", " account", "on", "at"]
    case ToLockSavings => ["confirmed.", "ksh", "transferred to m-shwari", " lock savings", "on", "at"]
    case FromLockSavings =>
      ["ksh.", "has been moved from your ", "lock savings", " account to your m-shwari account"]
    case KcbToMpesa =>
      ["confirmed.", "you have ", "transfered", " ksh", "from your kcb", " m-pesa account", "on", "at"]
    case KcbOpened => ["dear", ",", "you have successfully ", "opened a", " ", " savings account", "kes"]
    case KcbUnlocked => ["dear", ",", "you have ", "unlocked", " your ", " savings account", "kes"]
    case KcbTopUp => ["dear", ",", "your target saving ", "top up", " of kes", "has been received"]
    case FulizaNotice =>
      ["confirmed.", "fuliza m-pesa amount is ksh", "total fuliza m-pesa outstanding amount is ksh"]
    case FulizaReceived =>
      ["confirmed.", "you have received ksh", "fuliza", "new m-pesa balance is ksh",
       "overdraft balance is ksh"]
    case FulizaAny => ["fuliza", "ksh", "balance", "ksh", "overdraft", "ksh"]
    case FullRepay =>
      ["confirmed.", "ksh", "from your m-pesa has been used to ", "fully pay",
       " your outstanding fuliza m-pesa"]
    case PartialRepay =>
      ["confirmed.", "ksh", "from your m-pesa has been used to ", "partially pay",
       " your outstanding fuliza m-pesa"]
    case RepayAny => ["repaid", "fuliza", "ksh", "balance", "ksh", "overdraft", "ksh"]
    case MpesaBalance => ["your m-pesa balance", "ksh"]
    case AnyBalance => ["balance", "ksh"]
    case NewBalanceIs => ["new m-pesa balance is ksh"]
    case MpesaBalanceIs => ["m-pesa balance is ksh"]
    case BalanceIs => ["balance is ksh"]
    case TransactionCostComma => ["transaction cost", "ksh"]
    case TransactionCostKsh => ["transaction cost", "ksh"]
    case CostAny => ["cost", "ksh"]
    case ChargeAny => ["charge", "ksh"]
    case FeeAny => ["fee", "ksh"]
    case WithdrawnFrom =>
      ["confirmed.", "ksh", "withdrawn from", "new m-pesa balance is ksh", "transaction cost", "ksh"]
    case WithdrawnAny => ["withdrawn ksh", "from", "balance", "ksh", "cost", "ksh"]
    case DepositedTo =>
      ["confirmed.", "ksh", "deposited to", "new m-pesa balance is ksh", "transaction cost", "ksh"]
    case DepositedAny => ["deposited ksh", "balance", "ksh", "cost", "ksh"]
  }

  /**
   * What every match a real regex engine reports guarantees: the groups have
   * the pattern's shape and the message holds the pattern's keywords in order.
   */
  ghost predicate Conforms(m: Matcher) {
    ShapesConform(m) && KeywordsConform(m)
  }

  /** The groups of every match have the shape of the pattern's groups. */
  ghost predicate ShapesConform(m: Matcher) {
    forall p, message :: MatchFits(m, p, message)
  }

  ghost predicate MatchFits(m: Matcher, p: Pat, message: string) {
    m(p, message).Some? ==> Fits(m(p, message).value, Shape(p))
  }

  /** A message a pattern matches holds the pattern's keywords in order. */
  ghost predicate KeywordsConform(m: Matcher) {
    forall p, message :: MatchHasKeywords(m, p, message)
  }

  ghost predicate MatchHasKeywords(m: Matcher, p: Pat, message: string) {
    m(p, message).Some? ==> InOrder(message, Keywords(p))
  }

  /** The pattern lists of the extractors, in the order they are tried. */
  function SentPatterns(): seq<Pat> { [SentWithPhone, SentPochi, SentAny] }
  function ReceivedPatterns(): seq<Pat> { [ReceivedWithPhone, ReceivedNoPhone, ReceivedAny] }
  function BuyGoodsPatterns(): seq<Pat> { [GoodsConfirmed, GoodsAny] }
  function PayBillPatterns(): seq<Pat> { [BillWithAccount, BillAny] }
  function AirtimePatterns(): seq<Pat> { [AirtimeConfirmed, AirtimeAny] }
  function MshwariPatterns(): seq<Pat> { [ToMshwari, FromMshwari, ToLockSavings, FromLockSavings] }
  function KcbPatterns(): seq<Pat> { [KcbToMpesa, KcbOpened, KcbUnlocked, KcbTopUp] }
  function FulizaPatterns(): seq<Pat> { [FulizaNotice, FulizaReceived, FulizaAny] }
  function RepaymentPatterns(): seq<Pat> { [FullRepay, PartialRepay, RepayAny] }
  function BalancePatterns(): seq<Pat> { [MpesaBalance, AnyBalance] }
  function BalanceLinePatterns(): seq<Pat> { [NewBalanceIs, MpesaBalanceIs, BalanceIs] }
  function CostPatterns(): seq<Pat> {
    [TransactionCostComma, TransactionCostKsh, CostAny, ChargeAny, FeeAny]
  }
  function WithdrawalPatterns(): seq<Pat> { [WithdrawnFrom, WithdrawnAny] }
  function DepositPatterns(): seq<Pat> { [DepositedTo, DepositedAny] }

  /** The first pattern of `pats` that matches `message`, with its groups. */
  function FirstMatch(m: Matcher, pats: seq<Pat>, message: string): Option<(nat, Groups)> {
    FirstSome(p => m(p, message), pats)
  }

  /** No pattern of `pats` matches `message`. */
  predicate NoMatch(m: Matcher, pats: seq<Pat>, message: string) {
    forall j :: 0 <= j < |pats| ==> m(pats[j], message).None?
  }
}
