/**
 * The record `parseSMS` returns: a transaction of one of a closed set of
 * types with a signed amount, the counter-party, the balance after it, its
 * cost, the date and time it happened and the message it came from.
 */
module Transactions {
  import opened JsText

  datatype TxnType =
    | Sent | Received | Withdrawal | Deposit | BuyGoods | PayBill | Airtime
    | MshwariTransfer | KcbTransfer | FulizaCharge | FulizaLoan
    | FulizaFullRepayment | FulizaPartialRepayment | BalanceInquiry
  {
    /** The `type` label of the record. */
    function Label(): string {
      match this
      case Sent => "sent"
      case Received => "received"
      case Withdrawal => "withdrawal"
      case Deposit => "deposit"
      case BuyGoods => "buy_goods"
      case PayBill => "pay_bill"
      case Airtime => "airtime"
      case MshwariTransfer => "mshwari_transfer"
      case KcbTransfer => "kcb_transfer"
      case FulizaCharge => "fuliza_charge"
      case FulizaLoan => "fuliza_loan"
      case FulizaFullRepayment => "fuliza_full_repayment"
      case FulizaPartialRepayment => "fuliza_partial_repayment"
      case BalanceInquiry => "balance_inquiry"
    }
  }

  /**
   * What the received-at timestamp contributes: `formatDate(receivedAt)` and
   * `formatTime(receivedAt)`, taken as given strings.
   */
  datatype Stamp = Stamp(date: string, time: string)

  /**
   * A parsed transaction. The last three fields are present only for some
   * types: `accountNumber` for pay_bill, `outstandingAmount` for
   * fuliza_charge, `overdraftBalance` for fuliza_loan and the repayments.
   */
  datatype Transaction = Transaction(
    kind: TxnType,
    amount: real,
    entity: string,
    balance: real,
    transactionCost: real,
    date: string,
    time: string,
    rawMessage: string,
    accountNumber: Option<string>,
    outstandingAmount: Option<real>,
    overdraftBalance: Option<real>)
}
