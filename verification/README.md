# M-Pesa SMS parser, modelled in Dafny

This project models `MpesaParser`, the M-Pesa SMS parser of a personal-finance
app. It takes the text of an SMS and returns either nothing or a transaction
record. The record holds:

- a type;
- a signed amount, negative for money leaving the account;
- the counter-party;
- the balance after the transaction;
- the transaction cost;
- the date and time;
- the raw message.

`parseSMS` runs in three steps:

1. It rejects a missing or empty body.
2. It trims the text and rejects it unless a keyword gate finds one of 17
   indicator phrases.
3. It tries twelve category extractors in a fixed order and returns the result
   of the first one that succeeds.

The categories are sent, received, withdrawal, deposit, buy goods, pay bill,
airtime, M-Shwari, KCB M-Pesa, Fuliza, Fuliza repayment and balance inquiry.
Each extractor tries its regular expressions in order. It builds the record
from the capture groups of the first one that matches, using shared helpers:

- `parseAmount`;
- `cleanEntityName`;
- `parseDate` and `parseTime`;
- `extractBalance` and `extractTransactionCost`;
- `extractDateFromMessage` and `extractTimeFromMessage`.

The file `services/test-mpesa.js` embeds an older copy of the class. That copy
has nine indicators, eight extractors and unsigned amounts. It reads no cost.
Its buy-goods and pay-bill patterns need 'buy goods' or 'pay bill' after
'paid to'. That copy and its sample messages are modelled as well.

Modules:

- `JsText`: the JavaScript string operations the parser relies on:
  - `trim`;
  - `toLowerCase` and `toUpperCase` on ASCII;
  - `includes`;
  - `split`;
  - `||` on strings and numbers.
- `Amounts`:
  - `parseFloat` over exact reals;
  - `parseAmount`;
  - printing of amounts with thousands separators.
- `DateTime`:
  - `parseInt`;
  - the calendar and `YYYY-MM-DD` printing;
  - `parseDate` and `parseTime`;
  - the two message scanners.
- `EntityNames`: `cleanEntityName` and what a cleaned name looks like.
- `Matching`: the abstract regex engine and the first-success search.
- `Transactions`: the record and its types.
- `MpesaPatterns`: every regex of `services/SmsParser.js`, described by its
  capture groups and its literal keywords.
- `MpesaParser`: the parser.
- `MpesaProperties` and `MpesaFields`: what is proved about the parser.
- `LegacyParser`, `LegacyProperties` and `LegacySamples`: the older copy, its
  properties, and the sample messages of `services/test-mpesa.js`.
- `MpesaSamples`: the sent sample of `services/test-mpesa.js` as the current
  parser reads it.

Every regular expression match goes through a matcher `m`. The matcher is a
parameter: a function from a pattern and a message to the capture groups of
the first match. `ShapesConform(m)` states that every match has the pattern's
groups, in number and in language (amount token, date token, time token,
digits and so on). `KeywordsConform(m)` states that a matched message holds
the pattern's literal phrases, in order. The properties that depend on the
regexes take one of these predicates as a hypothesis. Everything else is
computed by the model itself: every `includes` test, amount, name, date and
time.

The received-at timestamp enters only through `formatDate` and `formatTime`.
The model takes their two strings as a given `Stamp`.

The current parser and the older copy disagree on the sent sample of
`services/test-mpesa.js:308`. Its phone number, 254712345678, has twelve
digits. The standard sent pattern of `services/SmsParser.js:84` expects ten
digits followed by 'on', and the Pochi pattern of line 86 cannot cross the
digits. Neither of them matches, so the generic pattern of line 88 decides.
Its lazy name group stops after the 'J', its date group is absent, and its
last group is the balance. Lines 96-97 then read the date from the balance
group, which is not a date and falls back, and the time from the same group.
`MpesaSamples.SentSampleAsWritten` takes those groups as hypotheses. It proves
that `parseSMS` returns a 'sent' record of -500 to 'J', dated on the fallback
date, with '1,500.00' as its time. The older copy reads the same sample as
500.00 to JOHN DOE on 2025-06-01 at 2:30 PM (`LegacySamples.SentSampleParsed`).

## Model

| member | source | states |
|---|---|---|
| `MpesaParser.ParseSms` | services/SmsParser.js:14-47 | nothing for a missing or empty body, nothing when the trimmed text fails the gate, otherwise exactly what the extractor chain makes of the trimmed text; any record carries the trimmed text and a fallback or well-formed date and time |
| `MpesaParser.IsMpesaMessage` | services/SmsParser.js:52-75 | true exactly when the lower-cased message contains one of the 17 indicator phrases |
| `MpesaParser.Dispatch` | services/SmsParser.js:29-42 | nothing exactly when all twelve extractors return nothing; a result keeps the message it came from |
| `MpesaParser.Run` | services/SmsParser.js:29-42 | each extractor's record keeps the message and has a fallback or `YYYY-MM-DD` date and a fallback or upper-case time |
| `MpesaParser.ParseSentMoney` | services/SmsParser.js:80-112 | a 'sent' record exactly when one of the sent patterns matches, none otherwise |
| `MpesaParser.ParseReceivedMoney` | services/SmsParser.js:117-147 | a 'received' record with zero cost exactly when a received pattern matches |
| `MpesaParser.ParseBuyGoods` | services/SmsParser.js:152-181 | a 'buy_goods' record exactly when a buy-goods pattern matches |
| `MpesaParser.ParsePayBill` | services/SmsParser.js:186-216 | a 'pay_bill' record exactly when a pay-bill pattern matches |
| `MpesaParser.ParseAirtime` | services/SmsParser.js:221-250 | an 'airtime' record named 'Airtime Purchase' exactly when an airtime pattern matches |
| `MpesaParser.ParseMshwariTransfer` | services/SmsParser.js:255-304 | an 'mshwari_transfer' record exactly when an M-Shwari pattern matches |
| `MpesaParser.ParseKcbTransfer` | services/SmsParser.js:309-360 | a 'kcb_transfer' record exactly when a KCB pattern matches |
| `MpesaParser.ParseFuliza` | services/SmsParser.js:365-411 | a record exactly when a Fuliza pattern matches; it is an interest charge (amount 0, outstanding amount set) exactly when the text says 'interest charged', otherwise a loan with an overdraft balance; no cost either way |
| `MpesaParser.ParseFulizaRepayment` | services/SmsParser.js:416-446 | a record exactly when a repayment pattern matches; full exactly when the text says 'fully pay', partial otherwise; no cost and an overdraft balance of 0 |
| `MpesaParser.ParseBalance` | services/SmsParser.js:451-473 | a 'balance_inquiry' record with amount 0 and cost 0 exactly when a balance pattern matches |
| `MpesaParser.ExtractBalance` | services/SmsParser.js:478-492 | 0 when no balance phrase matches |
| `MpesaParser.ExtractTransactionCost` | services/SmsParser.js:497-514 | 0 when no cost phrase matches |
| `MpesaParser.ParseWithdrawal` | services/SmsParser.js:587-610 | a 'withdrawal' record exactly when a withdrawal pattern matches |
| `MpesaParser.ParseDeposit` | services/SmsParser.js:613-636 | a 'deposit' record exactly when a deposit pattern matches |
| `MpesaProperties.DispatchFirst` | services/SmsParser.js:29-42 | the result is that of the first extractor in the fixed order that returns one |
| `MpesaProperties.SentShadowsPayBill` | services/SmsParser.js:29-35 | a gated message any sent pattern accepts is typed 'sent', even when it is a pay-bill message, because the sent extractor is tried first |
| `MpesaProperties.HitAt` | services/SmsParser.js:91-96 | the first pattern that matches is the one at `i` when every earlier pattern fails |
| `MpesaProperties.FirstAmount` | services/SmsParser.js:91-101 | in a list whose patterns all start with an amount group, the first match's group 1 is a present amount token that parses to a non-negative value |
| `MpesaProperties.ExtractBalanceOfFirst` | services/SmsParser.js:485-490 | the balance is the amount captured by the first balance phrase that matches |
| `MpesaProperties.ExtractTransactionCostOfFirst` | services/SmsParser.js:506-511 | the cost is the amount captured by the first cost phrase that matches |
| `MpesaProperties.ExtractBalanceNonNegative` | services/SmsParser.js:478-492 | a balance read from any message is never negative |
| `MpesaProperties.ExtractTransactionCostNonNegative` | services/SmsParser.js:497-514 | a cost read from any message is never negative |
| `MpesaProperties.SentIsOutflow` | services/SmsParser.js:99-101 | a sent amount is minus the value of the amount token in group 1, so it is never positive |
| `MpesaProperties.ReceivedIsInflow` | services/SmsParser.js:134-136 | a received amount is the value of the amount token in group 1, so it is never negative and the cost is 0 |
| `MpesaProperties.BuyGoodsIsOutflow` | services/SmsParser.js:168-170 | a buy-goods amount is minus the value of the amount token in group 1, so it is never positive |
| `MpesaProperties.PayBillIsOutflow` | services/SmsParser.js:202-204 | a pay-bill amount is minus the value of the amount token in group 1, so it is never positive |
| `MpesaProperties.AirtimeIsOutflow` | services/SmsParser.js:237-240 | an airtime amount is minus the value of the amount token in group 1, so it is never positive and the entity is 'Airtime Purchase' |
| `MpesaProperties.RepaymentIsOutflow` | services/SmsParser.js:432-434 | a Fuliza repayment amount is minus the value of the amount token in group 1, so it is never positive |
| `MpesaProperties.WithdrawalIsOutflow` | services/SmsParser.js:598-599 | a withdrawal amount is minus the value of the amount token in group 1, so it is never positive |
| `MpesaProperties.DepositIsInflow` | services/SmsParser.js:624-625 | a deposit amount is the value of the amount token in group 1, so it is never negative |
| `MpesaProperties.FulizaLoanIsInflow` | services/SmsParser.js:377-399 | a Fuliza loan amount is the value of the amount token in group 1, so it is never negative |
| `MpesaProperties.MshwariSign` | services/SmsParser.js:275-289 | an M-Shwari amount is the matched amount, negated exactly when the text says 'transferred to m-shwari', or says 'lock savings' without 'transferred from m-shwari' |
| `MpesaProperties.KeywordOf` | services/SmsParser.js:257-265 | a message a pattern matched contains each of that pattern's literal phrases |
| `MpesaProperties.MshwariKeyword` | services/SmsParser.js:257-265 | a message an M-Shwari pattern matched says 'transferred to m-shwari', 'transferred from m-shwari' or 'lock savings' |
| `MpesaProperties.MshwariEntityNamed` | services/SmsParser.js:275-289 | the catch-all 'M-Shwari' label is never produced: every match names its direction |
| `MpesaFields.SchemeAsDate` | services/SmsParser.js:533-549 | 'fixed' or 'target', read as a date, gives the fallback date |
| `MpesaFields.SentStandardDateTime` | services/SmsParser.js:82-108 | the standard sent form takes its amount, name, date and time from their own groups |
| `MpesaFields.SentPochiDateTime` | services/SmsParser.js:82-108 | the Pochi sent form has one group fewer: its time group is read as the date, which falls back, and as the time |
| `MpesaFields.SentGenericDateTime` | services/SmsParser.js:82-108 | the generic sent form reads the balance amount as the date, which falls back, and as the time |
| `MpesaFields.ReceivedStandardDateTime` | services/SmsParser.js:118-142 | the standard received form reads its own date and time groups |
| `MpesaFields.ReceivedNoPhoneDateTime` | services/SmsParser.js:118-142 | the received form without a phone number reads its time group as the date, which falls back, and as the time |
| `MpesaFields.ReceivedGenericDateTime` | services/SmsParser.js:118-142 | the generic received form's date and time both fall back |
| `MpesaFields.BuyGoodsStandardDateTime` | services/SmsParser.js:153-176 | the standard buy-goods form reads its own date and time groups |
| `MpesaFields.BuyGoodsGenericDateTime` | services/SmsParser.js:153-176 | the generic buy-goods form's date and time both fall back |
| `MpesaFields.PayBillStandardFields` | services/SmsParser.js:188-211 | the standard pay-bill form records its account number, date and time from their groups |
| `MpesaFields.PayBillGenericFields` | services/SmsParser.js:188-211 | the generic pay-bill form records the balance amount as the account number; its date and time fall back |
| `MpesaFields.AirtimeStandardDateTime` | services/SmsParser.js:222-245 | the standard airtime form reads its own date and time groups |
| `MpesaFields.AirtimeGenericDateTime` | services/SmsParser.js:222-245 | the generic airtime form's date and time both fall back |
| `MpesaFields.WithdrawalStandardFields` | services/SmsParser.js:588-604 | the standard withdrawal form takes its balance and cost from their groups, and its date and time when present |
| `MpesaFields.WithdrawalGenericFields` | services/SmsParser.js:588-604 | the generic withdrawal form reads the balance amount as the date, which falls back, and the cost amount as the time |
| `MpesaFields.DepositStandardFields` | services/SmsParser.js:614-630 | the standard deposit form names the agent and takes the balance from its group |
| `MpesaFields.DepositGenericFields` | services/SmsParser.js:614-630 | the generic deposit form uses the balance amount both as the balance and, cleaned, as the entity; its date and time fall back |
| `MpesaFields.MshwariConfirmedDateTime` | services/SmsParser.js:257-297 | the three confirmed M-Shwari forms read their own date and time groups |
| `MpesaFields.ToLockSavingsLabel` | services/SmsParser.js:275-289 | a move into lock savings also says 'transferred to m-shwari' and is recorded as an 'M-Shwari Savings' outflow |
| `MpesaFields.FromLockSavingsLabel` | services/SmsParser.js:275-289 | a move out of lock savings that names neither transfer phrase is recorded as a 'M-Shwari Lock Savings' outflow |
| `MpesaFields.FromLockSavingsDateTime` | services/SmsParser.js:263-273 | the lock-savings form has no date or time group: both fall back |
| `MpesaFields.MshwariKeywordAt` | services/SmsParser.js:257-265 | a message that matched the lock-savings forms contains the phrase each of them is built around |
| `MpesaFields.KcbToMpesaFields` | services/SmsParser.js:311-332 | a transfer out of KCB M-Pesa is an unsigned amount named 'KCB M-Pesa Withdrawal' |
| `MpesaFields.KcbToMpesaKeywords` | services/SmsParser.js:311-318 | a message the first KCB pattern matched says 'transfered' and 'from your kcb' |
| `MpesaFields.KcbSavingsAmount` | services/SmsParser.js:313-342 | in the KCB savings forms group 1 is the customer's name, and the name is what is read as the amount, signed or not; a name without a digit that does not spell 'Infinity' gives 0 |
| `MpesaFields.KcbSavingsDateTime` | services/SmsParser.js:313-354 | in the opened and unlocked KCB forms the scheme word is read as the date, which falls back, and the KES amount as the time |
| `MpesaFields.KcbTopUpDateTime` | services/SmsParser.js:313-354 | in the KCB top-up form the KES amount is read as the date, which falls back, and the time falls back |
| `MpesaFields.FulizaAmountsUnsigned` | services/SmsParser.js:377-407 | every amount of a Fuliza record is non-negative: the loan, the balance, the overdraft balance and the outstanding amount |
| `MpesaFields.FulizaGroupsUnsigned` | services/SmsParser.js:366-378 | the amount groups of any Fuliza match parse to non-negative values |
| `MpesaFields.FulizaNoticeAsLoan` | services/SmsParser.js:366-407 | a Fuliza notice without 'interest charged' becomes a loan whose balance is the outstanding total and whose overdraft balance is 0 |
| `MpesaFields.FullRepaymentKind` | services/SmsParser.js:417-435 | a message the full-repayment pattern matched is always a full repayment |
| `EntityNames.CleanEntityName` | services/SmsParser.js:524-531 | 'Unknown' for a missing or empty name; otherwise a clean name: no edge whitespace, no non-word edge characters, single plain spaces, no lower-case letters |
| `EntityNames.CollapseSpaces` | services/SmsParser.js:527 | the result has only single plain spaces; it is never longer, is empty only for an empty input, and keeps non-space first and last characters |
| `EntityNames.CollapseSpacesRuns` | services/SmsParser.js:527 | the other characters are kept in order, and one space stands where each whitespace run stood |
| `EntityNames.CollapseSpacesUnique` | services/SmsParser.js:527 | the result is the only string of single plain spaces that reads like the input |
| `EntityNames.RunsDetermine` | services/SmsParser.js:527 | two strings of single plain spaces that read alike are equal |
| `EntityNames.StripNonWordEdges` | services/SmsParser.js:528 | empty exactly when the text has no word character, otherwise starting and ending with a word character; single plain spacing is kept |
| `EntityNames.StripNonWordEdgesSlice` | services/SmsParser.js:528 | what is kept is the slice of the text that starts right after its leading run of non-word characters, and only non-word characters follow it |
| `EntityNames.NormaliseWithoutTrimEnd` | services/SmsParser.js:526-530 | the trailing-whitespace removal after the edges are stripped never changes the name |
| `EntityNames.CleanNameIsFixed` | services/SmsParser.js:524-531 | cleaning a clean name gives it back |
| `EntityNames.CleanEntityNameIdempotent` | services/SmsParser.js:524-531 | cleaning a non-empty cleaned name again changes nothing |
| `EntityNames.UnknownIsNotFixed` | services/SmsParser.js:524-531 | the 'Unknown' placeholder is not stable: cleaned again it becomes 'UNKNOWN' |
| `EntityNames.CleanEntityNameWithoutWordChars` | services/SmsParser.js:524-531 | a present name without a word character cleans to the empty string, not to 'Unknown' |
| `EntityNames.NormaliseOfSpacedWords` | services/SmsParser.js:524-531 | a name with single plain spaces and word-character edges is only upper-cased |
| `Amounts.ParseAmount` | services/SmsParser.js:519-522 | 0 for a missing or empty string; never negative for a string without a minus sign |
| `Amounts.ParseFloat` | services/SmsParser.js:521 | never negative without a minus sign |
| `Amounts.ParseWholeToken` | services/SmsParser.js:521 | a string of digits is read as their value, and the empty string as `NaN` |
| `Amounts.ParseFractionToken` | services/SmsParser.js:521 | digits, a point and digits are read as the decimal they spell; a lone point is `NaN` |
| `Amounts.RemoveCommas` | services/SmsParser.js:521 | no comma is left, and a string without commas is unchanged |
| `Amounts.ParseAmountOfToken` | services/SmsParser.js:519-522 | an amount token is read as the value of its digits without the thousands commas |
| `Amounts.ParseAmountWithoutDigits` | services/SmsParser.js:519-522 | a string with no digit is read as 0, unless without its commas it spells 'Infinity' |
| `Amounts.AmountRoundTrip` | services/SmsParser.js:519-522 | a whole number printed with thousands commas, followed by a point and cents, is read back as that number plus the cents |
| `Amounts.AmountRoundTripWhole` | services/SmsParser.js:519-522 | a whole number printed with thousands commas is read back as that number |
| `Amounts.WithThousandsDigits` | services/SmsParser.js:521 | removing the commas from a number printed with thousands separators gives its digits |
| `DateTime.ParseDate` | services/SmsParser.js:533-549 | the fallback for a missing or empty string or one that does not split into three parts at '/'; otherwise a `YYYY-MM-DD` date with a year of 0–9999, or the fallback |
| `DateTime.DateOfParts` | services/SmsParser.js:538-543 | the three parts give a `YYYY-MM-DD` date with a year of 0–9999, or the fallback |
| `DateTime.ParseDateOfToken` | services/SmsParser.js:533-549 | a day/month/year of digits that names a calendar day is printed as that day, with a two-digit year taken in the 2000s |
| `DateTime.ParseDateExample` | services/SmsParser.js:533-549 | '1/6/25' is read as 1 June 2025, '2025-06-01' |
| `DateTime.IsoDateRoundTrip` | services/SmsParser.js:574-576 | the year, month and day fields of a printed date read back as the numbers printed |
| `DateTime.TokenYear` | services/SmsParser.js:540 | a two-character year is in 2000 to 2099, and the year of any date token is at most 9999 |
| `DateTime.ParseIntOfDigits` | services/SmsParser.js:541 | `parseInt` reads a plain decimal numeral as its value |
| `DateTime.ParseTime` | services/SmsParser.js:551-562 | the fallback for a missing or empty string; otherwise the trimmed string with its lower-case letters raised: as long as the trimmed string, equal to it ignoring case, with no lower-case letter and no edge whitespace |
| `DateTime.ParseTimeOfToken` | services/SmsParser.js:551-562 | a time token is returned upper-cased |
| `DateTime.ParseTimeIdempotent` | services/SmsParser.js:551-562 | parsing a parsed time again changes nothing |
| `DateTime.ExtractDateFromMessage` | services/SmsParser.js:564-567 | the fallback when the message holds no date token; otherwise a `YYYY-MM-DD` date with a year of 0–9999, or the fallback |
| `DateTime.ExtractDateLeftmost` | services/SmsParser.js:564-567 | the date comes from the leftmost date token of the message |
| `DateTime.ExtractTimeFromMessage` | services/SmsParser.js:569-572 | the fallback when the message holds no time token; otherwise an upper-case time of at least six characters |
| `DateTime.ExtractTimeLeftmost` | services/SmsParser.js:569-572 | the time is the leftmost time token of the message, upper-cased |
| `DateTime.FindDate` | services/SmsParser.js:565 | the leftmost position at which a date token starts, or none when there is none |
| `DateTime.FindTime` | services/SmsParser.js:570 | the leftmost position at which a time token starts, or none when there is none |
| `DateTime.NoSlashDate` | services/SmsParser.js:537-548 | a string without '/' is read as the fallback date |
| `DateTime.AmountTokenAsDate` | services/SmsParser.js:537-548 | an amount token is read as the fallback date |
| `DateTime.AmountTokenAsTime` | services/SmsParser.js:551-562 | an amount token is read as a time unchanged |
| `DateTime.TimeTokenAsDate` | services/SmsParser.js:537-548 | a time token is read as the fallback date |
| `JsText.LowerIncludesIff` | services/SmsParser.js:53 | a lower-cased text includes a phrase exactly when the phrase occurs at some position |
| `JsText.IncludesAny` | services/SmsParser.js:54-74 | true exactly when the lower-cased text includes one of the phrases |
| `JsText.Trim` | services/SmsParser.js:20 | the result neither starts nor ends with whitespace, and everything dropped after it is whitespace |
| `JsText.TrimIndex` | services/SmsParser.js:20 | the kept text is the input's own characters, read from its first non-whitespace character on |
| `JsText.TrimOfTrimmed` | services/SmsParser.js:20 | trimming a trimmed text changes nothing |
| `JsText.Split` | services/SmsParser.js:537 | at least one part, and no part holds the separator |
| `JsText.SplitJoin` | services/SmsParser.js:537 | joining the parts of a split with the separator gives the input back |
| `JsText.Upper` | services/SmsParser.js:530 | no lower-case letter is left, and only lower-case letters change |
| `JsText.UpperKeepsLower` | services/SmsParser.js:530 | upper-casing reads the same to a case-insensitive comparison, and doing it twice changes nothing |
| `JsText.Or` | services/SmsParser.js:96-97 | one of the two operands; a present non-empty string exactly when either operand is; the first when it is one |
| `LegacyParser.ParseSms` | services/test-mpesa.js:8-34 | nothing for a missing or empty body or a trimmed text that fails the nine-keyword gate, otherwise what the eight extractors make of the trimmed text |
| `LegacyParser.IsMpesaMessage` | services/test-mpesa.js:36-51 | true exactly when the lower-cased message contains one of the nine indicator phrases |
| `LegacyParser.Dispatch` | services/test-mpesa.js:20-29 | nothing exactly when all eight extractors return nothing |
| `LegacyParser.Run` | services/test-mpesa.js:20-29 | each extractor's record keeps the message and has a fallback or well-formed date and time |
| `LegacyParser.CleanEntityName` | services/test-mpesa.js:243-249 | 'Unknown' for a missing or empty name, otherwise a clean name |
| `LegacyParser.ParseSentMoney` | services/test-mpesa.js:53-74 | a 'sent' record exactly when a sent pattern matches |
| `LegacyParser.ParseReceivedMoney` | services/test-mpesa.js:76-97 | a 'received' record exactly when a received pattern matches |
| `LegacyParser.ParseWithdrawal` | services/test-mpesa.js:99-120 | a 'withdrawal' record exactly when a withdrawal pattern matches |
| `LegacyParser.ParseDeposit` | services/test-mpesa.js:122-143 | a 'deposit' record exactly when a deposit pattern matches |
| `LegacyParser.ParseBuyGoods` | services/test-mpesa.js:145-166 | a 'buy_goods' record exactly when a buy-goods pattern matches |
| `LegacyParser.ParsePayBill` | services/test-mpesa.js:168-189 | a 'pay_bill' record exactly when a pay-bill pattern matches |
| `LegacyParser.ParseAirtime` | services/test-mpesa.js:191-212 | an 'airtime' record named 'Airtime Purchase' exactly when an airtime pattern matches |
| `LegacyParser.ParseBalance` | services/test-mpesa.js:214-235 | a 'balance_inquiry' record named 'Balance Inquiry' with amount 0 exactly when a balance pattern matches |
| `LegacyProperties.CleanEntityNameAgrees` | services/test-mpesa.js:243-249 | the older `cleanEntityName` agrees with the newer one on every input: the extra trailing-space step never changes anything |
| `LegacyProperties.SentUnsigned` | services/test-mpesa.js:53-74 | the amount and balance of a sent record are never negative, and the amount is group 1 |
| `LegacyProperties.ReceivedUnsigned` | services/test-mpesa.js:76-97 | the amount and balance of a received record are never negative, and the amount is group 1 |
| `LegacyProperties.WithdrawalUnsigned` | services/test-mpesa.js:99-120 | the amount and balance of a withdrawal record are never negative, and the amount is group 1 |
| `LegacyProperties.DepositUnsigned` | services/test-mpesa.js:122-143 | the amount and balance of a deposit record are never negative, and the amount is group 1 |
| `LegacyProperties.BuyGoodsUnsigned` | services/test-mpesa.js:145-166 | the amount and balance of a buy-goods record are never negative, and the amount is group 1 |
| `LegacyProperties.PayBillUnsigned` | services/test-mpesa.js:168-189 | the amount and balance of a pay-bill record are never negative, and the amount is group 1 |
| `LegacyProperties.AirtimeUnsigned` | services/test-mpesa.js:191-212 | the amount and balance of an airtime record are never negative, and the amount is group 1 |
| `LegacyProperties.BalanceUnsigned` | services/test-mpesa.js:214-235 | a balance inquiry's balance is never negative |
| `LegacyProperties.RunUnsigned` | services/test-mpesa.js:20-29 | every extractor of the older copy returns unsigned amounts |
| `LegacyProperties.ParseSmsUnsigned` | services/test-mpesa.js:8-34 | no record of the older copy has a negative amount or balance |
| `LegacyProperties.DispatchFirst` | services/test-mpesa.js:20-29 | the result is that of the first extractor in the fixed order that returns one |
| `LegacyProperties.KeywordsBefore` | services/test-mpesa.js:146-149 | a matched message holds the pattern's phrases in the pattern's order |
| `LegacyProperties.BuyGoodsAfterPaidTo` | services/test-mpesa.js:146-149 | a buy-goods record comes only from a message that says 'buy goods' after 'paid to' |
| `LegacyProperties.PayBillAfterPaidTo` | services/test-mpesa.js:169-172 | a pay-bill record comes only from a message that says 'pay bill' after 'paid to' |
| `LegacySamples.SentSampleParsed` | services/test-mpesa.js:308 | the sent sample is a 'sent' record of 500.00 to JOHN DOE, balance 1500.00, on 2025-06-01 at 2:30 PM |
| `LegacySamples.ReceivedSampleParsed` | services/test-mpesa.js:311 | the received sample is a 'received' record of 1000.00 from JANE SMITH, balance 2500.00, on 2025-06-01 at 3:45 PM |
| `LegacySamples.AirtimeSampleParsed` | services/test-mpesa.js:320 | the airtime sample is an 'airtime' record of 100.00, balance 1950.00, on 2025-06-01 at 6:00 PM |
| `LegacySamples.OtpIsNotMpesa` | services/test-mpesa.js:323 | the one-time-code message holds none of the nine indicators |
| `LegacySamples.OtpYieldsNothing` | services/test-mpesa.js:323 | the one-time-code message yields no record |
| `LegacySamples.BalanceSampleParsed` | services/test-mpesa.js:326 | the balance sample is a 'balance_inquiry' of amount 0 and balance 1950.00 on 2025-06-01 at 6:30 PM |
| `LegacySamples.BalanceLast` | services/test-mpesa.js:20-29 | a message that only the balance extractor accepts is parsed by it |
| `MpesaSamples.SentSampleAsWritten` | services/SmsParser.js:82-108 | when only the generic sent pattern matches the sent sample, with groups '500.00', 'J', none and '1,500.00', the record is 'sent', -500, to 'J', on the fallback date, at time '1,500.00' |

## Left out

- The JavaScript regular-expression engine. Matching is an abstract function. Where a pattern's behaviour matters, the properties assume it through `ShapesConform` and `KeywordsConform`. The sample lemmas take the groups each sample's first pattern produces as a hypothesis, together with the failure of the earlier patterns.
- The withdrawal and buy-goods samples of `services/test-mpesa.js` (lines 314 and 317). Their results depend on how the engine backtracks through the lazy name groups, which the model does not capture.
- `formatDate` and `formatTime`: the received-at timestamp is a given pair of strings, `Stamp`. Time zones and locale formatting are not modelled.
- DateTime.ParseDate: gives the fallback for parts that do not name a calendar day. JavaScript's `Date` would roll such parts over into a neighbouring date. The model also omits the shift of `toISOString` to UTC, so dates are printed as given. It also has the two `DateTime.DateOfParts` gaps below, on years outside 0–9999 and on years of two UTF-16 code units.
- DateTime.DateOfParts: gives the fallback for a year outside 0–9999. JavaScript's `Date` holds years from about -271821 to 275760, and `toISOString` prints a year outside 0–9999 in the expanded form, as in '+012345-01-01' for '1/1/12345' and '-000050-01-01' for '1/1/-50'. A date token has two to four year digits, so this case never comes from the date regex: `DateTime.TokenYear` bounds such a year by 9999.
- DateTime.DateOfParts: counts the length of the year in characters, while `year.length === 2` counts UTF-16 code units. A year of one character outside the Basic Multilingual Plane, such as an emoji, gets the '20' prefix in JavaScript but not in the model. A date token's year is made of ASCII digits, so this case never comes from the date regex either.
- Amounts.ParseFloat: reads exact reals, not IEEE doubles. Rounding is not modelled.
- Amounts.ParseFloat: the literal 'Infinity' (after whitespace and a sign) is read as `NaN`, not as an infinity; the model has no infinite values. The predicate `InfinityLiteral` names such text.
- Amounts.ParseAmountWithoutDigits: does not cover text that spells 'Infinity' once its commas are removed, which `parseAmount` would read as an infinity.
- MpesaFields.KcbSavingsAmount: says nothing of the value when the customer's name spells 'Infinity': `parseAmount` would make the amount infinite (services/SmsParser.js:326, 336), and the model reads it as 0.
- JsText.Upper: `toLowerCase` and `toUpperCase` are modelled on ASCII letters only. Other characters are kept as they are.
- Non-string input to `parseSMS`. The model's input is an optional string, and the `typeof` test is not modelled.
- The `try`/`catch` blocks and the console logging. No modelled operation throws, except printing an invalid date, which is modelled as the fallback.
- The printing loop and timing of `services/test-mpesa.js` (lines 329-361). They only print.
- `services/databaseManager.js`, `services/notifications.js` and the app screens. They store, notify and display transactions. They are not part of this model.

