/**
 Row validation, normalisation and fingerprints.

 A text cell carries what the string, decimal and date libraries make of it; everything the
 validation decides on top of that is modelled: which fields are read, in which order they
 fail, and with which code.
 */
module Validation {
  import opened Wrappers
  import opened Decimals

  datatype Field =
    | EntityType | Provider | ExternalId
    | MerchantId | MerchantExternalId | OrderId | OrderExternalId
    | PaymentId | PaymentExternalId | SettlementId | SettlementExternalId
    | AmountField | CurrencyField | Status | FeeType | PaymentMethod | ProcessedAt | Reason
    | GrossAmount | FeeAmount | AdjustmentAmount | ExpectedNet | ActualSettled | SettlementDate
    | TransactionType | TransactionDate | Description

  datatype DecimalView = NotADecimal | NotFinite | Finite(d: Decimal)

  const DAY: int := 86_400_000_000

  /** A time zone offset in microseconds, less than a day either way. */
  type Offset = x: int | -DAY < x < DAY witness 0

  /** A parsed datetime: the instant it names, and the offset it is written in (zero when none is given). */
  datatype Stamp = Stamp(instant: int, offset: Offset)

  /**
   `text` is stripped, `padded` says whether that removed anything; `upper` is the upper-case
   form; `date` what the ISO-8601 parser makes of it.
   */
  datatype Cell =
    | Text(text: string, padded: bool, upper: string, decimal: DecimalView, date: Option<Stamp>)
    | Integer(n: int)
    | Float
    | Boolean
    | Compound

  /** A raw source row; a null cell is an absent one. */
  type Raw = map<Field, Cell>

  datatype ErrorCode =
    | UnsupportedRecordType | MissingRequiredField | InvalidAmount | InvalidCurrency
    | MalformedDate | InvalidStatus | InvalidReference | InvalidField

  datatype Result<+T> = Ok(value: T) | Err(code: ErrorCode) {
    predicate IsFailure() { Err? }
    function PropagateFailure<U>(): Result<U>
      requires Err?
    { Err(code) }
    function Extract(): T
      requires Ok?
    { value }
  }

  datatype Ref = ById(id: string) | ByExternalId(externalId: string)

  datatype Entity = Payment | Refund | Fee | Settlement | BankTransaction

  datatype Payload =
    | PaymentRow(merchant: Ref, order: Ref, amount: Amount, currency: string, status: string,
                 paymentMethod: Option<string>, processedAt: Option<Stamp>)
    | RefundRow(payment: Ref, amount: Amount, currency: string, status: string,
                reason: Option<string>, processedAt: Option<Stamp>)
    | FeeRow(merchant: Ref, feePayment: Option<Ref>, feeSettlement: Option<Ref>, feeType: string,
             amount: Amount, currency: string)
    | SettlementRow(merchant: Ref, gross: Amount, fee: Amount, adjustment: Amount, expectedNet: Option<Amount>,
                    actual: Option<Amount>, currency: string, settlementDate: Stamp, status: string)
    | BankRow(merchant: Ref, bankSettlement: Option<Ref>, amount: Amount, currency: string,
              transactionType: string, transactionDate: Stamp, status: string, description: Option<string>)

  datatype Identity = Identity(entity: Entity, provider: string, externalId: string)

  datatype Row = Row(provider: string, externalId: string, payload: Payload)

  function EntityOf(p: Payload): Entity {
    match p
    case PaymentRow(_, _, _, _, _, _, _) => Payment
    case RefundRow(_, _, _, _, _, _) => Refund
    case FeeRow(_, _, _, _, _, _) => Fee
    case SettlementRow(_, _, _, _, _, _, _, _, _) => Settlement
    case BankRow(_, _, _, _, _, _, _, _) => BankTransaction
  }

  function IdentityOf(r: Row): Identity {
    Identity(EntityOf(r.payload), r.provider, r.externalId)
  }

  // ---------------------------------------------------------------- parsers

  function ParseAmount(raw: Raw, f: Field): (r: Result<Amount>)
    ensures r.Ok? ==> f in raw && (raw[f].Integer? || raw[f].Text?)
  {
    if f !in raw then Err(InvalidAmount)
    else match raw[f]
      case Integer(n) => Ok(Decimal(n < 0, if n < 0 then -n else n, 0))
      case Text(_, _, _, Finite(d), _) => if d.exponent < -4 then Err(InvalidAmount) else Ok(d)
      case _ => Err(InvalidAmount)
  }

  function OptionalAmount(raw: Raw, f: Field): Result<Option<Amount>> {
    if f !in raw then Ok(None) else var a :- ParseAmount(raw, f); Ok(Some(a))
  }

  function ParseDate(raw: Raw, f: Field): Result<Stamp> {
    if f in raw && raw[f].Text? && raw[f].date.Some? then Ok(raw[f].date.value) else Err(MalformedDate)
  }

  function OptionalDate(raw: Raw, f: Field): Result<Option<Stamp>> {
    if f !in raw then Ok(None) else var d :- ParseDate(raw, f); Ok(Some(d))
  }

  function ParseVocabulary(raw: Raw, f: Field, allowed: set<string>, code: ErrorCode): Result<string> {
    if f in raw && raw[f].Text? && raw[f].upper in allowed then Ok(raw[f].upper) else Err(code)
  }

  function OptionalText(raw: Raw, f: Field): Result<Option<string>> {
    if f !in raw then Ok(None)
    else if raw[f].Text? && raw[f].text != "" then Ok(Some(raw[f].text))
    else Err(InvalidField)
  }

  function RequiredText(raw: Raw, f: Field): Result<string> {
    var t :- OptionalText(raw, f);
    if t.None? then Err(MissingRequiredField) else Ok(t.value)
  }

  /** Exactly one of the two reference fields may be given. */
  function OptionalReference(raw: Raw, idField: Field, externalField: Field): Result<Option<Ref>> {
    var byId :- OptionalText(raw, idField);
    var byExternal :- OptionalText(raw, externalField);
    if byId.Some? && byExternal.Some? then Err(InvalidReference)
    else if byId.Some? then Ok(Some(ById(byId.value)))
    else if byExternal.Some? then Ok(Some(ByExternalId(byExternal.value)))
    else Ok(None)
  }

  function Reference(raw: Raw, idField: Field, externalField: Field): Result<Ref> {
    var r :- OptionalReference(raw, idField, externalField);
    if r.None? then Err(MissingRequiredField) else Ok(r.value)
  }

  const CURRENCIES := {"USD", "EUR", "GBP", "INR", "CAD", "AUD", "JPY"}
  const PAYMENT_STATUSES :=
      {"PENDING", "AUTHORIZED", "CAPTURED", "FAILED", "CANCELLED", "REFUNDED", "PARTIALLY_REFUNDED"}
  const REFUND_STATUSES := {"PENDING", "SUCCEEDED", "FAILED"}
  const FEE_TYPES := {"PROCESSING", "PLATFORM", "TAX", "ADJUSTMENT"}
  const SETTLEMENT_STATUSES := {"PENDING", "PROCESSING", "SETTLED", "DISCREPANT", "FAILED"}
  const BANK_TYPES := {"CREDIT", "DEBIT"}
  const BANK_STATUSES := {"POSTED", "PENDING"}

  /** A currency must be three letters as it stands: unlike the other texts it is not stripped. */
  function ParseCurrency(raw: Raw): Result<string> {
    if CurrencyField in raw && raw[CurrencyField].Text? && !raw[CurrencyField].padded && |raw[CurrencyField].text| == 3
    then ParseVocabulary(raw, CurrencyField, CURRENCIES, InvalidCurrency)
    else Err(InvalidCurrency)
  }

  function ParseEntity(raw: Raw): Result<Entity> {
    var text :- RequiredText(raw, EntityType);
    var upper := if EntityType in raw && raw[EntityType].Text? then raw[EntityType].upper else text;
    if upper == "PAYMENT" then Ok(Payment)
    else if upper == "REFUND" then Ok(Refund)
    else if upper == "FEE" then Ok(Fee)
    else if upper == "SETTLEMENT" then Ok(Settlement)
    else if upper == "BANK_TRANSACTION" then Ok(BankTransaction)
    else Err(UnsupportedRecordType)
  }

  function NormalizePayment(raw: Raw): Result<Payload> {
    var merchant :- Reference(raw, MerchantId, MerchantExternalId);
    var order :- Reference(raw, OrderId, OrderExternalId);
    var amount :- ParseAmount(raw, AmountField);
    var currency :- ParseCurrency(raw);
    var status :- ParseVocabulary(raw, Status, PAYMENT_STATUSES, InvalidStatus);
    var paymentMethod :- OptionalText(raw, PaymentMethod);
    var processedAt :- OptionalDate(raw, ProcessedAt);
    Ok(PaymentRow(merchant, order, amount, currency, status, paymentMethod, processedAt))
  }

  function NormalizeRefund(raw: Raw): Result<Payload> {
    var payment :- Reference(raw, PaymentId, PaymentExternalId);
    var amount :- ParseAmount(raw, AmountField);
    var currency :- ParseCurrency(raw);
    var status :- ParseVocabulary(raw, Status, REFUND_STATUSES, InvalidStatus);
    var reason :- OptionalText(raw, Reason);
    var processedAt :- OptionalDate(raw, ProcessedAt);
    Ok(RefundRow(payment, amount, currency, status, reason, processedAt))
  }

  function NormalizeFee(raw: Raw): Result<Payload> {
    var merchant :- Reference(raw, MerchantId, MerchantExternalId);
    var payment :- OptionalReference(raw, PaymentId, PaymentExternalId);
    var settlement :- OptionalReference(raw, SettlementId, SettlementExternalId);
    var feeType :- ParseVocabulary(raw, FeeType, FEE_TYPES, InvalidStatus);
    var amount :- ParseAmount(raw, AmountField);
    var currency :- ParseCurrency(raw);
    Ok(FeeRow(merchant, payment, settlement, feeType, amount, currency))
  }

  const ZERO: Amount := Decimal(false, 0, 0)

  function OrZero(a: Option<Amount>): Amount {
    if a.Some? then a.value else ZERO
  }

  function NormalizeSettlement(raw: Raw): Result<Payload> {
    var merchant :- Reference(raw, MerchantId, MerchantExternalId);
    var gross :- ParseAmount(raw, GrossAmount);
    var fee :- OptionalAmount(raw, FeeAmount);
    var adjustment :- OptionalAmount(raw, AdjustmentAmount);
    var expectedNet :- OptionalAmount(raw, ExpectedNet);
    var actual :- OptionalAmount(raw, ActualSettled);
    var currency :- ParseCurrency(raw);
    var date :- ParseDate(raw, SettlementDate);
    var status :- ParseVocabulary(raw, Status, SETTLEMENT_STATUSES, InvalidStatus);
    Ok(SettlementRow(merchant, gross, OrZero(fee), OrZero(adjustment), expectedNet, actual, currency, date, status))
  }

  function NormalizeBank(raw: Raw): Result<Payload> {
    var merchant :- Reference(raw, MerchantId, MerchantExternalId);
    var settlement :- OptionalReference(raw, SettlementId, SettlementExternalId);
    var amount :- ParseAmount(raw, AmountField);
    var currency :- ParseCurrency(raw);
    var transactionType :- ParseVocabulary(raw, TransactionType, BANK_TYPES, InvalidStatus);
    var date :- ParseDate(raw, TransactionDate);
    var status :- ParseVocabulary(raw, Status, BANK_STATUSES, InvalidStatus);
    var description :- OptionalText(raw, Description);
    Ok(BankRow(merchant, settlement, amount, currency, transactionType, date, status, description))
  }

  function NormalizePayload(entity: Entity, raw: Raw): Result<Payload> {
    match entity
    case Payment => NormalizePayment(raw)
    case Refund => NormalizeRefund(raw)
    case Fee => NormalizeFee(raw)
    case Settlement => NormalizeSettlement(raw)
    case BankTransaction => NormalizeBank(raw)
  }

  function Normalize(raw: Raw): Result<Row> {
    var entity :- ParseEntity(raw);
    var provider :- RequiredText(raw, Provider);
    if |provider| > 64 then Err(InvalidField)
    else
      var externalId :- RequiredText(raw, ExternalId);
      if |externalId| > 255 then Err(InvalidField)
      else
        var payload :- NormalizePayload(entity, raw);
        Ok(Row(provider, externalId, payload))
  }

  // ---------------------------------------------------------------- which error a row gets

  datatype Check =
    | NeedsReference(a: Field, b: Field) | MayReference(a: Field, b: Field)
    | NeedsAmount(f: Field) | MayAmount(f: Field)
    | IsCurrency
    | IsWord(f: Field, allowed: set<string>)
    | MayText(f: Field)
    | NeedsDate(f: Field) | MayDate(f: Field)

  predicate Absent(raw: Raw, f: Field) {
    f !in raw
  }

  predicate HasText(raw: Raw, f: Field) {
    f in raw && raw[f].Text? && raw[f].text != ""
  }

  predicate HasAmount(raw: Raw, f: Field) {
    f in raw && (raw[f].Integer? || (raw[f].Text? && raw[f].decimal.Finite? && raw[f].decimal.d.exponent >= -4))
  }

  predicate HasDate(raw: Raw, f: Field) {
    f in raw && raw[f].Text? && raw[f].date.Some?
  }

  predicate HasWord(raw: Raw, f: Field, allowed: set<string>) {
    f in raw && raw[f].Text? && raw[f].upper in allowed
  }

  /** What is wrong with a row under one check, None if nothing is. */
  function Fault(raw: Raw, c: Check): Option<ErrorCode> {
    match c
    case NeedsReference(a, b) =>
      if !(Absent(raw, a) || HasText(raw, a)) || !(Absent(raw, b) || HasText(raw, b)) then Some(InvalidField)
      else if HasText(raw, a) && HasText(raw, b) then Some(InvalidReference)
      else if Absent(raw, a) && Absent(raw, b) then Some(MissingRequiredField)
      else None
    case MayReference(a, b) =>
      if !(Absent(raw, a) || HasText(raw, a)) || !(Absent(raw, b) || HasText(raw, b)) then Some(InvalidField)
      else if HasText(raw, a) && HasText(raw, b) then Some(InvalidReference)
      else None
    case NeedsAmount(f) => if HasAmount(raw, f) then None else Some(InvalidAmount)
    case MayAmount(f) => if Absent(raw, f) || HasAmount(raw, f) then None else Some(InvalidAmount)
    case IsCurrency =>
      if HasWord(raw, CurrencyField, CURRENCIES) && !raw[CurrencyField].padded && |raw[CurrencyField].text| == 3
      then None else Some(InvalidCurrency)
    case IsWord(f, allowed) => if HasWord(raw, f, allowed) then None else Some(InvalidStatus)
    case MayText(f) => if Absent(raw, f) || HasText(raw, f) then None else Some(InvalidField)
    case NeedsDate(f) => if HasDate(raw, f) then None else Some(MalformedDate)
    case MayDate(f) => if Absent(raw, f) || HasDate(raw, f) then None else Some(MalformedDate)
  }

  function Or(a: Option<ErrorCode>, b: Option<ErrorCode>): Option<ErrorCode> {
    if a.Some? then a else b
  }

  /** The checks of each record type in the order they are made: the first that fails decides. */
  function FirstFault(raw: Raw, entity: Entity): Option<ErrorCode> {
    match entity
    case Payment =>
      Or(Fault(raw, NeedsReference(MerchantId, MerchantExternalId)),
      Or(Fault(raw, NeedsReference(OrderId, OrderExternalId)), Or(Fault(raw, NeedsAmount(AmountField)),
      Or(Fault(raw, IsCurrency), Or(Fault(raw, IsWord(Status, PAYMENT_STATUSES)),
      Or(Fault(raw, MayText(PaymentMethod)), Fault(raw, MayDate(ProcessedAt))))))))
    case Refund =>
      Or(Fault(raw, NeedsReference(PaymentId, PaymentExternalId)), Or(Fault(raw, NeedsAmount(AmountField)),
      Or(Fault(raw, IsCurrency), Or(Fault(raw, IsWord(Status, REFUND_STATUSES)),
      Or(Fault(raw, MayText(Reason)), Fault(raw, MayDate(ProcessedAt)))))))
    case Fee =>
      Or(Fault(raw, NeedsReference(MerchantId, MerchantExternalId)),
      Or(Fault(raw, MayReference(PaymentId, PaymentExternalId)),
      Or(Fault(raw, MayReference(SettlementId, SettlementExternalId)), Or(Fault(raw, IsWord(FeeType, FEE_TYPES)),
      Or(Fault(raw, NeedsAmount(AmountField)), Fault(raw, IsCurrency))))))
    case Settlement =>
      Or(Fault(raw, NeedsReference(MerchantId, MerchantExternalId)), Or(Fault(raw, NeedsAmount(GrossAmount)),
      Or(Fault(raw, MayAmount(FeeAmount)), Or(Fault(raw, MayAmount(AdjustmentAmount)),
      Or(Fault(raw, MayAmount(ExpectedNet)), Or(Fault(raw, MayAmount(ActualSettled)),
      Or(Fault(raw, IsCurrency), Or(Fault(raw, NeedsDate(SettlementDate)),
      Fault(raw, IsWord(Status, SETTLEMENT_STATUSES))))))))))
    case BankTransaction =>
      Or(Fault(raw, NeedsReference(MerchantId, MerchantExternalId)),
      Or(Fault(raw, MayReference(SettlementId, SettlementExternalId)), Or(Fault(raw, NeedsAmount(AmountField)),
      Or(Fault(raw, IsCurrency), Or(Fault(raw, IsWord(TransactionType, BANK_TYPES)),
      Or(Fault(raw, NeedsDate(TransactionDate)), Or(Fault(raw, IsWord(Status, BANK_STATUSES)),
      Fault(raw, MayText(Description)))))))))
  }

  function ErrorOf<T>(r: Result<T>): Option<ErrorCode> {
    if r.Err? then Some(r.code) else None
  }

  lemma ParserFaults(raw: Raw)
    ensures forall a, b :: ErrorOf(Reference(raw, a, b)) == Fault(raw, NeedsReference(a, b))
    ensures forall a, b :: ErrorOf(OptionalReference(raw, a, b)) == Fault(raw, MayReference(a, b))
    ensures forall f :: ErrorOf(ParseAmount(raw, f)) == Fault(raw, NeedsAmount(f))
    ensures forall f :: ErrorOf(OptionalAmount(raw, f)) == Fault(raw, MayAmount(f))
    ensures ErrorOf(ParseCurrency(raw)) == Fault(raw, IsCurrency)
    ensures forall f, allowed ::
        ErrorOf(ParseVocabulary(raw, f, allowed, InvalidStatus)) == Fault(raw, IsWord(f, allowed))
    ensures forall f :: ErrorOf(OptionalText(raw, f)) == Fault(raw, MayText(f))
    ensures forall f :: ErrorOf(ParseDate(raw, f)) == Fault(raw, NeedsDate(f))
    ensures forall f :: ErrorOf(OptionalDate(raw, f)) == Fault(raw, MayDate(f))
  {
  }

  /** Each record type accepts exactly the rows that pass all its checks, and reports the first one that fails. */
  lemma FirstFailureDecides(raw: Raw, entity: Entity)
    ensures ErrorOf(NormalizePayload(entity, raw)) == FirstFault(raw, entity)
  {
    ParserFaults(raw);
    match entity {
      case Payment =>
      case Refund =>
      case Fee =>
      case Settlement =>
      case BankTransaction =>
    }
  }

  // ---------------------------------------------------------------- which rows there are

  predicate Worded(r: Ref) {
    if r.ById? then r.id != "" else r.externalId != ""
  }

  predicate WordedIfAny(o: Option<string>) {
    o.Some? ==> o.value != ""
  }

  predicate RefIfAny(o: Option<Ref>) {
    o.Some? ==> Worded(o.value)
  }

  predicate PayloadWellFormed(p: Payload) {
    match p
    case PaymentRow(m, o, _, c, s, pm, _) =>
      Worded(m) && Worded(o) && c in CURRENCIES && s in PAYMENT_STATUSES && WordedIfAny(pm)
    case RefundRow(pay, _, c, s, why, _) => Worded(pay) && c in CURRENCIES && s in REFUND_STATUSES && WordedIfAny(why)
    case FeeRow(m, pay, set_, t, _, c) => Worded(m) && RefIfAny(pay) && RefIfAny(set_) && t in FEE_TYPES &&
        c in CURRENCIES
    case SettlementRow(m, _, _, _, _, _, c, _, s) => Worded(m) && c in CURRENCIES && s in SETTLEMENT_STATUSES
    case BankRow(m, set_, _, c, t, _, s, d) =>
      Worded(m) && RefIfAny(set_) && c in CURRENCIES && t in BANK_TYPES && s in BANK_STATUSES && WordedIfAny(d)
  }

  predicate WellFormed(r: Row) {
    0 < |r.provider| <= 64 && 0 < |r.externalId| <= 255 && PayloadWellFormed(r.payload)
  }

  function Plain(text: string): Cell {
    Text(text, false, text, NotADecimal, None)
  }

  function Numeral(a: Amount): Cell {
    Text("0", false, "0", Finite(a), None)
  }

  function Dated(t: Stamp): Cell {
    Text("d", false, "D", NotADecimal, Some(t))
  }

  function IdCell(r: Ref): Option<Cell> {
    if r.ById? then Some(Plain(r.id)) else None
  }

  function ExternalCell(r: Ref): Option<Cell> {
    if r.ByExternalId? then Some(Plain(r.externalId)) else None
  }

  function IdCellIfAny(r: Option<Ref>): Option<Cell> {
    if r.Some? then IdCell(r.value) else None
  }

  function ExternalCellIfAny(r: Option<Ref>): Option<Cell> {
    if r.Some? then ExternalCell(r.value) else None
  }

  function TextIfAny(o: Option<string>): Option<Cell> {
    if o.Some? then Some(Plain(o.value)) else None
  }

  function DateIfAny(o: Option<Stamp>): Option<Cell> {
    if o.Some? then Some(Dated(o.value)) else None
  }

  function AmountIfAny(o: Option<Amount>): Option<Cell> {
    if o.Some? then Some(Numeral(o.value)) else None
  }

  function PayloadCell(p: Payload, f: Field): Option<Cell> {
    match p
    case PaymentRow(m, o, a, c, s, pm, at) => (
      match f
      case MerchantId => IdCell(m)
      case MerchantExternalId => ExternalCell(m)
      case OrderId => IdCell(o)
      case OrderExternalId => ExternalCell(o)
      case AmountField => Some(Numeral(a))
      case CurrencyField => Some(Plain(c))
      case Status => Some(Plain(s))
      case PaymentMethod => TextIfAny(pm)
      case ProcessedAt => DateIfAny(at)
      case _ => None)
    case RefundRow(pay, a, c, s, why, at) => (
      match f
      case PaymentId => IdCell(pay)
      case PaymentExternalId => ExternalCell(pay)
      case AmountField => Some(Numeral(a))
      case CurrencyField => Some(Plain(c))
      case Status => Some(Plain(s))
      case Reason => TextIfAny(why)
      case ProcessedAt => DateIfAny(at)
      case _ => None)
    case FeeRow(m, pay, set_, t, a, c) => (
      match f
      case MerchantId => IdCell(m)
      case MerchantExternalId => ExternalCell(m)
      case PaymentId => IdCellIfAny(pay)
      case PaymentExternalId => ExternalCellIfAny(pay)
      case SettlementId => IdCellIfAny(set_)
      case SettlementExternalId => ExternalCellIfAny(set_)
      case FeeType => Some(Plain(t))
      case AmountField => Some(Numeral(a))
      case CurrencyField => Some(Plain(c))
      case _ => None)
    case SettlementRow(m, g, fee, adj, net, act, c, at, s) => (
      match f
      case MerchantId => IdCell(m)
      case MerchantExternalId => ExternalCell(m)
      case GrossAmount => Some(Numeral(g))
      case FeeAmount => Some(Numeral(fee))
      case AdjustmentAmount => Some(Numeral(adj))
      case ExpectedNet => AmountIfAny(net)
      case ActualSettled => AmountIfAny(act)
      case CurrencyField => Some(Plain(c))
      case SettlementDate => Some(Dated(at))
      case Status => Some(Plain(s))
      case _ => None)
    case BankRow(m, set_, a, c, t, at, s, d) => (
      match f
      case MerchantId => IdCell(m)
      case MerchantExternalId => ExternalCell(m)
      case SettlementId => IdCellIfAny(set_)
      case SettlementExternalId => ExternalCellIfAny(set_)
      case AmountField => Some(Numeral(a))
      case CurrencyField => Some(Plain(c))
      case TransactionType => Some(Plain(t))
      case TransactionDate => Some(Dated(at))
      case Status => Some(Plain(s))
      case Description => TextIfAny(d)
      case _ => None)
  }

  function EntityName(e: Entity): string {
    match e
    case Payment => "PAYMENT"
    case Refund => "REFUND"
    case Fee => "FEE"
    case Settlement => "SETTLEMENT"
    case BankTransaction => "BANK_TRANSACTION"
  }

  function RowCell(r: Row, f: Field): Option<Cell> {
    match f
    case EntityType => Some(Plain(EntityName(EntityOf(r.payload))))
    case Provider => Some(Plain(r.provider))
    case ExternalId => Some(Plain(r.externalId))
    case _ => PayloadCell(r.payload, f)
  }

  /** A source row that spells out a normalised row. */
  function Spell(r: Row): Raw {
    map f: Field | RowCell(r, f).Some? :: RowCell(r, f).value
  }

  function CellAt(raw: Raw, f: Field): Option<Cell> {
    if f in raw then Some(raw[f]) else None
  }

  lemma ReferenceRoundTrip(raw: Raw, r: Ref, a: Field, b: Field)
    requires Worded(r) && CellAt(raw, a) == IdCell(r) && CellAt(raw, b) == ExternalCell(r)
    ensures Reference(raw, a, b) == Ok(r)
  {
  }

  lemma OptionalReferenceRoundTrip(raw: Raw, r: Option<Ref>, a: Field, b: Field)
    requires RefIfAny(r) && CellAt(raw, a) == IdCellIfAny(r) && CellAt(raw, b) == ExternalCellIfAny(r)
    ensures OptionalReference(raw, a, b) == Ok(r)
  {
  }

  lemma CurrencyRoundTrip(raw: Raw, c: string)
    requires c in CURRENCIES && CellAt(raw, CurrencyField) == Some(Plain(c))
    ensures ParseCurrency(raw) == Ok(c)
  {
    assert |c| == 3;
  }

  lemma AmountRoundTrip(raw: Raw, f: Field, a: Amount)
    requires CellAt(raw, f) == Some(Numeral(a))
    ensures ParseAmount(raw, f) == Ok(a) && OptionalAmount(raw, f) == Ok(Some(a))
  {
  }

  lemma OptionalAmountRoundTrip(raw: Raw, f: Field, o: Option<Amount>)
    requires CellAt(raw, f) == AmountIfAny(o)
    ensures OptionalAmount(raw, f) == Ok(o)
  {
    if o.Some? { AmountRoundTrip(raw, f, o.value); }
  }

  lemma WordRoundTrip(raw: Raw, f: Field, allowed: set<string>, w: string)
    requires w in allowed && CellAt(raw, f) == Some(Plain(w))
    ensures ParseVocabulary(raw, f, allowed, InvalidStatus) == Ok(w)
  {
  }

  lemma TextRoundTrip(raw: Raw, f: Field, o: Option<string>)
    requires WordedIfAny(o) && CellAt(raw, f) == TextIfAny(o)
    ensures OptionalText(raw, f) == Ok(o)
  {
  }

  lemma DateRoundTrip(raw: Raw, f: Field, t: Stamp)
    requires CellAt(raw, f) == Some(Dated(t))
    ensures ParseDate(raw, f) == Ok(t)
  {
  }

  lemma OptionalDateRoundTrip(raw: Raw, f: Field, o: Option<Stamp>)
    requires CellAt(raw, f) == DateIfAny(o)
    ensures OptionalDate(raw, f) == Ok(o)
  {
    if o.Some? { DateRoundTrip(raw, f, o.value); }
  }

  predicate Spells(p: Payload, raw: Raw) {
    forall f :: f !in {EntityType, Provider, ExternalId} ==> CellAt(raw, f) == PayloadCell(p, f)
  }

  lemma PaymentReferencesParse(p: Payload, raw: Raw)
    requires p.PaymentRow? && PayloadWellFormed(p) && Spells(p, raw)
    ensures Reference(raw, MerchantId, MerchantExternalId) == Ok(p.merchant)
    ensures Reference(raw, OrderId, OrderExternalId) == Ok(p.order)
    ensures ParseAmount(raw, AmountField) == Ok(p.amount)
    ensures ParseCurrency(raw) == Ok(p.currency)
  {
    ReferenceRoundTrip(raw, p.merchant, MerchantId, MerchantExternalId);
    ReferenceRoundTrip(raw, p.order, OrderId, OrderExternalId);
    AmountRoundTrip(raw, AmountField, p.amount);
    CurrencyRoundTrip(raw, p.currency);
  }

  lemma PaymentValuesParse(p: Payload, raw: Raw)
    requires p.PaymentRow? && PayloadWellFormed(p) && Spells(p, raw)
    ensures ParseVocabulary(raw, Status, PAYMENT_STATUSES, InvalidStatus) == Ok(p.status)
    ensures OptionalText(raw, PaymentMethod) == Ok(p.paymentMethod)
    ensures OptionalDate(raw, ProcessedAt) == Ok(p.processedAt)
  {
    WordRoundTrip(raw, Status, PAYMENT_STATUSES, p.status);
    TextRoundTrip(raw, PaymentMethod, p.paymentMethod);
    OptionalDateRoundTrip(raw, ProcessedAt, p.processedAt);
  }

  lemma RefundParses(p: Payload, raw: Raw)
    requires p.RefundRow? && PayloadWellFormed(p) && Spells(p, raw)
    ensures Reference(raw, PaymentId, PaymentExternalId) == Ok(p.payment)
    ensures ParseAmount(raw, AmountField) == Ok(p.amount)
    ensures ParseCurrency(raw) == Ok(p.currency)
    ensures ParseVocabulary(raw, Status, REFUND_STATUSES, InvalidStatus) == Ok(p.status)
    ensures OptionalText(raw, Reason) == Ok(p.reason)
    ensures OptionalDate(raw, ProcessedAt) == Ok(p.processedAt)
  {
    ReferenceRoundTrip(raw, p.payment, PaymentId, PaymentExternalId);
    AmountRoundTrip(raw, AmountField, p.amount);
    CurrencyRoundTrip(raw, p.currency);
    WordRoundTrip(raw, Status, REFUND_STATUSES, p.status);
    TextRoundTrip(raw, Reason, p.reason);
    OptionalDateRoundTrip(raw, ProcessedAt, p.processedAt);
  }

  lemma FeeParses(p: Payload, raw: Raw)
    requires p.FeeRow? && PayloadWellFormed(p) && Spells(p, raw)
    ensures Reference(raw, MerchantId, MerchantExternalId) == Ok(p.merchant)
    ensures OptionalReference(raw, PaymentId, PaymentExternalId) == Ok(p.feePayment)
    ensures OptionalReference(raw, SettlementId, SettlementExternalId) == Ok(p.feeSettlement)
    ensures ParseVocabulary(raw, FeeType, FEE_TYPES, InvalidStatus) == Ok(p.feeType)
    ensures ParseAmount(raw, AmountField) == Ok(p.amount)
    ensures ParseCurrency(raw) == Ok(p.currency)
  {
    ReferenceRoundTrip(raw, p.merchant, MerchantId, MerchantExternalId);
    OptionalReferenceRoundTrip(raw, p.feePayment, PaymentId, PaymentExternalId);
    OptionalReferenceRoundTrip(raw, p.feeSettlement, SettlementId, SettlementExternalId);
    WordRoundTrip(raw, FeeType, FEE_TYPES, p.feeType);
    AmountRoundTrip(raw, AmountField, p.amount);
    CurrencyRoundTrip(raw, p.currency);
  }

  lemma SettlementReferencesParse(p: Payload, raw: Raw)
    requires p.SettlementRow? && PayloadWellFormed(p) && Spells(p, raw)
    ensures Reference(raw, MerchantId, MerchantExternalId) == Ok(p.merchant)
    ensures ParseAmount(raw, GrossAmount) == Ok(p.gross)
    ensures OptionalAmount(raw, FeeAmount) == Ok(Some(p.fee))
    ensures OptionalAmount(raw, AdjustmentAmount) == Ok(Some(p.adjustment))
  {
    ReferenceRoundTrip(raw, p.merchant, MerchantId, MerchantExternalId);
    AmountRoundTrip(raw, GrossAmount, p.gross);
    AmountRoundTrip(raw, FeeAmount, p.fee);
    AmountRoundTrip(raw, AdjustmentAmount, p.adjustment);
  }

  lemma SettlementValuesParse(p: Payload, raw: Raw)
    requires p.SettlementRow? && PayloadWellFormed(p) && Spells(p, raw)
    ensures OptionalAmount(raw, ExpectedNet) == Ok(p.expectedNet)
    ensures OptionalAmount(raw, ActualSettled) == Ok(p.actual)
    ensures ParseCurrency(raw) == Ok(p.currency)
    ensures ParseDate(raw, SettlementDate) == Ok(p.settlementDate)
    ensures ParseVocabulary(raw, Status, SETTLEMENT_STATUSES, InvalidStatus) == Ok(p.status)
  {
    OptionalAmountRoundTrip(raw, ExpectedNet, p.expectedNet);
    OptionalAmountRoundTrip(raw, ActualSettled, p.actual);
    CurrencyRoundTrip(raw, p.currency);
    DateRoundTrip(raw, SettlementDate, p.settlementDate);
    WordRoundTrip(raw, Status, SETTLEMENT_STATUSES, p.status);
  }

  lemma BankReferencesParse(p: Payload, raw: Raw)
    requires p.BankRow? && PayloadWellFormed(p) && Spells(p, raw)
    ensures Reference(raw, MerchantId, MerchantExternalId) == Ok(p.merchant)
    ensures OptionalReference(raw, SettlementId, SettlementExternalId) == Ok(p.bankSettlement)
    ensures ParseAmount(raw, AmountField) == Ok(p.amount)
    ensures ParseCurrency(raw) == Ok(p.currency)
  {
    ReferenceRoundTrip(raw, p.merchant, MerchantId, MerchantExternalId);
    OptionalReferenceRoundTrip(raw, p.bankSettlement, SettlementId, SettlementExternalId);
    AmountRoundTrip(raw, AmountField, p.amount);
    CurrencyRoundTrip(raw, p.currency);
  }

  lemma BankValuesParse(p: Payload, raw: Raw)
    requires p.BankRow? && PayloadWellFormed(p) && Spells(p, raw)
    ensures ParseVocabulary(raw, TransactionType, BANK_TYPES, InvalidStatus) == Ok(p.transactionType)
    ensures ParseDate(raw, TransactionDate) == Ok(p.transactionDate)
    ensures ParseVocabulary(raw, Status, BANK_STATUSES, InvalidStatus) == Ok(p.status)
    ensures OptionalText(raw, Description) == Ok(p.description)
  {
    WordRoundTrip(raw, TransactionType, BANK_TYPES, p.transactionType);
    DateRoundTrip(raw, TransactionDate, p.transactionDate);
    WordRoundTrip(raw, Status, BANK_STATUSES, p.status);
    TextRoundTrip(raw, Description, p.description);
  }

  lemma PayloadRoundTrip(p: Payload, raw: Raw)
    requires PayloadWellFormed(p) && Spells(p, raw)
    ensures NormalizePayload(EntityOf(p), raw) == Ok(p)
  {
    match EntityOf(p) {
      case Payment =>
        PaymentReferencesParse(p, raw);
        PaymentValuesParse(p, raw);
      case Refund =>
        RefundParses(p, raw);
      case Fee =>
        FeeParses(p, raw);
      case Settlement =>
        SettlementReferencesParse(p, raw);
        SettlementValuesParse(p, raw);
      case BankTransaction =>
        BankReferencesParse(p, raw);
        BankValuesParse(p, raw);
    }
  }

  lemma SpelledCells(r: Row, f: Field)
    ensures CellAt(Spell(r), f) == RowCell(r, f)
  {
  }

  /** Every well-formed row is the normal form of the source row that spells it out. */
  lemma SpelledRowNormalizes(r: Row)
    requires WellFormed(r)
    ensures Normalize(Spell(r)) == Ok(r)
  {
    var raw := Spell(r);
    forall f ensures CellAt(raw, f) == RowCell(r, f) { SpelledCells(r, f); }
    PayloadRoundTrip(r.payload, raw);
    EntityRoundTrip(raw, EntityOf(r.payload));
    assert CellAt(raw, Provider) == Some(Plain(r.provider)) && CellAt(raw, ExternalId) == Some(Plain(r.externalId));
  }

  lemma EntityRoundTrip(raw: Raw, e: Entity)
    requires CellAt(raw, EntityType) == Some(Plain(EntityName(e)))
    ensures ParseEntity(raw) == Ok(e)
  {
    assert |"PAYMENT"| == 7 && |"REFUND"| == 6 && |"FEE"| == 3 && |"SETTLEMENT"| == 10 && |"BANK_TRANSACTION"| == 16;
  }

  lemma NormalizedPayloadIsWellFormed(entity: Entity, raw: Raw)
    requires NormalizePayload(entity, raw).Ok?
    ensures PayloadWellFormed(NormalizePayload(entity, raw).value)
  {
  }

  /** And normalisation yields nothing else. */
  lemma NormalizedIsWellFormed(raw: Raw)
    requires Normalize(raw).Ok?
    ensures WellFormed(Normalize(raw).value)
  {
    NormalizedPayloadIsWellFormed(ParseEntity(raw).value, raw);
  }
}
