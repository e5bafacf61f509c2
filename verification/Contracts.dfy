/** The six versioned source records and the enumerations of the financial contract.
    Amounts are integer cents, dates are day numbers, timestamps are integers. */
module Contracts {
  import opened Sequences
  import opened Money

  datatype EntityType = OrderType | PaymentType | RefundType | FeeType | SettlementLineType | PayoutType

  datatype ReportType = Orders | Payments | Refunds | Fees | SettlementLines | Payouts

  datatype OrderStatus = PaymentPending | Paid | Cancelled

  datatype PaymentStatus = PaymentFailed | Captured

  datatype RefundStatus = RefundFailed | Succeeded

  datatype MovementType = CaptureMovement | FeeMovement | RefundMovement

  /** A movement as settlement lines name it. */
  datatype MovementRef = MovementRef(kind: MovementType, id: string)

  datatype Completeness = Pending | Incomplete | Complete

  datatype ReconciliationState = StatePending | StateIncomplete | Reconciled | Exception

  datatype ExceptionCode =
    | CaptureForNonPayableOrder
    | ConflictingSourceVersion
    | DuplicateSettlementMovement
    | ExcessRefund
    | FeeMismatch
    | MissingFee
    | MissingPayment
    | MissingSettlementLine
    | MultipleCapture
    | OrphanPayment
    | OrphanRefund
    | PaymentAmountMismatch
    | PayoutTotalMismatch
    | RefundCurrencyMismatch
    | SettlementLineAmountMismatch
    | SourceReportInvalid
    | SourceReportMissing
    | UnexpectedFee

  datatype Order = Order(orderId: string, createdAt: int, status: OrderStatus, currency: string, orderTotal: int,
                         version: int)

  datatype Payment = Payment(paymentId: string, orderId: string, attempt: int, paymentMethod: PaymentMethod,
                             status: PaymentStatus,
                             amount: int, currency: string, effectiveAt: int, availableOn: Option<int>, version: int)

  datatype Refund = Refund(refundId: string, paymentId: string, status: RefundStatus, amount: int, currency: string,
                           effectiveAt: int, availableOn: Option<int>, version: int)

  datatype Fee = Fee(feeId: string, paymentId: string, amount: int, currency: string, effectiveAt: int,
                     availableOn: int, version: int)

  datatype SettlementLine = SettlementLine(lineId: string, payoutId: string, kind: MovementType, movementId: string,
                                           signedAmount: int, currency: string, version: int)

  datatype Payout = Payout(payoutId: string, payoutDate: int, currency: string, reportedNet: int, version: int)

  datatype FinancialRecord =
    | OrderRecord(order: Order)
    | PaymentRecord(payment: Payment)
    | RefundRecord(refund: Refund)
    | FeeRecord(fee: Fee)
    | LineRecord(line: SettlementLine)
    | PayoutRecord(payout: Payout)

  /** A logical identity; the source system is a function of the entity type. */
  datatype RecordKey = RecordKey(kind: EntityType, id: string)

  function KeyOf(r: FinancialRecord): RecordKey {
    match r
    case OrderRecord(o) => RecordKey(OrderType, o.orderId)
    case PaymentRecord(p) => RecordKey(PaymentType, p.paymentId)
    case RefundRecord(f) => RecordKey(RefundType, f.refundId)
    case FeeRecord(f) => RecordKey(FeeType, f.feeId)
    case LineRecord(l) => RecordKey(SettlementLineType, l.lineId)
    case PayoutRecord(p) => RecordKey(PayoutType, p.payoutId)
  }

  function VersionOf(r: FinancialRecord): int {
    match r
    case OrderRecord(o) => o.version
    case PaymentRecord(p) => p.version
    case RefundRecord(f) => f.version
    case FeeRecord(f) => f.version
    case LineRecord(l) => l.version
    case PayoutRecord(p) => p.version
  }

  /** A winning source version that arrived with different payloads. */
  datatype Conflict = Conflict(key: RecordKey, version: int, hashes: seq<string>, receiptIds: seq<string>)

  function MovementEntity(t: MovementType): EntityType {
    match t
    case CaptureMovement => PaymentType
    case RefundMovement => RefundType
    case FeeMovement => FeeType
  }

  /** Alphabetical rank of the source system and entity names. */
  function KindRank(t: EntityType): int {
    match t
    case FeeType => 0
    case PaymentType => 1
    case PayoutType => 2
    case RefundType => 3
    case SettlementLineType => 4
    case OrderType => 5
  }

  function IdentityKey(k: RecordKey): Key {
    [N(KindRank(k.kind)), S(k.id)]
  }

  /** A source row that validation rejected. */
  datatype QuarantinedRecord = QuarantinedRecord(entityType: string, sourceId: Option<string>, reasonCode: string,
                                                 reasonDetail: string, rawPayload: string)

  function QuarantineKey(q: QuarantinedRecord): Key {
    [S(q.entityType), S(if q.sourceId.Some? then q.sourceId.value else ""), S(q.reasonCode)]
  }

  /** What a `CanonicalizationResult` guarantees: one record per logical identity. */
  ghost predicate UniqueIdentities(records: seq<FinancialRecord>) {
    forall i, j :: 0 <= i < j < |records| ==> KeyOf(records[i]) != KeyOf(records[j])
  }

  /** The parser's contract on one accepted record: EUR, positive amounts in range, and an
      availability date exactly on captured payments and successful refunds. */
  predicate ValidRecord(r: FinancialRecord) {
    match r
    case OrderRecord(o) => o.orderId != "" && o.currency == EUR && 0 < o.orderTotal <= MAX_CENTS && o.version > 0
    case PaymentRecord(p) =>
      p.paymentId != "" && p.orderId != "" && p.currency == EUR && 0 < p.amount <= MAX_CENTS && p.version > 0 &&
      (p.availableOn.Some? <==> p.status == Captured)
    case RefundRecord(f) =>
      f.refundId != "" && f.paymentId != "" && f.currency == EUR && 0 < f.amount <= MAX_CENTS && f.version > 0 &&
      (f.availableOn.Some? <==> f.status == Succeeded)
    case FeeRecord(f) => f.feeId != "" && f.paymentId != "" && f.currency == EUR && 0 < f.amount <= MAX_CENTS &&
      f.version > 0
    case LineRecord(l) =>
      l.lineId != "" && l.payoutId != "" && l.movementId != "" && l.currency == EUR && Supported(l.signedAmount) &&
      l.version > 0 &&
      (if l.kind == CaptureMovement then l.signedAmount > 0 else l.signedAmount < 0)
    case PayoutRecord(p) => p.payoutId != "" && p.currency == EUR && 0 <= p.reportedNet <= MAX_CENTS && p.version > 0
  }
}
