/** What every result row and exception means, stated per entity: each rule reads only the entity's
    own *view* (the records related to it). The reconciler itself works in global passes. */
module Rules {
  import opened Sequences
  import opened Contracts
  import opened Money

  const CONTRACT_VERSION := "threadline_financial_contract_v1"

  const TRANSACTION_REPORTS := {Orders, Payments, Refunds, Fees}
  const PAYOUT_REPORTS := {Payments, Refunds, Fees, SettlementLines, Payouts}
  const MOVEMENT_REPORTS := {Payments, Refunds, Fees, SettlementLines}

  // ---- Report completeness ----

  datatype ReportStates = ReportStates(orders: Completeness, payments: Completeness, refunds: Completeness,
                                       fees: Completeness, lines: Completeness, payouts: Completeness)
  {
    function Of(r: ReportType): Completeness {
      match r
      case Orders => orders
      case Payments => payments
      case Refunds => refunds
      case Fees => fees
      case SettlementLines => lines
      case Payouts => payouts
    }
  }

  predicate AllComplete(st: ReportStates, required: set<ReportType>) {
    forall r :: r in required ==> st.Of(r) == Complete
  }

  function ResultState(st: ReportStates, required: set<ReportType>, blocking: bool): (s: ReconciliationState)
    ensures s == Reconciled <==> AllComplete(st, required) && !blocking
    ensures s == Exception <==> AllComplete(st, required) && blocking
    ensures s == StateIncomplete <==> exists r :: r in required && st.Of(r) == Incomplete
    ensures s == StatePending <==> !AllComplete(st, required) && forall r :: r in required ==> st.Of(r) != Incomplete
  {
    if exists r :: r in required && st.Of(r) == Incomplete then StateIncomplete
    else if exists r :: r in required && st.Of(r) == Pending then StatePending
    else if blocking then Exception
    else Reconciled
  }

  // ---- Output rows ----

  datatype Run = Run(runId: string, detectedAt: int)

  datatype Reference =
    | RecordReference(key: RecordKey)
    | ReceiptReference(receiptId: string)
    | BatchReference(batchId: string)
    | VariantReference(key: RecordKey, version: int, payloadHash: string)

  datatype Subject =
    | RecordSubject(key: RecordKey)
    | SettlementMovementSubject(kind: MovementType, id: string)
    | ExpectedMovementSubject(kind: MovementType, id: string)
    | SourceReportSubject(report: ReportType, day: int)

  datatype RuleId =
    | ReportCompletenessRule
    | SameVersionConflictRule
    | PaymentOrderExists
    | PaymentOrderIsPayable
    | RefundCapturedPaymentExists
    | RefundCurrencyMatchesPayment
    | RefundTotalWithinCapture
    | FeeProcessingFeeExists
    | FeeAmountMatchesSchedule
    | FeeBelongsToCapture
    | OrderPaymentExists
    | OrderCollectionMatchesTotal
    | OrderMaximumOneCapture
    | SettlementUniqueMovementAllocation
    | SettlementExpectedMovementExists
    | SettlementAmountMatchesReportedSource
    | PayoutHeaderMatchesLines

  datatype FinancialException = FinancialException(
    runId: string, rule: RuleId, code: ExceptionCode, subject: Subject, expected: Option<int>, actual: Option<int>,
    variance: Option<int>, detectedAt: int, support: set<Reference>)

  datatype TransactionRow = TransactionRow(
    runId: string, contractVersion: string, orderId: string, orderStatus: OrderStatus, currency: string,
    expectedCollection: int, capturedTotal: int, collectionVariance: int, refundTotal: int, expectedFeeTotal: int,
    reportedFeeTotal: int, lifetimeNet: int, captureCount: int, refundCount: int, state: ReconciliationState,
    codes: set<ExceptionCode>)

  datatype ExpectedMovement = ExpectedMovement(kind: MovementType, id: string, availableOn: int, amount: int,
                                               support: seq<Reference>)

  datatype PayoutRow = PayoutRow(
    runId: string, contractVersion: string, payoutId: string, payoutDate: int, currency: string, expectedPayout: int,
    lineTotal: int, reportedNet: int, providerVariance: int, endToEndVariance: int, movementCount: int, lineCount: int,
    state: ReconciliationState, codes: set<ExceptionCode>)

  function NewException(run: Run, rule: RuleId, code: ExceptionCode, subject: Subject, expected: Option<int>,
                        actual: Option<int>,
                        support: set<Reference>): FinancialException
  {
    FinancialException(run.runId, rule, code, subject, expected, actual,
                       if expected.Some? && actual.Some? then Some(actual.value - expected.value) else None,
                       run.detectedAt, support)
  }

  // ---- References and named projections ----

  function OrderRef(o: Order): Reference { RecordReference(RecordKey(OrderType, o.orderId)) }

  function PaymentRef(p: Payment): Reference { RecordReference(RecordKey(PaymentType, p.paymentId)) }

  function RefundRef(r: Refund): Reference { RecordReference(RecordKey(RefundType, r.refundId)) }

  function FeeRef(f: Fee): Reference { RecordReference(RecordKey(FeeType, f.feeId)) }

  function LineRef(l: SettlementLine): Reference { RecordReference(RecordKey(SettlementLineType, l.lineId)) }

  function PayoutRef(p: Payout): Reference { RecordReference(RecordKey(PayoutType, p.payoutId)) }

  function PaymentAmount(p: Payment): int { p.amount }

  function PaymentFee(p: Payment): int { ScheduledFee(p.paymentMethod, p.amount) }

  function RefundAmount(r: Refund): int { r.amount }

  function FeeAmount(f: Fee): int { f.amount }

  function LineAmount(l: SettlementLine): int { l.signedAmount }

  function MovementAmount(m: ExpectedMovement): int { m.amount }

  function LineMovement(l: SettlementLine): MovementRef { MovementRef(l.kind, l.movementId) }

  function MovementName(m: ExpectedMovement): MovementRef { MovementRef(m.kind, m.id) }

  // ---- Views ----

  datatype CaptureView = CaptureView(payment: Payment, order: Option<Order>, refunds: seq<Refund>, fees: seq<Fee>)

  datatype OrderView = OrderView(order: Order, captures: seq<CaptureView>)

  datatype RefundView = RefundView(refund: Refund, payment: Option<Payment>)

  datatype FeeView = FeeView(fee: Fee, payment: Option<Payment>)

  /** The current lines of the whole run that carry one movement. */
  datatype AllocationView = AllocationView(kind: MovementType, id: string, lines: seq<SettlementLine>)

  /** A movement due on the payout's date and the reported fee record it is named after. */
  datatype DueView = DueView(movement: ExpectedMovement, reportedFee: Option<Fee>)

  /** `sharers[i]` counts the lines of the whole run carrying the same movement as `lines[i]`. */
  datatype PayoutView = PayoutView(payout: Payout, due: seq<DueView>, lines: seq<SettlementLine>, sharers: seq<nat>)

  function CaptureAmount(v: CaptureView): int { v.payment.amount }

  function CaptureRefunded(v: CaptureView): int { Sum(RefundAmount, v.refunds) }

  function CaptureRefundCount(v: CaptureView): int { |v.refunds| }

  function CaptureReportedFee(v: CaptureView): int { Sum(FeeAmount, v.fees) }

  function CaptureExpectedFee(v: CaptureView): int { PaymentFee(v.payment) }

  function DueMovement(d: DueView): ExpectedMovement { d.movement }

  // ---- Payment, refund and fee rules ----

  function PaymentLinkExceptions(run: Run, st: ReportStates, v: CaptureView): seq<FinancialException> {
    if !AllComplete(st, {Orders, Payments}) then []
    else if v.order.None? then
      [NewException(run, PaymentOrderExists, OrphanPayment, RecordSubject(RecordKey(PaymentType, v.payment.paymentId)),
                    None, Some(v.payment.amount), {PaymentRef(v.payment)})]
    else if v.order.value.status == Cancelled then
      [NewException(run, PaymentOrderIsPayable, CaptureForNonPayableOrder,
                    RecordSubject(RecordKey(OrderType, v.order.value.orderId)),
                    Some(0), Some(v.payment.amount), {OrderRef(v.order.value), PaymentRef(v.payment)})]
    else []
  }

  function RefundLinkExceptions(run: Run, st: ReportStates, v: RefundView): seq<FinancialException> {
    if !AllComplete(st, {Payments, Refunds}) then []
    else if v.payment.None? || v.payment.value.status != Captured then
      [NewException(run, RefundCapturedPaymentExists, OrphanRefund,
                    RecordSubject(RecordKey(RefundType, v.refund.refundId)),
                    None, Some(v.refund.amount), {RefundRef(v.refund)})]
    else if v.refund.currency != v.payment.value.currency then
      [NewException(run, RefundCurrencyMatchesPayment, RefundCurrencyMismatch,
                    RecordSubject(RecordKey(RefundType, v.refund.refundId)),
                    None, None, {PaymentRef(v.payment.value), RefundRef(v.refund)})]
    else []
  }

  function ExcessRefundExceptions(run: Run, st: ReportStates, v: CaptureView): seq<FinancialException> {
    if AllComplete(st, {Payments, Refunds}) && CaptureRefunded(v) > v.payment.amount then
      [NewException(run, RefundTotalWithinCapture, ExcessRefund,
                    RecordSubject(RecordKey(PaymentType, v.payment.paymentId)),
                    Some(v.payment.amount), Some(CaptureRefunded(v)),
                    {PaymentRef(v.payment)} + set r | r in v.refunds :: RefundRef(r))]
    else []
  }

  function FeeAmountExceptions(run: Run, st: ReportStates, v: CaptureView): seq<FinancialException> {
    if !AllComplete(st, {Payments, Fees}) then []
    else if v.fees == [] then
      [NewException(run, FeeProcessingFeeExists, MissingFee, RecordSubject(RecordKey(PaymentType, v.payment.paymentId)),
                    Some(CaptureExpectedFee(v)), Some(0), {PaymentRef(v.payment)})]
    else if CaptureReportedFee(v) != CaptureExpectedFee(v) then
      [NewException(run, FeeAmountMatchesSchedule, FeeMismatch,
                    RecordSubject(RecordKey(PaymentType, v.payment.paymentId)),
                    Some(CaptureExpectedFee(v)), Some(CaptureReportedFee(v)),
                    {PaymentRef(v.payment)} + set f | f in v.fees :: FeeRef(f))]
    else []
  }

  function FeeLinkExceptions(run: Run, st: ReportStates, v: FeeView): seq<FinancialException> {
    if AllComplete(st, {Payments, Fees}) && (v.payment.None? || v.payment.value.status != Captured) then
      [NewException(run, FeeBelongsToCapture, UnexpectedFee, RecordSubject(RecordKey(FeeType, v.fee.feeId)),
                    Some(0), Some(v.fee.amount), {FeeRef(v.fee)})]
    else []
  }

  // ---- Order rules and transaction rows ----

  function CapturedTotal(v: OrderView): int { Sum(CaptureAmount, v.captures) }

  function CaptureRefs(v: OrderView): set<Reference> {
    {OrderRef(v.order)} + set c | c in v.captures :: PaymentRef(c.payment)
  }

  function OrderExceptions(run: Run, st: ReportStates, v: OrderView): seq<FinancialException> {
    if v.order.status != Paid || !AllComplete(st, {Orders, Payments}) then []
    else
      var subject := RecordSubject(RecordKey(OrderType, v.order.orderId));
      (if v.captures == [] then
         [NewException(run, OrderPaymentExists, MissingPayment, subject, Some(v.order.orderTotal), Some(0),
                       {OrderRef(v.order)})]
       else if CapturedTotal(v) != v.order.orderTotal then
         [NewException(run, OrderCollectionMatchesTotal, PaymentAmountMismatch, subject,
                       Some(v.order.orderTotal), Some(CapturedTotal(v)), CaptureRefs(v))]
       else [])
      + (if |v.captures| > 1 then
           [NewException(run, OrderMaximumOneCapture, MultipleCapture, subject, Some(100), Some(100 * |v.captures|),
                         CaptureRefs(v))]
         else [])
  }

  /** Which codes block an order's row, and why. */
  predicate OrderRaises(st: ReportStates, v: OrderView, c: ExceptionCode) {
    match c
    case CaptureForNonPayableOrder => AllComplete(st, {Orders, Payments}) && v.order.status == Cancelled &&
      v.captures != []
    case RefundCurrencyMismatch =>
      AllComplete(st, {Payments, Refunds}) &&
      exists cv, r :: cv in v.captures && r in cv.refunds && r.currency != cv.payment.currency
    case ExcessRefund => AllComplete(st, {Payments, Refunds}) &&
      exists cv :: cv in v.captures && CaptureRefunded(cv) > cv.payment.amount
    case MissingFee => AllComplete(st, {Payments, Fees}) && exists cv :: cv in v.captures && cv.fees == []
    case FeeMismatch =>
      AllComplete(st, {Payments, Fees}) &&
      exists cv :: cv in v.captures && cv.fees != [] && CaptureReportedFee(cv) != CaptureExpectedFee(cv)
    case MissingPayment => AllComplete(st, {Orders, Payments}) && v.order.status == Paid && v.captures == []
    case PaymentAmountMismatch =>
      AllComplete(st, {Orders, Payments}) && v.order.status == Paid && v.captures != [] &&
      CapturedTotal(v) != v.order.orderTotal
    case MultipleCapture => AllComplete(st, {Orders, Payments}) && v.order.status == Paid && |v.captures| > 1
    case _ => false
  }

  function OrderCodes(st: ReportStates, v: OrderView): set<ExceptionCode> {
    set c: ExceptionCode | OrderRaises(st, v, c)
  }

  function TransactionFor(run: Run, st: ReportStates, v: OrderView): TransactionRow {
    var expected := if v.order.status == Paid then v.order.orderTotal else 0;
    var refunded := Sum(CaptureRefunded, v.captures);
    var feeTotal := Sum(CaptureExpectedFee, v.captures);
    var codes := OrderCodes(st, v);
    TransactionRow(
      run.runId, CONTRACT_VERSION, v.order.orderId, v.order.status, v.order.currency, expected, CapturedTotal(v),
      CapturedTotal(v) - expected, refunded, feeTotal, Sum(CaptureReportedFee, v.captures),
      CapturedTotal(v) - refunded - feeTotal, |v.captures|, Sum(CaptureRefundCount, v.captures),
      ResultState(st, TRANSACTION_REPORTS, codes != {}), codes)
  }

  // ---- Expected movements ----

  function FeeMovementId(v: CaptureView): string {
    if |v.fees| == 1 then v.fees[0].feeId else SyntheticFeeId(v.payment.paymentId)
  }

  function SyntheticFeeId(paymentId: string): string {
    "expected-fee:" + paymentId
  }

  function DayOf(d: Option<int>): int {
    if d.Some? then d.value else 0
  }

  function CaptureMovements(v: CaptureView): seq<ExpectedMovement> {
    var day := DayOf(v.payment.availableOn);
    [ExpectedMovement(CaptureMovement, v.payment.paymentId, day, v.payment.amount, [PaymentRef(v.payment)]),
     ExpectedMovement(FeeMovement, FeeMovementId(v), day, -CaptureExpectedFee(v),
                      [PaymentRef(v.payment)] + Map(FeeRef, v.fees))]
  }

  function RefundMovementOf(r: Refund): ExpectedMovement {
    ExpectedMovement(RefundMovement, r.refundId, DayOf(r.availableOn), -r.amount, [RefundRef(r)])
  }

  // ---- Settlement allocation and payout rules ----

  function AllocationExceptions(run: Run, st: ReportStates, v: AllocationView): seq<FinancialException> {
    if st.lines == Complete && |v.lines| > 1 then
      [NewException(run, SettlementUniqueMovementAllocation, DuplicateSettlementMovement,
                    SettlementMovementSubject(v.kind, v.id),
                    None, Some(100 * |v.lines|), set l | l in v.lines :: LineRef(l))]
    else []
  }

  /** The lines of this payout that carry the movement. */
  function Carriers(lines: seq<SettlementLine>, m: ExpectedMovement): seq<SettlementLine> {
    Filter(KeyIs(LineMovement, MovementName(m)), lines)
  }

  /** A fee line is compared with the reported fee record when the movement is named after one. */
  function ExpectedLineAmount(d: DueView): int {
    if d.movement.kind == FeeMovement && d.reportedFee.Some? then -d.reportedFee.value.amount else d.movement.amount
  }

  predicate WrongAmount(lines: seq<SettlementLine>, d: DueView) {
    var carriers := Carriers(lines, d.movement);
    |carriers| == 1 && carriers[0].signedAmount != ExpectedLineAmount(d)
  }

  function DueExceptions(run: Run, lines: seq<SettlementLine>, d: DueView): seq<FinancialException> {
    var carriers := Carriers(lines, d.movement);
    var support := set r | r in d.movement.support;
    if carriers == [] then
      [NewException(run, SettlementExpectedMovementExists, MissingSettlementLine,
                    ExpectedMovementSubject(d.movement.kind, d.movement.id), Some(d.movement.amount), Some(0), support)]
    else if WrongAmount(lines, d) then
      [NewException(run, SettlementAmountMatchesReportedSource, SettlementLineAmountMismatch,
                    RecordSubject(RecordKey(SettlementLineType, carriers[0].lineId)),
                    Some(ExpectedLineAmount(d)), Some(carriers[0].signedAmount), support + {LineRef(carriers[0])})]
    else []
  }

  function DueRule(run: Run, lines: seq<SettlementLine>): DueView -> seq<FinancialException> {
    d => DueExceptions(run, lines, d)
  }

  function ExpectedPayout(v: PayoutView): int { Sum(MovementAmount, Map(DueMovement, v.due)) }

  function LineTotal(v: PayoutView): int { Sum(LineAmount, v.lines) }

  function PayoutExceptions(run: Run, st: ReportStates, v: PayoutView): seq<FinancialException> {
    (if AllComplete(st, MOVEMENT_REPORTS) then FlatMap(DueRule(run, v.lines), v.due) else [])
    + (if AllComplete(st, {SettlementLines, Payouts}) && v.payout.reportedNet != LineTotal(v) then
         [NewException(run, PayoutHeaderMatchesLines, PayoutTotalMismatch,
                       RecordSubject(RecordKey(PayoutType, v.payout.payoutId)),
                       Some(LineTotal(v)), Some(v.payout.reportedNet), {PayoutRef(v.payout)} + set l | l in v.lines ::
                       LineRef(l))]
       else [])
  }

  predicate PayoutRaises(st: ReportStates, v: PayoutView, c: ExceptionCode) {
    match c
    case DuplicateSettlementMovement => st.lines == Complete && exists n :: n in v.sharers && n > 1
    case MissingSettlementLine => AllComplete(st, MOVEMENT_REPORTS) &&
      exists d :: d in v.due && Carriers(v.lines, d.movement) == []
    case SettlementLineAmountMismatch =>
      AllComplete(st, MOVEMENT_REPORTS) &&
      exists d :: d in v.due && WrongAmount(v.lines, d)
    case PayoutTotalMismatch => AllComplete(st, {SettlementLines, Payouts}) && v.payout.reportedNet != LineTotal(v)
    case _ => false
  }

  function PayoutCodes(st: ReportStates, v: PayoutView): set<ExceptionCode> {
    set c: ExceptionCode | PayoutRaises(st, v, c)
  }

  function PayoutFor(run: Run, st: ReportStates, v: PayoutView): PayoutRow {
    var codes := PayoutCodes(st, v);
    PayoutRow(
      run.runId, CONTRACT_VERSION, v.payout.payoutId, v.payout.payoutDate, v.payout.currency, ExpectedPayout(v),
      LineTotal(v),
      v.payout.reportedNet, v.payout.reportedNet - LineTotal(v), v.payout.reportedNet - ExpectedPayout(v), |v.due|,
      |v.lines|,
      ResultState(st, PAYOUT_REPORTS, codes != {} || v.payout.reportedNet != ExpectedPayout(v)), codes)
  }
}
