/** The published result of a run: the per-entity rules of `Rules` applied to every canonical record. */
module Reconciliation {
  import opened Sequences
  import opened Contracts
  import opened Money
  import opened Rules
  import opened Ledger

  datatype ReportStatus = ReportStatus(report: ReportType, day: int, state: Completeness, batchId: Option<string>)

  /** `missingOnly`: the only issues are a missing data file or a missing manifest. */
  datatype CompletenessResult = CompletenessResult(status: ReportStatus, missingOnly: bool)

  datatype ReconciliationResult = ReconciliationResult(
    run: Run, contractVersion: string, transactions: seq<TransactionRow>, movements: seq<ExpectedMovement>,
    payouts: seq<PayoutRow>, exceptions: seq<FinancialException>, completeness: seq<ReportStatus>)

  datatype ReconcileError =
    | InvalidRunId
    | DuplicateCompleteness
    | MissingCompleteness
    | FeeNotCalculable
    | CaptureWithoutDate
    | RefundWithoutDate
    | SeveralPayoutsOnOneDate

  // ---- Completeness inputs ----

  /** By date, source system and report name. */
  function StatusKey(c: CompletenessResult): Key {
    [N(c.status.day), N(if c.status.report == Orders then 1 else 0), N(ReportRank(c.status.report))]
  }

  function ReportRank(r: ReportType): int {
    match r
    case Fees => 0
    case Orders => 1
    case Payments => 2
    case Payouts => 3
    case Refunds => 4
    case SettlementLines => 5
  }

  function ReportOf(c: CompletenessResult): ReportType { c.status.report }

  function StatusOf(c: CompletenessResult): ReportStatus { c.status }

  function StateOf(cs: seq<CompletenessResult>, r: ReportType): Completeness {
    var found := Lookup(ReportOf, cs, r);
    if found.Some? then found.value.status.state else Pending
  }

  function StatesOf(cs: seq<CompletenessResult>): ReportStates {
    ReportStates(StateOf(cs, Orders), StateOf(cs, Payments), StateOf(cs, Refunds), StateOf(cs, Fees),
                 StateOf(cs, SettlementLines), StateOf(cs, Payouts))
  }

  predicate HasReport(cs: seq<CompletenessResult>, r: ReportType) {
    Lookup(ReportOf, cs, r).Some?
  }

  predicate EveryReport(cs: seq<CompletenessResult>) {
    HasReport(cs, Orders) && HasReport(cs, Payments) && HasReport(cs, Refunds) && HasReport(cs, Fees) &&
    HasReport(cs, SettlementLines) && HasReport(cs, Payouts)
  }

  function CompletenessExceptions(run: Run): CompletenessResult -> seq<FinancialException> {
    (c: CompletenessResult) =>
      if c.status.state != Incomplete then []
      else [NewException(run, ReportCompletenessRule, if c.missingOnly then SourceReportMissing
                         else SourceReportInvalid,
                         SourceReportSubject(c.status.report, c.status.day), None, None,
                         if c.status.batchId.Some? &&
                           c.status.batchId.value != "" then {BatchReference(c.status.batchId.value)} else {})]
  }

  function ConflictExceptions(run: Run): Conflict -> seq<FinancialException> {
    (c: Conflict) =>
      [NewException(run, SameVersionConflictRule, ConflictingSourceVersion, RecordSubject(c.key), None, None,
                    set id | id in c.receiptIds :: ReceiptReference(id))]
  }

  // ---- Rules as functions over records ----

  function PaymentLinkRule(run: Run, st: ReportStates, recs: Records): Payment -> seq<FinancialException> {
    (p: Payment) => PaymentLinkExceptions(run, st, ViewCapture(recs)(p))
  }

  function RefundLinkRule(run: Run, st: ReportStates, recs: Records): Refund -> seq<FinancialException> {
    (r: Refund) => RefundLinkExceptions(run, st, ViewRefund(recs)(r))
  }

  function ExcessRefundRule(run: Run, st: ReportStates, recs: Records): Payment -> seq<FinancialException> {
    (p: Payment) => ExcessRefundExceptions(run, st, ViewCapture(recs)(p))
  }

  function FeeAmountRule(run: Run, st: ReportStates, recs: Records): Payment -> seq<FinancialException> {
    (p: Payment) => FeeAmountExceptions(run, st, ViewCapture(recs)(p))
  }

  function FeeLinkRule(run: Run, st: ReportStates, recs: Records): Fee -> seq<FinancialException> {
    (f: Fee) => FeeLinkExceptions(run, st, ViewFee(recs)(f))
  }

  function OrderRule(run: Run, st: ReportStates, recs: Records): Order -> seq<FinancialException> {
    (o: Order) => OrderExceptions(run, st, ViewOrder(recs)(o))
  }

  function AllocationRule(run: Run, st: ReportStates, recs: Records): MovementRef -> seq<FinancialException> {
    (k: MovementRef) => AllocationExceptions(run, st, ViewAllocation(recs)(k))
  }

  function PayoutRule(run: Run, st: ReportStates, recs: Records): Payout -> seq<FinancialException> {
    (p: Payout) => PayoutExceptions(run, st, ViewPayout(recs)(p))
  }

  function TransactionRule(run: Run, st: ReportStates, recs: Records): Order -> TransactionRow {
    (o: Order) => TransactionFor(run, st, ViewOrder(recs)(o))
  }

  function PayoutRowRule(run: Run, st: ReportStates, recs: Records): Payout -> PayoutRow {
    (p: Payout) => PayoutFor(run, st, ViewPayout(recs)(p))
  }

  lemma TransactionRuleId(run: Run, st: ReportStates, recs: Records, o: Order)
    ensures TransactionRule(run, st, recs)(o).orderId == o.orderId
  {
    assert TransactionRule(run, st, recs)(o) == TransactionFor(run, st, ViewOrder(recs)(o));
    assert ViewOrder(recs)(o).order == o;
  }

  lemma PayoutRowRuleId(run: Run, st: ReportStates, recs: Records, p: Payout)
    ensures PayoutRowRule(run, st, recs)(p).payoutId == p.payoutId &&
      PayoutRowRule(run, st, recs)(p).payoutDate == p.payoutDate
  {
    assert PayoutRowRule(run, st, recs)(p) == PayoutFor(run, st, ViewPayout(recs)(p));
    assert ViewPayout(recs)(p).payout == p;
  }

  // ---- The whole result ----

  function Identity<T>(x: T): T { x }

  /** The movements named by at least one line, in key order. */
  function AllocatedMovements(recs: Records): seq<MovementRef> {
    Sort(AllocationKey, KeepLast(Identity, Map(LineMovement, recs.lines)))
  }

  function Transactions(run: Run, st: ReportStates, recs: Records): seq<TransactionRow> {
    Map(TransactionRule(run, st, recs), recs.orders)
  }

  function PayoutRows(run: Run, st: ReportStates, recs: Records): seq<PayoutRow> {
    Map(PayoutRowRule(run, st, recs), recs.payouts)
  }

  function RecordExceptions(run: Run, st: ReportStates, recs: Records): seq<FinancialException> {
    FlatMap(PaymentLinkRule(run, st, recs), CapturedPayments(recs))
    + FlatMap(RefundLinkRule(run, st, recs), SuccessfulRefunds(recs))
    + FlatMap(ExcessRefundRule(run, st, recs), CapturedPayments(recs))
    + FlatMap(FeeAmountRule(run, st, recs), CapturedPayments(recs))
    + FlatMap(FeeLinkRule(run, st, recs), recs.fees)
    + FlatMap(OrderRule(run, st, recs), recs.orders)
    + FlatMap(AllocationRule(run, st, recs), AllocatedMovements(recs))
    + FlatMap(PayoutRule(run, st, recs), recs.payouts)
  }

  /** The dictionary key that keeps one exception per failed rule and entity. */
  function ExceptionId(e: FinancialException): (RuleId, ExceptionCode, Subject) { (e.rule, e.code, e.subject) }

  /** By code, entity type, entity id and rule. */
  function ExceptionKey(e: FinancialException): Key {
    [N(CodeRank(e.code))] + SubjectKey(e.subject) + [N(RuleRank(e.rule))]
  }

  function SubjectKey(s: Subject): Key {
    match s
    case ExpectedMovementSubject(k, id) => [N(0), N(KindOrder(k)), S(id)]
    case RecordSubject(k) => [N(SubjectRank(k.kind)), S(k.id)]
    case SettlementMovementSubject(k, id) => [N(7), N(KindOrder(k)), S(id)]
    case SourceReportSubject(r, day) => [N(8), N(if r == Orders then 1 else 0), N(ReportRank(r)), N(day)]
  }

  function SubjectRank(t: EntityType): int {
    match t
    case FeeType => 1
    case OrderType => 2
    case PaymentType => 3
    case PayoutType => 4
    case RefundType => 5
    case SettlementLineType => 6
  }

  function CodeRank(c: ExceptionCode): int {
    match c
    case CaptureForNonPayableOrder => 0
    case ConflictingSourceVersion => 1
    case DuplicateSettlementMovement => 2
    case ExcessRefund => 3
    case FeeMismatch => 4
    case MissingFee => 5
    case MissingPayment => 6
    case MissingSettlementLine => 7
    case MultipleCapture => 8
    case OrphanPayment => 9
    case OrphanRefund => 10
    case PaymentAmountMismatch => 11
    case PayoutTotalMismatch => 12
    case RefundCurrencyMismatch => 13
    case SettlementLineAmountMismatch => 14
    case SourceReportInvalid => 15
    case SourceReportMissing => 16
    case UnexpectedFee => 17
  }

  function RuleRank(r: RuleId): int {
    match r
    case SameVersionConflictRule => 0
    case FeeAmountMatchesSchedule => 1
    case FeeBelongsToCapture => 2
    case FeeProcessingFeeExists => 3
    case OrderCollectionMatchesTotal => 4
    case OrderMaximumOneCapture => 5
    case OrderPaymentExists => 6
    case PaymentOrderExists => 7
    case PaymentOrderIsPayable => 8
    case PayoutHeaderMatchesLines => 9
    case RefundCapturedPaymentExists => 10
    case RefundCurrencyMatchesPayment => 11
    case RefundTotalWithinCapture => 12
    case SettlementAmountMatchesReportedSource => 13
    case SettlementExpectedMovementExists => 14
    case SettlementUniqueMovementAllocation => 15
    case ReportCompletenessRule => 16
  }

  function Published(raw: seq<FinancialException>): seq<FinancialException> {
    Sort(ExceptionKey, KeepLast(ExceptionId, raw))
  }

  predicate TrimmedRunId(id: string) {
    id != "" && !Blank(id[0]) && !Blank(id[|id| - 1])
  }

  predicate FeeCalculable(p: Payment) {
    CalculateFee(p.paymentMethod, p.amount, p.currency).Success?
  }

  ghost predicate OnePayoutPerDate(ps: seq<Payout>) {
    forall p, q :: p in ps && q in ps && p.payoutDate == q.payoutDate ==> p == q
  }

  /** The first failing check on the run's inputs. */
  ghost function InputRejection(run: Run, completeness: seq<CompletenessResult>): Option<ReconcileError> {
    if !TrimmedRunId(run.runId) then Some(InvalidRunId)
    else if !DistinctBy(ReportOf, completeness) then Some(DuplicateCompleteness)
    else if !EveryReport(completeness) then Some(MissingCompleteness)
    else None
  }

  predicate FeesCalculable(recs: Records) {
    forall p :: p in CapturedPayments(recs) ==> FeeCalculable(p)
  }

  predicate CapturesDated(recs: Records) {
    forall p :: p in CapturedPayments(recs) ==> p.availableOn.Some?
  }

  predicate RefundsDated(recs: Records) {
    forall r :: r in SuccessfulRefunds(recs) ==> r.availableOn.Some?
  }

  /** The first failing check on the records, in the order the reconciler makes them. */
  ghost function RecordRejection(recs: Records): Option<ReconcileError> {
    if !FeesCalculable(recs) then Some(FeeNotCalculable)
    else if !CapturesDated(recs) then Some(CaptureWithoutDate)
    else if !RefundsDated(recs) then Some(RefundWithoutDate)
    else if !OnePayoutPerDate(recs.payouts) then Some(SeveralPayoutsOnOneDate)
    else None
  }

  function Assemble(run: Run, st: ReportStates, recs: Records, conflicts: seq<Conflict>,
                    sorted: seq<CompletenessResult>): ReconciliationResult {
    ReconciliationResult(
      run, CONTRACT_VERSION, Transactions(run, st, recs), Movements(recs), PayoutRows(run, st, recs),
      Published(FlatMap(CompletenessExceptions(run), sorted) + FlatMap(ConflictExceptions(run), conflicts)
                + RecordExceptions(run, st, recs)),
      Map(StatusOf, sorted))
  }

  ghost function ResultFor(run: Run, records: seq<FinancialRecord>, conflicts: seq<Conflict>,
                           completeness: seq<CompletenessResult>)
    : Result<ReconciliationResult, ReconcileError>
  {
    var recs, sorted := Split(records), Sort(StatusKey, completeness);
    if InputRejection(run, sorted).Some? then Failure(InputRejection(run, sorted).value)
    else if RecordRejection(recs).Some? then Failure(RecordRejection(recs).value)
    else Success(Assemble(run, StatesOf(sorted), recs, conflicts, sorted))
  }
}
