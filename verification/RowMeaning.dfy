/** Transaction and payout rows, report and conflict exceptions and rejections, on the inputs of the run and with every
    column written out. */
module RowMeaning {
  import opened Sequences
  import opened Contracts
  import opened Money
  import opened Rules
  import opened Ledger
  import opened Reconciliation
  import opened ResultMeaning
  import opened ExceptionMeaning
  import opened PayoutMeaning
  import Marks
  import Incremental
  import Reconciler
  import Publication

  // ---- Totals over the captures of an order ----

  function FeeDueIf(orderId: string): FinancialRecord -> int {
    (r: FinancialRecord) => if CapturesFor(orderId)(r) then FeeDue(r.payment) else 0
  }

  /** The scheduled fees of the order's captured payments. */
  function FeesDue(orderId: string, rs: seq<FinancialRecord>): int { Sum(FeeDueIf(orderId), rs) }

  ghost predicate CapturedIn(rs: seq<FinancialRecord>, orderId: string, paymentId: string) {
    exists p :: PaymentRecord(p) in rs && p.status == Captured && p.orderId == orderId && p.paymentId == paymentId
  }

  ghost function RefundsOfOrder(rs: seq<FinancialRecord>, orderId: string): FinancialRecord -> bool {
    (r: FinancialRecord) => r.RefundRecord? && r.refund.status == Succeeded &&
    CapturedIn(rs, orderId, r.refund.paymentId)
  }

  ghost function FeesOfOrder(rs: seq<FinancialRecord>, orderId: string): FinancialRecord -> bool {
    (r: FinancialRecord) => r.FeeRecord? && CapturedIn(rs, orderId, r.fee.paymentId)
  }

  lemma CapturedIds(rs: seq<FinancialRecord>, orderId: string, id: string)
    ensures id in Reconciler.IdsOf(CapturesOf(Split(rs), orderId)) <==> CapturedIn(rs, orderId, id)
  {
    CapturesSeen(rs, orderId);
    if CapturedIn(rs, orderId, id) {
      var p :| PaymentRecord(p) in rs && p.status == Captured && p.orderId == orderId && p.paymentId == id;
      assert p in CapturesOf(Split(rs), orderId);
    }
  }

  function SucceededAmong(ids: set<string>): Refund -> bool {
    (f: Refund) => f.status == Succeeded && f.paymentId in ids
  }

  function FeesAmong(ids: set<string>): Fee -> bool { (f: Fee) => f.paymentId in ids }

  lemma OrderRefundsSeen(rs: seq<FinancialRecord>, orderId: string)
    ensures var fs := Filter(InKeys(RefundPaymentId, Reconciler.IdsOf(CapturesOf(Split(rs), orderId))),
                             SuccessfulRefunds(Split(rs)));
      Sum(RefundAmount, fs) == Total(RefundsOfOrder(rs, orderId), rs) && |fs| == Count(RefundsOfOrder(rs, orderId), rs)
  {
    var ids := Reconciler.IdsOf(CapturesOf(Split(rs), orderId));
    FilterTwice(InKeys(RefundPaymentId, ids), IsSucceeded, SucceededAmong(ids), Split(rs).refunds);
    forall r | r in rs && r.RefundRecord?
      ensures r.refund.paymentId in ids <==> CapturedIn(rs, orderId, r.refund.paymentId)
    {
      CapturedIds(rs, orderId, r.refund.paymentId);
    }
    OrderRefundsCounted(rs, orderId, ids);
  }

  lemma OrderRefundsCounted(rs: seq<FinancialRecord>, orderId: string, ids: set<string>)
    requires forall r :: r in rs && r.RefundRecord? ==>
      (r.refund.paymentId in ids <==> CapturedIn(rs, orderId, r.refund.paymentId))
    ensures var fs := Filter(SucceededAmong(ids), Split(rs).refunds);
      Sum(RefundAmount, fs) == Total(RefundsOfOrder(rs, orderId), rs) && |fs| == Count(RefundsOfOrder(rs, orderId), rs)
  {
    OrderRefundsOf(rs, orderId, ids);
    RefundsCounted(rs, SucceededAmong(ids), RefundsOfOrder(rs, orderId));
  }

  lemma OrderRefundsOf(rs: seq<FinancialRecord>, orderId: string, ids: set<string>)
    requires forall r :: r in rs && r.RefundRecord? ==>
      (r.refund.paymentId in ids <==> CapturedIn(rs, orderId, r.refund.paymentId))
    ensures OfRefunds(rs, RefundsOfOrder(rs, orderId), SucceededAmong(ids))
  {
  }

  lemma OrderFeesSeen(rs: seq<FinancialRecord>, orderId: string)
    ensures Sum(FeeAmount,
                Filter(InKeys(FeePaymentId, Reconciler.IdsOf(CapturesOf(Split(rs), orderId))), Split(rs).fees))
      == Total(FeesOfOrder(rs, orderId), rs)
  {
    var ids := Reconciler.IdsOf(CapturesOf(Split(rs), orderId));
    FilterAgree(InKeys(FeePaymentId, ids), FeesAmong(ids), Split(rs).fees);
    forall r | r in rs && r.FeeRecord?
      ensures r.fee.paymentId in ids <==> CapturedIn(rs, orderId, r.fee.paymentId)
    {
      CapturedIds(rs, orderId, r.fee.paymentId);
    }
    OrderFeesCounted(rs, orderId, ids);
  }

  lemma OrderFeesCounted(rs: seq<FinancialRecord>, orderId: string, ids: set<string>)
    requires forall r :: r in rs && r.FeeRecord? ==>
      (r.fee.paymentId in ids <==> CapturedIn(rs, orderId, r.fee.paymentId))
    ensures Sum(FeeAmount, Filter(FeesAmong(ids), Split(rs).fees)) == Total(FeesOfOrder(rs, orderId), rs)
  {
    OrderFeesOf(rs, orderId, ids);
    FeesCounted(rs, FeesAmong(ids), FeesOfOrder(rs, orderId));
  }

  lemma OrderFeesOf(rs: seq<FinancialRecord>, orderId: string, ids: set<string>)
    requires forall r :: r in rs && r.FeeRecord? ==>
      (r.fee.paymentId in ids <==> CapturedIn(rs, orderId, r.fee.paymentId))
    ensures OfFees(rs, FeesOfOrder(rs, orderId), FeesAmong(ids))
  {
  }

  lemma FeeDueOfRecord(rs: seq<FinancialRecord>, orderId: string, r: FinancialRecord, h: Payment -> int)
    requires FeesCalculable(Split(rs)) && r in rs
    requires forall p :: h(p) == if CapturedFor(orderId)(p) then PaymentFee(p) else 0
    ensures FeeDueIf(orderId)(r) == Sum(h, AsPayment(r))
  {
    if r.PaymentRecord? {
      var p := r.payment;
      SumSingle(h, p);
      assert AsPayment(r) == [p] && r == PaymentRecord(p);
      CapturedSeen(rs, p);
      if p.status == Captured {
        FeeSeen(p);
        assert FeeDue(p) == PaymentFee(p);
      }
      assert CapturedFor(orderId)(p) <==> p.status == Captured && p.orderId == orderId;
      assert CapturesFor(orderId)(r) <==> p.status == Captured && p.orderId == orderId;
      assert h(p) == if CapturedFor(orderId)(p) then PaymentFee(p) else 0;
      assert FeeDueIf(orderId)(r) == if CapturesFor(orderId)(r) then FeeDue(p) else 0;
    } else {
      assert AsPayment(r) == [] && Sum(h, []) == 0 && !CapturesFor(orderId)(r);
      assert FeeDueIf(orderId)(r) == 0;
    }
  }

  lemma FeesDueSeen(rs: seq<FinancialRecord>, orderId: string)
    requires FeesCalculable(Split(rs))
    ensures Sum(PaymentFee, CapturesOf(Split(rs), orderId)) == FeesDue(orderId, rs)
  {
    CapturesFiltered(rs, orderId);
    var h := (p: Payment) => if CapturedFor(orderId)(p) then PaymentFee(p) else 0;
    forall r | r in rs
      ensures FeeDueIf(orderId)(r) == Sum(h, AsPayment(r))
    {
      FeeDueOfRecord(rs, orderId, r, h);
    }
    PickedSum(PaymentFee, CapturedFor(orderId), PaymentKey, AsPayment, h, FeeDueIf(orderId), rs);
  }

  // ---- Transaction rows ----

  /** Why a code blocks the order's row. */
  ghost predicate RaisedInOrder(cs: seq<CompletenessResult>, rs: seq<FinancialRecord>, o: Order, c: ExceptionCode) {
    match c
    case CaptureForNonPayableOrder => CompleteIn(cs, {Orders, Payments}) && o.status == Cancelled &&
      !NoCaptureOf(rs, o.orderId)
    case RefundCurrencyMismatch => CompleteIn(cs, {Payments, Refunds}) && SomeRefundElsewhere(rs, o)
    case ExcessRefund => CompleteIn(cs, {Payments, Refunds}) && SomeExcess(rs, o)
    case MissingFee => CompleteIn(cs, {Payments, Fees}) && SomeWithoutFee(rs, o)
    case FeeMismatch => CompleteIn(cs, {Payments, Fees}) && SomeWrongFee(rs, o)
    case MissingPayment => CompleteIn(cs, {Orders, Payments}) && o.status == Paid && NoCaptureOf(rs, o.orderId)
    case PaymentAmountMismatch =>
      CompleteIn(cs, {Orders, Payments}) && o.status == Paid && !NoCaptureOf(rs, o.orderId) &&
      Total(CapturesFor(o.orderId), rs) != o.orderTotal
    case MultipleCapture => CompleteIn(cs, {Orders, Payments}) && o.status == Paid &&
      Count(CapturesFor(o.orderId), rs) > 1
    case _ => false
  }

  /** A captured payment of the order was refunded in another currency. */
  ghost predicate SomeRefundElsewhere(rs: seq<FinancialRecord>, o: Order) {
    exists p, f :: CaptureFor(rs, o, p) && RefundedElsewhere(rs, p, f)
  }

  ghost predicate SomeExcess(rs: seq<FinancialRecord>, o: Order) {
    exists p :: CaptureFor(rs, o, p) && Total(RefundsFor(p.paymentId), rs) > p.amount
  }

  ghost predicate SomeWithoutFee(rs: seq<FinancialRecord>, o: Order) {
    exists p :: CaptureFor(rs, o, p) && NoFeeOf(rs, p.paymentId)
  }

  ghost predicate SomeWrongFee(rs: seq<FinancialRecord>, o: Order) {
    exists p :: CaptureFor(rs, o, p) && !NoFeeOf(rs, p.paymentId) && Total(FeesFor(p.paymentId), rs) != FeeDue(p)
  }

  ghost predicate RefundedElsewhere(rs: seq<FinancialRecord>, p: Payment, f: Refund) {
    RefundRecord(f) in rs && f.status == Succeeded && f.paymentId == p.paymentId && f.currency != p.currency
  }

  ghost predicate CaptureFor(rs: seq<FinancialRecord>, o: Order, p: Payment) {
    PaymentRecord(p) in rs && p.status == Captured && p.orderId == o.orderId
  }

  lemma ViewedCaptures(rs: seq<FinancialRecord>, o: Order, cv: CaptureView)
    ensures cv in ViewOrder(Split(rs))(o).captures <==>
      CaptureFor(rs, o, cv.payment) && cv == ViewCapture(Split(rs))(cv.payment)
  {
    CapturesSeen(rs, o.orderId);
    var ps := CapturesOf(Split(rs), o.orderId);
    assert ViewOrder(Split(rs))(o).captures == Map(ViewCapture(Split(rs)), ps);
    MapMember(ViewCapture(Split(rs)), ps, cv);
    if p :| p in ps && ViewCapture(Split(rs))(p) == cv {
      assert cv.payment == p;
    }
  }

  lemma CaptureViewed(rs: seq<FinancialRecord>, o: Order, p: Payment)
    requires CaptureFor(rs, o, p)
    ensures ViewCapture(Split(rs))(p) in ViewOrder(Split(rs))(o).captures && ViewCapture(Split(rs))(p).payment == p
  {
    assert ViewCapture(Split(rs))(p).payment == p;
    ViewedCaptures(rs, o, ViewCapture(Split(rs))(p));
  }

  lemma RefundCodesSeen(rs: seq<FinancialRecord>, o: Order)
    ensures ViewedElsewhere(ViewOrder(Split(rs))(o)) <==> SomeRefundElsewhere(rs, o)
  {
    var v := ViewOrder(Split(rs))(o);
    if cv, r :| cv in v.captures && r in cv.refunds && r.currency != cv.payment.currency {
      ViewedCaptures(rs, o, cv);
      RefundsSeen(rs, cv.payment.paymentId);
      assert CaptureFor(rs, o, cv.payment) && RefundedElsewhere(rs, cv.payment, r);
    }
    if p, f :| CaptureFor(rs, o, p) && RefundedElsewhere(rs, p, f) {
      CaptureViewed(rs, o, p);
      RefundsSeen(rs, p.paymentId);
      var cv := ViewCapture(Split(rs))(p);
      assert cv in v.captures && f in cv.refunds;
    }
  }

  lemma ExcessCodesSeen(rs: seq<FinancialRecord>, o: Order)
    ensures ViewedExcess(ViewOrder(Split(rs))(o)) <==> SomeExcess(rs, o)
  {
    var v := ViewOrder(Split(rs))(o);
    if cv :| cv in v.captures && CaptureRefunded(cv) > cv.payment.amount {
      ViewedCaptures(rs, o, cv);
      RefundsOfCapture(rs, cv.payment);
    }
    if p :| CaptureFor(rs, o, p) && Total(RefundsFor(p.paymentId), rs) > p.amount {
      CaptureViewed(rs, o, p);
      RefundsOfCapture(rs, p);
    }
  }

  lemma MissingFeeCodesSeen(rs: seq<FinancialRecord>, o: Order)
    requires FeesCalculable(Split(rs))
    ensures ViewedWithoutFee(ViewOrder(Split(rs))(o)) <==> SomeWithoutFee(rs, o)
  {
    var v := ViewOrder(Split(rs))(o);
    if cv :| cv in v.captures && cv.fees == [] {
      ViewedCaptures(rs, o, cv);
      CapturedSeen(rs, cv.payment);
      FeesOfCapture(rs, cv.payment);
    }
    if p :| CaptureFor(rs, o, p) && NoFeeOf(rs, p.paymentId) {
      CaptureViewed(rs, o, p);
      CapturedSeen(rs, p);
      FeesOfCapture(rs, p);
    }
  }

  lemma WrongFeeCodesSeen(rs: seq<FinancialRecord>, o: Order)
    requires FeesCalculable(Split(rs))
    ensures ViewedWrongFee(ViewOrder(Split(rs))(o)) <==> SomeWrongFee(rs, o)
  {
    var v := ViewOrder(Split(rs))(o);
    if cv :| cv in v.captures && cv.fees != [] && CaptureReportedFee(cv) != CaptureExpectedFee(cv) {
      ViewedCaptures(rs, o, cv);
      CapturedSeen(rs, cv.payment);
      FeesOfCapture(rs, cv.payment);
    }
    if p :| CaptureFor(rs, o, p) && !NoFeeOf(rs, p.paymentId) && Total(FeesFor(p.paymentId), rs) != FeeDue(p) {
      CaptureViewed(rs, o, p);
      CapturedSeen(rs, p);
      FeesOfCapture(rs, p);
    }
  }

  lemma OrderBasics(rs: seq<FinancialRecord>, o: Order)
    ensures var v := ViewOrder(Split(rs))(o);
      v.order == o && (v.captures == [] <==> NoCaptureOf(rs, o.orderId)) &&
      |v.captures| == Count(CapturesFor(o.orderId), rs) && CapturedTotal(v) == Total(CapturesFor(o.orderId), rs)
  {
    OrderInView(rs, o);
  }

  lemma CollectionForms(st: ReportStates, v: OrderView)
    ensures OrderRaises(st, v, CaptureForNonPayableOrder) <==>
      AllComplete(st, {Orders, Payments}) && v.order.status == Cancelled && v.captures != []
    ensures OrderRaises(st, v, MissingPayment) <==>
      AllComplete(st, {Orders, Payments}) && v.order.status == Paid && v.captures == []
    ensures OrderRaises(st, v, PaymentAmountMismatch) <==>
      AllComplete(st, {Orders, Payments}) && v.order.status == Paid && v.captures != [] &&
      CapturedTotal(v) != v.order.orderTotal
    ensures OrderRaises(st, v, MultipleCapture) <==>
      AllComplete(st, {Orders, Payments}) && v.order.status == Paid && |v.captures| > 1
  {
  }

  ghost predicate ViewedElsewhere(v: OrderView) {
    exists cv, r :: cv in v.captures && r in cv.refunds && r.currency != cv.payment.currency
  }

  ghost predicate ViewedExcess(v: OrderView) {
    exists cv :: cv in v.captures && CaptureRefunded(cv) > cv.payment.amount
  }

  ghost predicate ViewedWithoutFee(v: OrderView) { exists cv :: cv in v.captures && cv.fees == [] }

  ghost predicate ViewedWrongFee(v: OrderView) {
    exists cv :: cv in v.captures && cv.fees != [] && CaptureReportedFee(cv) != CaptureExpectedFee(cv)
  }

  lemma AttachmentForms(st: ReportStates, v: OrderView)
    ensures OrderRaises(st, v, RefundCurrencyMismatch) <==> AllComplete(st, {Payments, Refunds}) && ViewedElsewhere(v)
    ensures OrderRaises(st, v, ExcessRefund) <==> AllComplete(st, {Payments, Refunds}) && ViewedExcess(v)
    ensures OrderRaises(st, v, MissingFee) <==> AllComplete(st, {Payments, Fees}) && ViewedWithoutFee(v)
    ensures OrderRaises(st, v, FeeMismatch) <==> AllComplete(st, {Payments, Fees}) && ViewedWrongFee(v)
  {
  }

  lemma OtherForms(st: ReportStates, v: OrderView, c: ExceptionCode)
    requires c !in {CaptureForNonPayableOrder, MissingPayment, PaymentAmountMismatch, MultipleCapture,
                    RefundCurrencyMismatch, ExcessRefund, MissingFee, FeeMismatch}
    ensures !OrderRaises(st, v, c)
  {
  }

  lemma CollectionCodesSeen(cs: seq<CompletenessResult>, rs: seq<FinancialRecord>, o: Order, c: ExceptionCode)
    requires DistinctBy(ReportOf, Sort(StatusKey, cs)) && EveryReport(Sort(StatusKey, cs)) && FeesCalculable(Split(rs))
    requires c in {CaptureForNonPayableOrder, MissingPayment, PaymentAmountMismatch, MultipleCapture}
    ensures OrderRaises(StatesFor(cs), ViewOrder(Split(rs))(o), c) <==> RaisedInOrder(cs, rs, o, c)
  {
    ReportsSeen(cs, {Orders, Payments});
    OrderBasics(rs, o);
    CollectionForms(StatesFor(cs), ViewOrder(Split(rs))(o));
  }

  lemma AttachmentCodesSeen(cs: seq<CompletenessResult>, rs: seq<FinancialRecord>, o: Order, c: ExceptionCode)
    requires DistinctBy(ReportOf, Sort(StatusKey, cs)) && EveryReport(Sort(StatusKey, cs)) && FeesCalculable(Split(rs))
    requires c in {RefundCurrencyMismatch, ExcessRefund, MissingFee, FeeMismatch}
    ensures OrderRaises(StatesFor(cs), ViewOrder(Split(rs))(o), c) <==> RaisedInOrder(cs, rs, o, c)
  {
    ReportsSeen(cs, {Payments, Refunds});
    ReportsSeen(cs, {Payments, Fees});
    AttachmentForms(StatesFor(cs), ViewOrder(Split(rs))(o));
    RefundCodesSeen(rs, o);
    ExcessCodesSeen(rs, o);
    MissingFeeCodesSeen(rs, o);
    WrongFeeCodesSeen(rs, o);
  }

  lemma OrderCodesSeen(cs: seq<CompletenessResult>, rs: seq<FinancialRecord>, o: Order, c: ExceptionCode)
    requires DistinctBy(ReportOf, Sort(StatusKey, cs)) && EveryReport(Sort(StatusKey, cs)) && FeesCalculable(Split(rs))
    ensures OrderRaises(StatesFor(cs), ViewOrder(Split(rs))(o), c) <==> RaisedInOrder(cs, rs, o, c)
  {
    if c in {CaptureForNonPayableOrder, MissingPayment, PaymentAmountMismatch, MultipleCapture} {
      CollectionCodesSeen(cs, rs, o, c);
    } else if c in {RefundCurrencyMismatch, ExcessRefund, MissingFee, FeeMismatch} {
      AttachmentCodesSeen(cs, rs, o, c);
    } else {
      OtherForms(StatesFor(cs), ViewOrder(Split(rs))(o), c);
    }
  }

  ghost predicate SomeReport(cs: seq<CompletenessResult>, reports: set<ReportType>, s: Completeness) {
    exists c :: c in cs && c.status.report in reports && c.status.state == s
  }

  /** The state of a row, told by its reports and by whether anything blocks it. */
  ghost predicate RowState(cs: seq<CompletenessResult>, reports: set<ReportType>, blocked: bool,
                           s: ReconciliationState) {
    s == if SomeReport(cs, reports, Incomplete) then StateIncomplete
         else if SomeReport(cs, reports, Pending) then StatePending
         else if blocked then Exception
         else Reconciled
  }

  lemma StateOfReport(cs: seq<CompletenessResult>, c: CompletenessResult)
    requires DistinctBy(ReportOf, Sort(StatusKey, cs)) && c in cs
    ensures StatesFor(cs).Of(c.status.report) == c.status.state
  {
    SortMembers(StatusKey, cs);
    StateOfListed(Sort(StatusKey, cs), c);
    StateByReport(cs, c.status.report);
  }

  lemma StateOfListed(cs: seq<CompletenessResult>, c: CompletenessResult)
    requires DistinctBy(ReportOf, cs) && c in cs
    ensures StateOf(cs, c.status.report) == c.status.state
  {
    var r := c.status.report;
    assert ReportOf(c) == r;
    LookupMember(ReportOf, cs, r);
    var found := Lookup(ReportOf, cs, r).value;
    var i :| 0 <= i < |cs| && cs[i] == c;
    var j :| 0 <= j < |cs| && cs[j] == found;
    assert ReportOf(cs[i]) == ReportOf(cs[j]);
  }

  lemma ReportOfState(cs: seq<CompletenessResult>, r: ReportType)
    requires DistinctBy(ReportOf, Sort(StatusKey, cs)) && EveryReport(Sort(StatusKey, cs))
    ensures exists c :: c in cs && c.status.report == r && c.status.state == StatesFor(cs).Of(r)
  {
    var sorted := Sort(StatusKey, cs);
    SortMembers(StatusKey, cs);
    assert HasReport(sorted, r);
    LookupMember(ReportOf, sorted, r);
    var c := Lookup(ReportOf, sorted, r).value;
    assert c in cs && c.status.report == r;
    StateOfReport(cs, c);
  }

  lemma StateWritten(cs: seq<CompletenessResult>, reports: set<ReportType>, blocked: bool)
    requires DistinctBy(ReportOf, Sort(StatusKey, cs)) && EveryReport(Sort(StatusKey, cs))
    ensures RowState(cs, reports, blocked, ResultState(StatesFor(cs), reports, blocked))
  {
    forall s: Completeness
      ensures SomeReport(cs, reports, s) <==> exists r :: r in reports && StatesFor(cs).Of(r) == s
    {
      if c :| c in cs && c.status.report in reports && c.status.state == s {
        StateOfReport(cs, c);
      }
      if r :| r in reports && StatesFor(cs).Of(r) == s {
        ReportOfState(cs, r);
      }
    }
  }

  /** The row of one order, column by column. */
  ghost predicate RowOf(run: Run, cs: seq<CompletenessResult>, rs: seq<FinancialRecord>, o: Order, t: TransactionRow) {
    OrderRecord(o) in rs && t.runId == run.runId && t.contractVersion == "threadline_financial_contract_v1" &&
    t.orderId == o.orderId && t.orderStatus == o.status && t.currency == o.currency &&
    t.expectedCollection == (if o.status == Paid then o.orderTotal else 0) &&
    t.capturedTotal == Total(CapturesFor(o.orderId), rs) &&
    t.collectionVariance == t.capturedTotal - t.expectedCollection &&
    t.refundTotal == Total(RefundsOfOrder(rs, o.orderId), rs) && t.expectedFeeTotal == FeesDue(o.orderId, rs) &&
    t.reportedFeeTotal == Total(FeesOfOrder(rs, o.orderId), rs) &&
    t.lifetimeNet == t.capturedTotal - t.refundTotal - t.expectedFeeTotal &&
    t.captureCount == Count(CapturesFor(o.orderId), rs) && t.refundCount == Count(RefundsOfOrder(rs, o.orderId), rs) &&
    (forall c :: c in t.codes <==> RaisedInOrder(cs, rs, o, c)) &&
    RowState(cs, {Orders, Payments, Refunds, Fees}, t.codes != {}, t.state)
  }

  lemma OrderTotalsSeen(rs: seq<FinancialRecord>, o: Order)
    requires UniqueIdentities(rs) && FeesCalculable(Split(rs))
    ensures var v := ViewOrder(Split(rs))(o);
      v.order == o && CapturedTotal(v) == Total(CapturesFor(o.orderId), rs) &&
      |v.captures| == Count(CapturesFor(o.orderId), rs) &&
      Sum(CaptureRefunded, v.captures) == Total(RefundsOfOrder(rs, o.orderId), rs) &&
      Sum(CaptureRefundCount, v.captures) == Count(RefundsOfOrder(rs, o.orderId), rs) &&
      Sum(CaptureExpectedFee, v.captures) == FeesDue(o.orderId, rs) &&
      Sum(CaptureReportedFee, v.captures) == Total(FeesOfOrder(rs, o.orderId), rs)
  {
    SplitOrdered(rs);
    Reconciler.OrderTotals(Split(rs), o);
    OrderInView(rs, o);
    OrderRefundsSeen(rs, o.orderId);
    OrderFeesSeen(rs, o.orderId);
    FeesDueSeen(rs, o.orderId);
  }

  lemma RowWritten(run: Run, cs: seq<CompletenessResult>, rs: seq<FinancialRecord>, o: Order)
    requires UniqueIdentities(rs) && FeesCalculable(Split(rs)) && OrderRecord(o) in rs
    requires DistinctBy(ReportOf, Sort(StatusKey, cs)) && EveryReport(Sort(StatusKey, cs))
    ensures RowOf(run, cs, rs, o, TransactionRule(run, StatesFor(cs), Split(rs))(o))
  {
    var v := ViewOrder(Split(rs))(o);
    var t := TransactionFor(run, StatesFor(cs), v);
    assert TransactionRule(run, StatesFor(cs), Split(rs))(o) == t;
    OrderTotalsSeen(rs, o);
    forall c
      ensures c in t.codes <==> RaisedInOrder(cs, rs, o, c)
    {
      OrderCodesSeen(cs, rs, o, c);
    }
    StateWritten(cs, {Orders, Payments, Refunds, Fees}, t.codes != {});
  }

  lemma RowsListed(run: Run, rs: seq<FinancialRecord>, cs: seq<CompletenessResult>)
    requires UniqueIdentities(rs) && FeesCalculable(Split(rs))
    requires DistinctBy(ReportOf, Sort(StatusKey, cs)) && EveryReport(Sort(StatusKey, cs))
    ensures var os, ts := Split(rs).orders, Transactions(run, StatesFor(cs), Split(rs));
      |ts| == |os| && forall i :: 0 <= i < |ts| ==> OrderRecord(os[i]) in rs && RowOf(run, cs, rs, os[i], ts[i])
  {
    var os := Split(rs).orders;
    forall i | 0 <= i < |os|
      ensures OrderRecord(os[i]) in rs &&
        RowOf(run, cs, rs, os[i], TransactionRule(run, StatesFor(cs), Split(rs))(os[i]))
    {
      OrderListed(rs, os[i]);
      RowWritten(run, cs, rs, os[i]);
    }
  }

  lemma OrdersAscending(rs: seq<FinancialRecord>)
    requires UniqueIdentities(rs)
    ensures var os := Split(rs).orders; forall i, j :: 0 <= i < j < |os| ==> StringLess(os[i].orderId, os[j].orderId)
  {
    SplitOrdered(rs);
    var os := Split(rs).orders;
    forall i, j | 0 <= i < j < |os|
      ensures StringLess(os[i].orderId, os[j].orderId)
    {
      OrderKeyOrder(os[i], os[j]);
    }
  }

  /** Each order has its row and there are no other rows. */
  lemma TransactionsInFull(run: Run, rs: seq<FinancialRecord>, conflicts: seq<Conflict>, cs: seq<CompletenessResult>)
    requires UniqueIdentities(rs) && ResultFor(run, rs, conflicts, cs).Success?
    ensures var ts := ResultFor(run, rs, conflicts, cs).value.transactions;
      (forall t :: t in ts ==> exists o :: RowOf(run, cs, rs, o, t)) &&
      forall o :: OrderRecord(o) in rs ==> exists t :: t in ts && RowOf(run, cs, rs, o, t)
  {
    var os, ts := Split(rs).orders, Transactions(run, StatesFor(cs), Split(rs));
    ResultRaw(run, rs, conflicts, cs);
    Incremental.ResultSections(run, rs, conflicts, cs);
    RowsListed(run, rs, cs);
    forall o
      ensures o in os <==> OrderRecord(o) in rs
    {
      OrderListed(rs, o);
    }
    RowsMatched(run, cs, rs, os, ts);
  }

  lemma RowsMatched(run: Run, cs: seq<CompletenessResult>, rs: seq<FinancialRecord>, os: seq<Order>,
                    ts: seq<TransactionRow>)
    requires |ts| == |os| && forall i :: 0 <= i < |ts| ==> RowOf(run, cs, rs, os[i], ts[i])
    ensures forall t :: t in ts ==> exists o :: RowOf(run, cs, rs, o, t)
    ensures forall o :: o in os ==> exists t :: t in ts && RowOf(run, cs, rs, o, t)
  {
    forall t | t in ts
      ensures exists o :: RowOf(run, cs, rs, o, t)
    {
      var i :| 0 <= i < |ts| && ts[i] == t;
      assert RowOf(run, cs, rs, os[i], t);
    }
    forall o | o in os
      ensures exists t :: t in ts && RowOf(run, cs, rs, o, t)
    {
      var i :| 0 <= i < |os| && os[i] == o;
      assert ts[i] in ts && RowOf(run, cs, rs, o, ts[i]);
    }
  }

  lemma TransactionsAscending(run: Run, rs: seq<FinancialRecord>, conflicts: seq<Conflict>, cs: seq<CompletenessResult>)
    requires UniqueIdentities(rs) && ResultFor(run, rs, conflicts, cs).Success?
    ensures var ts := ResultFor(run, rs, conflicts, cs).value.transactions;
      forall i, j :: 0 <= i < j < |ts| ==> StringLess(ts[i].orderId, ts[j].orderId)
  {
    var os, ts := Split(rs).orders, Transactions(run, StatesFor(cs), Split(rs));
    Incremental.ResultSections(run, rs, conflicts, cs);
    OrdersAscending(rs);
    forall i | 0 <= i < |ts|
      ensures ts[i].orderId == os[i].orderId
    {
      TransactionRuleId(run, StatesFor(cs), Split(rs), os[i]);
    }
  }

  lemma OrderListed(rs: seq<FinancialRecord>, o: Order)
    ensures o in Split(rs).orders <==> OrderRecord(o) in rs
  {
    SplitContains(rs, OrderRecord(o));
  }

  lemma OrderKeyOrder(o: Order, q: Order)
    requires KeyLess(OrderKey(o), OrderKey(q))
    ensures StringLess(o.orderId, q.orderId)
  {
    assert OrderKey(o)[1..] == [] && OrderKey(q)[1..] == [] && !KeyLess([], []);
  }

  // ---- Payout rows ----

  function AmountOn(day: int): ExpectedMovement -> int {
    (m: ExpectedMovement) => if m.availableOn == day then m.amount else 0
  }

  function OneOn(day: int): ExpectedMovement -> int {
    (m: ExpectedMovement) => if m.availableOn == day then 1 else 0
  }

  lemma DueTotals(ms: seq<ExpectedMovement>, day: int)
    ensures var due := Filter(KeyIs(MovementDay, day), ms);
      Sum(MovementAmount, due) == Sum(AmountOn(day), ms) && |due| == Sum(OneOn(day), ms)
  {
    forall m
      ensures KeyIs(MovementDay, day)(m) == (m.availableOn == day)
    {
      assert KeyIs(MovementDay, day)(m) == (MovementDay(m) == day);
    }
    SumFilter(MovementAmount, KeyIs(MovementDay, day), AmountOn(day), ms);
    SumFilter(One, KeyIs(MovementDay, day), OneOn(day), ms);
    SumOfOnes(Filter(KeyIs(MovementDay, day), ms));
  }

  ghost predicate DueHere(rs: seq<FinancialRecord>, p: Payout, m: ExpectedMovement) {
    m in Movements(Split(rs)) && m.availableOn == p.payoutDate
  }

  /** A line of the payout names a movement that another line of the run names too. */
  ghost predicate SomeShared(rs: seq<FinancialRecord>, p: Payout) {
    exists l :: LineRecord(l) in rs && l.payoutId == p.payoutId && Count(LinesNaming(l.kind, l.movementId), rs) > 1
  }

  ghost predicate SomeUncarried(rs: seq<FinancialRecord>, p: Payout) {
    exists m :: DueHere(rs, p, m) && Count(LinesBearing(p.payoutId, m.kind, m.id), rs) == 0
  }

  ghost predicate Misstated(rs: seq<FinancialRecord>, p: Payout, m: ExpectedMovement, l: SettlementLine, due: int) {
    DueHere(rs, p, m) && LineRecord(l) in rs && l.payoutId == p.payoutId && l.kind == m.kind && l.movementId == m.id &&
    Count(LinesBearing(p.payoutId, m.kind, m.id), rs) == 1 && LineDue(rs, m, due) && l.signedAmount != due
  }

  ghost predicate SomeMisstated(rs: seq<FinancialRecord>, p: Payout) { exists m, l, due :: Misstated(rs, p, m, l, due) }

  /** Why a code blocks the payout's row. */
  ghost predicate RaisedInPayout(cs: seq<CompletenessResult>, rs: seq<FinancialRecord>, p: Payout, c: ExceptionCode) {
    match c
    case DuplicateSettlementMovement => CompleteIn(cs, {SettlementLines}) && SomeShared(rs, p)
    case MissingSettlementLine => CompleteIn(cs, {Payments, Refunds, Fees, SettlementLines}) && SomeUncarried(rs, p)
    case SettlementLineAmountMismatch => CompleteIn(cs, {Payments, Refunds, Fees, SettlementLines}) &&
      SomeMisstated(rs, p)
    case PayoutTotalMismatch => CompleteIn(cs, {SettlementLines, Payouts}) &&
      p.reportedNet != Total(LinesFor(p.payoutId), rs)
    case _ => false
  }

  ghost predicate ViewedShared(v: PayoutView) { exists n :: n in v.sharers && n > 1 }

  ghost predicate ViewedUncarried(v: PayoutView) { exists d :: d in v.due && Carriers(v.lines, d.movement) == [] }

  ghost predicate ViewedMisstated(v: PayoutView) { exists d :: d in v.due && WrongAmount(v.lines, d) }

  lemma PayoutForms(st: ReportStates, v: PayoutView)
    ensures PayoutRaises(st, v, DuplicateSettlementMovement) <==> AllComplete(st, {SettlementLines}) && ViewedShared(v)
    ensures PayoutRaises(st, v, MissingSettlementLine) <==>
      AllComplete(st, {Payments, Refunds, Fees, SettlementLines}) && ViewedUncarried(v)
    ensures PayoutRaises(st, v, SettlementLineAmountMismatch) <==>
      AllComplete(st, {Payments, Refunds, Fees, SettlementLines}) && ViewedMisstated(v)
    ensures PayoutRaises(st, v, PayoutTotalMismatch) <==>
      AllComplete(st, {SettlementLines, Payouts}) && v.payout.reportedNet != LineTotal(v)
  {
    assert st.Of(SettlementLines) == st.lines;
  }

  lemma OtherPayoutForms(st: ReportStates, v: PayoutView, c: ExceptionCode)
    requires c !in {DuplicateSettlementMovement, MissingSettlementLine, SettlementLineAmountMismatch,
                    PayoutTotalMismatch}
    ensures !PayoutRaises(st, v, c)
  {
  }

  lemma PayoutBasics(rs: seq<FinancialRecord>, p: Payout)
    ensures var v, recs := ViewPayout(Split(rs))(p), Split(rs);
      v.payout == p && v.lines == LinesOf(recs, p.payoutId) &&
      v.due == Map(ViewDue(recs, v.lines), DueOn(recs, p.payoutDate)) &&
      v.sharers == Map(Sharers(recs), v.lines) && LineTotal(v) == Total(LinesFor(p.payoutId), rs) &&
      |v.lines| == Count(LinesFor(p.payoutId), rs)
  {
    LinesSeen(rs, p.payoutId);
  }

  lemma PayoutDue(rs: seq<FinancialRecord>, p: Payout)
    ensures var v, ms := ViewPayout(Split(rs))(p), Movements(Split(rs));
      ExpectedPayout(v) == Sum(AmountOn(p.payoutDate), ms) && |v.due| == Sum(OneOn(p.payoutDate), ms)
  {
    PayoutBasics(rs, p);
    var v, due := ViewPayout(Split(rs))(p), DueOn(Split(rs), p.payoutDate);
    DueTotals(Movements(Split(rs)), p.payoutDate);
    assert forall i :: 0 <= i < |due| ==> Map(DueMovement, v.due)[i] == due[i];
    assert Map(DueMovement, v.due) == due;
  }

  lemma DueViewed(rs: seq<FinancialRecord>, p: Payout, d: DueView)
    ensures d in ViewPayout(Split(rs))(p).due <==>
      DueHere(rs, p, d.movement) && d == ViewDue(Split(rs), LinesOf(Split(rs), p.payoutId))(d.movement)
  {
    PayoutBasics(rs, p);
    var lines := LinesOf(Split(rs), p.payoutId);
    MapMember(ViewDue(Split(rs), lines), DueOn(Split(rs), p.payoutDate), d);
    DueSeen(rs, p.payoutDate, d.movement);
    if m :| m in DueOn(Split(rs), p.payoutDate) && ViewDue(Split(rs), lines)(m) == d {
      assert d.movement == m;
    }
  }

  lemma SharedCodesSeen(rs: seq<FinancialRecord>, p: Payout)
    ensures ViewedShared(ViewPayout(Split(rs))(p)) <==> SomeShared(rs, p)
  {
    PayoutBasics(rs, p);
    LinesSeen(rs, p.payoutId);
    var v, recs := ViewPayout(Split(rs))(p), Split(rs);
    if n :| n in v.sharers && n > 1 {
      MapMember(Sharers(recs), v.lines, n);
      var l :| l in v.lines && Sharers(recs)(l) == n;
      NamingSeen(rs, l.kind, l.movementId);
    }
    if l :| LineRecord(l) in rs && l.payoutId == p.payoutId && Count(LinesNaming(l.kind, l.movementId), rs) > 1 {
      NamingSeen(rs, l.kind, l.movementId);
      MapMember(Sharers(recs), v.lines, Sharers(recs)(l));
      assert l in v.lines && Sharers(recs)(l) in v.sharers;
    }
  }

  lemma UncarriedCodesSeen(rs: seq<FinancialRecord>, p: Payout)
    ensures ViewedUncarried(ViewPayout(Split(rs))(p)) <==> SomeUncarried(rs, p)
  {
    PayoutBasics(rs, p);
    var v := ViewPayout(Split(rs))(p);
    if d :| d in v.due && Carriers(v.lines, d.movement) == [] {
      DueViewed(rs, p, d);
      CarriersSeen(rs, p.payoutId, d.movement);
    }
    if m :| DueHere(rs, p, m) && Count(LinesBearing(p.payoutId, m.kind, m.id), rs) == 0 {
      var d := ViewDue(Split(rs), v.lines)(m);
      assert d.movement == m;
      DueViewed(rs, p, d);
      CarriersSeen(rs, p.payoutId, m);
    }
  }

  lemma MisstatedAt(rs: seq<FinancialRecord>, p: Payout, m: ExpectedMovement)
    requires UniqueIdentities(rs) && DueHere(rs, p, m)
    ensures var lines := LinesOf(Split(rs), p.payoutId);
      WrongAmount(lines, ViewDue(Split(rs), lines)(m)) <==> exists l, due :: Misstated(rs, p, m, l, due)
  {
    var lines := LinesOf(Split(rs), p.payoutId);
    var ls, d := Carriers(lines, m), ViewDue(Split(rs), lines)(m);
    assert d.movement == m;
    if |ls| == 1 {
      SoleBearer(rs, p.payoutId, m, ls[0]);
      LineDueSeen(rs, lines, m, ExpectedLineAmount(d));
      if WrongAmount(lines, d) {
        assert Misstated(rs, p, m, ls[0], ExpectedLineAmount(d));
      }
    }
    if l, due :| Misstated(rs, p, m, l, due) {
      SoleBearer(rs, p.payoutId, m, l);
      LineDueSeen(rs, lines, m, due);
    }
  }

  lemma MisstatedCodesSeen(rs: seq<FinancialRecord>, p: Payout)
    requires UniqueIdentities(rs)
    ensures ViewedMisstated(ViewPayout(Split(rs))(p)) <==> SomeMisstated(rs, p)
  {
    PayoutBasics(rs, p);
    var v := ViewPayout(Split(rs))(p);
    if d :| d in v.due && WrongAmount(v.lines, d) {
      DueViewed(rs, p, d);
      MisstatedAt(rs, p, d.movement);
    }
    if m, l, due :| Misstated(rs, p, m, l, due) {
      var d := ViewDue(Split(rs), v.lines)(m);
      assert d.movement == m;
      DueViewed(rs, p, d);
      MisstatedAt(rs, p, m);
    }
  }

  lemma PayoutCodesSeen(cs: seq<CompletenessResult>, rs: seq<FinancialRecord>, p: Payout, c: ExceptionCode)
    requires UniqueIdentities(rs) && DistinctBy(ReportOf, Sort(StatusKey, cs)) && EveryReport(Sort(StatusKey, cs))
    ensures PayoutRaises(StatesFor(cs), ViewPayout(Split(rs))(p), c) <==> RaisedInPayout(cs, rs, p, c)
  {
    var st, v := StatesFor(cs), ViewPayout(Split(rs))(p);
    ReportsSeen(cs, {SettlementLines});
    ReportsSeen(cs, {Payments, Refunds, Fees, SettlementLines});
    ReportsSeen(cs, {SettlementLines, Payouts});
    PayoutBasics(rs, p);
    PayoutForms(st, v);
    SharedCodesSeen(rs, p);
    UncarriedCodesSeen(rs, p);
    MisstatedCodesSeen(rs, p);
    match c
    case DuplicateSettlementMovement =>
    case MissingSettlementLine =>
    case SettlementLineAmountMismatch =>
    case PayoutTotalMismatch =>
    case _ => OtherPayoutForms(st, v, c);
  }

  /** The row of one payout, column by column; `ms` are the movements of the result. */
  ghost predicate PayoutRowOf(run: Run, cs: seq<CompletenessResult>, rs: seq<FinancialRecord>,
                              ms: seq<ExpectedMovement>,
                              p: Payout, t: PayoutRow) {
    PayoutRecord(p) in rs && t.runId == run.runId && t.contractVersion == "threadline_financial_contract_v1" &&
    t.payoutId == p.payoutId && t.payoutDate == p.payoutDate && t.currency == p.currency &&
    t.expectedPayout == Sum(AmountOn(p.payoutDate), ms) && t.lineTotal == Total(LinesFor(p.payoutId), rs) &&
    t.reportedNet == p.reportedNet && t.providerVariance == p.reportedNet - t.lineTotal &&
    t.endToEndVariance == p.reportedNet - t.expectedPayout && t.movementCount == Sum(OneOn(p.payoutDate), ms) &&
    t.lineCount == Count(LinesFor(p.payoutId), rs) && (forall c :: c in t.codes <==> RaisedInPayout(cs, rs, p, c)) &&
    RowState(cs, {Payments, Refunds, Fees, SettlementLines, Payouts}, t.codes != {} || t.endToEndVariance != 0, t.state)
  }

  lemma PayoutRowWritten(run: Run, cs: seq<CompletenessResult>, rs: seq<FinancialRecord>, p: Payout)
    requires UniqueIdentities(rs) && PayoutRecord(p) in rs
    requires DistinctBy(ReportOf, Sort(StatusKey, cs)) && EveryReport(Sort(StatusKey, cs))
    ensures PayoutRowOf(run, cs, rs, Movements(Split(rs)), p, PayoutRowRule(run, StatesFor(cs), Split(rs))(p))
  {
    var v := ViewPayout(Split(rs))(p);
    var t := PayoutFor(run, StatesFor(cs), v);
    assert PayoutRowRule(run, StatesFor(cs), Split(rs))(p) == t;
    PayoutBasics(rs, p);
    PayoutDue(rs, p);
    forall c
      ensures c in t.codes <==> RaisedInPayout(cs, rs, p, c)
    {
      PayoutCodesSeen(cs, rs, p, c);
    }
    StateWritten(cs, {Payments, Refunds, Fees, SettlementLines, Payouts}, t.codes != {} || t.endToEndVariance != 0);
  }

  lemma PayoutRowsListed(run: Run, rs: seq<FinancialRecord>, cs: seq<CompletenessResult>)
    requires UniqueIdentities(rs)
    requires DistinctBy(ReportOf, Sort(StatusKey, cs)) && EveryReport(Sort(StatusKey, cs))
    ensures var ps, ts := Split(rs).payouts, PayoutRows(run, StatesFor(cs), Split(rs));
      |ts| == |ps| && forall i :: 0 <= i < |ts| ==> PayoutRowOf(run, cs, rs, Movements(Split(rs)), ps[i], ts[i])
  {
    var ps := Split(rs).payouts;
    forall i | 0 <= i < |ps|
      ensures PayoutRowOf(run, cs, rs, Movements(Split(rs)), ps[i], PayoutRowRule(run, StatesFor(cs), Split(rs))(ps[i]))
    {
      PayoutSeen(rs, ps[i]);
      PayoutRowWritten(run, cs, rs, ps[i]);
    }
  }

  /** Each payout has its row and there are no other rows. */
  lemma PayoutsInFull(run: Run, rs: seq<FinancialRecord>, conflicts: seq<Conflict>, cs: seq<CompletenessResult>)
    requires UniqueIdentities(rs) && ResultFor(run, rs, conflicts, cs).Success?
    ensures var r := ResultFor(run, rs, conflicts, cs).value;
      (forall t :: t in r.payouts ==> exists p :: PayoutRowOf(run, cs, rs, r.movements, p, t)) &&
      forall p :: PayoutRecord(p) in rs ==> exists t :: t in r.payouts && PayoutRowOf(run, cs, rs, r.movements, p, t)
  {
    var ps, ts := Split(rs).payouts, PayoutRows(run, StatesFor(cs), Split(rs));
    ResultRaw(run, rs, conflicts, cs);
    Incremental.ResultSections(run, rs, conflicts, cs);
    PayoutRowsListed(run, rs, cs);
    forall p
      ensures p in ps <==> PayoutRecord(p) in rs
    {
      PayoutSeen(rs, p);
    }
    PayoutRowsMatched(run, cs, rs, Movements(Split(rs)), ps, ts);
  }

  lemma PayoutRowsMatched(run: Run, cs: seq<CompletenessResult>, rs: seq<FinancialRecord>, ms: seq<ExpectedMovement>,
                          ps: seq<Payout>, ts: seq<PayoutRow>)
    requires |ts| == |ps| && forall i :: 0 <= i < |ts| ==> PayoutRowOf(run, cs, rs, ms, ps[i], ts[i])
    ensures forall t :: t in ts ==> exists p :: PayoutRowOf(run, cs, rs, ms, p, t)
    ensures forall p :: p in ps ==> exists t :: t in ts && PayoutRowOf(run, cs, rs, ms, p, t)
  {
    forall t | t in ts
      ensures exists p :: PayoutRowOf(run, cs, rs, ms, p, t)
    {
      var i :| 0 <= i < |ts| && ts[i] == t;
      assert PayoutRowOf(run, cs, rs, ms, ps[i], t);
    }
    forall p | p in ps
      ensures exists t :: t in ts && PayoutRowOf(run, cs, rs, ms, p, t)
    {
      var i :| 0 <= i < |ps| && ps[i] == p;
      assert ts[i] in ts && PayoutRowOf(run, cs, rs, ms, p, ts[i]);
    }
  }

  // ---- Reports, conflicts and rejections ----

  /** The exception of one incomplete report. */
  ghost predicate ReportProblem(run: Run, c: CompletenessResult, e: FinancialException) {
    c.status.state == Incomplete &&
    e == Shown(run, ReportCompletenessRule, if c.missingOnly then SourceReportMissing else SourceReportInvalid,
               SourceReportSubject(c.status.report, c.status.day), None, None,
               match c.status.batchId case Some(id) => (if id == "" then {} else {BatchReference(id)}) case None => {})
  }

  /** The exception of one conflicted identity, citing every receipt. */
  ghost predicate ConflictProblem(run: Run, c: Conflict, e: FinancialException) {
    e == Shown(run, SameVersionConflictRule, ConflictingSourceVersion, RecordSubject(c.key), None, None,
               set id | id in c.receiptIds :: ReceiptReference(id))
  }

  lemma ReportsGiven(run: Run, cs: seq<CompletenessResult>, e: FinancialException)
    ensures e in FlatMap(CompletenessExceptions(run), Sort(StatusKey, cs)) <==>
      exists c :: c in cs && ReportProblem(run, c, e)
  {
    SortMembers(StatusKey, cs);
    FlatMapMember(CompletenessExceptions(run), Sort(StatusKey, cs), e);
    forall c: CompletenessResult
      ensures e in CompletenessExceptions(run)(c) <==> ReportProblem(run, c, e)
    {
    }
  }

  lemma ConflictsGiven(run: Run, conflicts: seq<Conflict>, e: FinancialException)
    ensures e in FlatMap(ConflictExceptions(run), conflicts) <==>
      exists c :: c in conflicts && ConflictProblem(run, c, e)
  {
    FlatMapMember(ConflictExceptions(run), conflicts, e);
    forall c: Conflict
      ensures e in ConflictExceptions(run)(c) <==> ConflictProblem(run, c, e)
    {
    }
  }

  lemma RaisedByRecordRule(run: Run, rs: seq<FinancialRecord>, cs: seq<CompletenessResult>, e: FinancialException)
    requires e in RecordExceptions(run, StatesFor(cs), Split(rs))
    ensures e.rule != ReportCompletenessRule && e.rule != SameVersionConflictRule
  {
    Incremental.RecordExceptionSources(run, StatesFor(cs), Split(rs), e);
    PassOf(run, StatesFor(cs), Split(rs), e);
  }

  lemma GivenSeen(run: Run, rs: seq<FinancialRecord>, conflicts: seq<Conflict>, cs: seq<CompletenessResult>,
                  e: FinancialException)
    ensures e in Raw(run, rs, conflicts, cs) && e.rule == ReportCompletenessRule <==>
      exists c :: c in cs && ReportProblem(run, c, e)
    ensures e in Raw(run, rs, conflicts, cs) && e.rule == SameVersionConflictRule <==>
      exists c :: c in conflicts && ConflictProblem(run, c, e)
  {
    ReportsGiven(run, cs, e);
    ConflictsGiven(run, conflicts, e);
    if e in RecordExceptions(run, StatesFor(cs), Split(rs)) {
      RaisedByRecordRule(run, rs, cs, e);
    }
  }

  lemma SameStatus(cs: seq<CompletenessResult>, c: CompletenessResult, d: CompletenessResult)
    requires DistinctBy(ReportOf, Sort(StatusKey, cs)) && c in cs && d in cs && c.status.report == d.status.report
    ensures c == d
  {
    var sorted := Sort(StatusKey, cs);
    SortMembers(StatusKey, cs);
    var i :| 0 <= i < |sorted| && sorted[i] == c;
    var j :| 0 <= j < |sorted| && sorted[j] == d;
    assert ReportOf(sorted[i]) == ReportOf(sorted[j]);
  }

  lemma ReportProblemUnique(run: Run, cs: seq<CompletenessResult>, e: FinancialException, f: FinancialException)
    requires DistinctBy(ReportOf, Sort(StatusKey, cs)) && e.subject == f.subject
    requires (exists c :: c in cs && ReportProblem(run, c, e)) && (exists d :: d in cs && ReportProblem(run, d, f))
    ensures f == e
  {
    var c :| c in cs && ReportProblem(run, c, e);
    var d :| d in cs && ReportProblem(run, d, f);
    SameStatus(cs, c, d);
  }

  /** Every incomplete report, and nothing else, is published: as missing when only files are missing, and otherwise as
      invalid. */
  lemma ReportsPublished(run: Run, rs: seq<FinancialRecord>, conflicts: seq<Conflict>, cs: seq<CompletenessResult>,
                         e: FinancialException)
    requires ResultFor(run, rs, conflicts, cs).Success? && e.rule == ReportCompletenessRule
    ensures e in ResultFor(run, rs, conflicts, cs).value.exceptions <==> exists c :: c in cs && ReportProblem(run, c, e)
  {
    ResultRaw(run, rs, conflicts, cs);
    GivenSeen(run, rs, conflicts, cs, e);
    if c :| c in cs && ReportProblem(run, c, e) {
      forall f | f in Raw(run, rs, conflicts, cs) && ExceptionId(f) == ExceptionId(e)
        ensures f == e
      {
        GivenSeen(run, rs, conflicts, cs, f);
        ReportProblemUnique(run, cs, e, f);
      }
      PublishedRaw(Raw(run, rs, conflicts, cs), e);
    }
    if e in Published(Raw(run, rs, conflicts, cs)) {
      PublishedIsRaw(Raw(run, rs, conflicts, cs), e);
    }
  }

  lemma ConflictProblemUnique(run: Run, conflicts: seq<Conflict>, e: FinancialException, f: FinancialException)
    requires forall c, d :: c in conflicts && d in conflicts && c.key == d.key ==> c == d
    requires exists c :: c in conflicts && ConflictProblem(run, c, e)
    requires exists d :: d in conflicts && ConflictProblem(run, d, f)
    requires ExceptionId(f) == ExceptionId(e)
    ensures f == e
  {
    var c :| c in conflicts && ConflictProblem(run, c, e);
    var d :| d in conflicts && ConflictProblem(run, d, f);
    assert RecordSubject(c.key) == e.subject == f.subject == RecordSubject(d.key);
  }

  /** Every conflict of a canonicalization, and nothing else, is published as one. */
  lemma ConflictsPublished(run: Run, rs: seq<FinancialRecord>, conflicts: seq<Conflict>, cs: seq<CompletenessResult>,
                           e: FinancialException)
    requires ResultFor(run, rs, conflicts, cs).Success? && e.rule == SameVersionConflictRule
    requires forall c, d :: c in conflicts && d in conflicts && c.key == d.key ==> c == d
    ensures e in ResultFor(run, rs, conflicts, cs).value.exceptions <==>
      exists c :: c in conflicts && ConflictProblem(run, c, e)
  {
    ResultRaw(run, rs, conflicts, cs);
    GivenSeen(run, rs, conflicts, cs, e);
    if c :| c in conflicts && ConflictProblem(run, c, e) {
      forall f | f in Raw(run, rs, conflicts, cs) && ExceptionId(f) == ExceptionId(e)
        ensures f == e
      {
        GivenSeen(run, rs, conflicts, cs, f);
        ConflictProblemUnique(run, conflicts, e, f);
      }
      PublishedRaw(Raw(run, rs, conflicts, cs), e);
    }
    if e in Published(Raw(run, rs, conflicts, cs)) {
      PublishedIsRaw(Raw(run, rs, conflicts, cs), e);
    }
  }

  ghost predicate TwiceReported(cs: seq<CompletenessResult>) {
    exists i, j :: 0 <= i < j < |cs| && cs[i].status.report == cs[j].status.report
  }

  ghost predicate NotReported(cs: seq<CompletenessResult>, r: ReportType) {
    forall c :: c in cs ==> c.status.report != r
  }

  ghost predicate Unreported(cs: seq<CompletenessResult>) { exists r :: NotReported(cs, r) }

  ghost predicate InputsAccepted(run: Run, cs: seq<CompletenessResult>) {
    run.runId != "" && !Blank(run.runId[0]) && !Blank(run.runId[|run.runId| - 1]) && !TwiceReported(cs) &&
    !Unreported(cs)
  }

  ghost predicate SomeFeeRefused(rs: seq<FinancialRecord>) {
    exists p :: PaymentRecord(p) in rs && p.status == Captured &&
      (p.currency != "EUR" || p.amount < 0 || p.amount > 999_999_999_999_999_999)
  }

  ghost predicate SomeCaptureUndated(rs: seq<FinancialRecord>) {
    exists p :: PaymentRecord(p) in rs && p.status == Captured && p.availableOn.None?
  }

  ghost predicate SomeRefundUndated(rs: seq<FinancialRecord>) {
    exists f :: RefundRecord(f) in rs && f.status == Succeeded && f.availableOn.None?
  }

  ghost predicate TwoPayoutsOneDay(rs: seq<FinancialRecord>) {
    exists p, q :: PayoutRecord(p) in rs && PayoutRecord(q) in rs && p != q && p.payoutDate == q.payoutDate
  }

  lemma InputsSeen(run: Run, cs: seq<CompletenessResult>)
    ensures DistinctBy(ReportOf, Sort(StatusKey, cs)) <==> !TwiceReported(cs)
    ensures EveryReport(Sort(StatusKey, cs)) <==> !Unreported(cs)
  {
    Publication.SortDistinctBy(StatusKey, ReportOf, cs);
    assert DistinctBy(ReportOf, cs) <==> !TwiceReported(cs) by {
      assert forall i, j :: 0 <= i < j < |cs| ==>
        (ReportOf(cs[i]) == ReportOf(cs[j]) <==> cs[i].status.report == cs[j].status.report);
    }
    forall r: ReportType
      ensures HasReport(Sort(StatusKey, cs), r) <==> !NotReported(cs, r)
    {
      LookupMember(ReportOf, Sort(StatusKey, cs), r);
      SortMembers(StatusKey, cs);
    }
    assert EveryReport(Sort(StatusKey, cs)) <==> forall r: ReportType :: HasReport(Sort(StatusKey, cs), r) by {
      forall r: ReportType | EveryReport(Sort(StatusKey, cs))
        ensures HasReport(Sort(StatusKey, cs), r)
      {
        match r
        case Orders =>
        case Payments =>
        case Refunds =>
        case Fees =>
        case SettlementLines =>
        case Payouts =>
      }
    }
  }

  lemma RecordsSeen(rs: seq<FinancialRecord>)
    ensures FeesCalculable(Split(rs)) <==> !SomeFeeRefused(rs)
    ensures CapturesDated(Split(rs)) <==> !SomeCaptureUndated(rs)
    ensures RefundsDated(Split(rs)) <==> !SomeRefundUndated(rs)
    ensures OnePayoutPerDate(Split(rs).payouts) <==> !TwoPayoutsOneDay(rs)
  {
    forall p: Payment
      ensures p in CapturedPayments(Split(rs)) <==> PaymentRecord(p) in rs && p.status == Captured
      ensures FeeCalculable(p) <==> p.currency == "EUR" && 0 <= p.amount <= 999_999_999_999_999_999
    {
      CapturedSeen(rs, p);
      FeeAccepted(p.paymentMethod, p.amount, p.currency);
    }
    forall f: Refund
      ensures f in SuccessfulRefunds(Split(rs)) <==> RefundRecord(f) in rs && f.status == Succeeded
    {
      SucceededSeen(rs, f);
    }
    forall p: Payout
      ensures p in Split(rs).payouts <==> PayoutRecord(p) in rs
    {
      PayoutSeen(rs, p);
    }
  }

  /** When a run is rejected, and with which error. */
  lemma RejectionsInFull(run: Run, rs: seq<FinancialRecord>, conflicts: seq<Conflict>, cs: seq<CompletenessResult>)
    ensures ResultFor(run, rs, conflicts, cs).Success? <==>
      InputsAccepted(run, cs) && !SomeFeeRefused(rs) && !SomeCaptureUndated(rs) && !SomeRefundUndated(rs) &&
      !TwoPayoutsOneDay(rs)
    ensures ResultFor(run, rs, conflicts, cs).Failure? ==>
      ResultFor(run, rs, conflicts, cs).error ==
      if run.runId == "" || Blank(run.runId[0]) || Blank(run.runId[|run.runId| - 1]) then InvalidRunId
      else if TwiceReported(cs) then DuplicateCompleteness
      else if Unreported(cs) then MissingCompleteness
      else if SomeFeeRefused(rs) then FeeNotCalculable
      else if SomeCaptureUndated(rs) then CaptureWithoutDate
      else if SomeRefundUndated(rs) then RefundWithoutDate
      else SeveralPayoutsOnOneDate
  {
    InputsSeen(run, cs);
    RecordsSeen(rs);
  }

  /** The rest of a result: its run, its contract version, the statuses of its reports, and the order of its lists. */
  lemma ResultHeader(run: Run, rs: seq<FinancialRecord>, conflicts: seq<Conflict>, cs: seq<CompletenessResult>)
    requires UniqueIdentities(rs) && ResultFor(run, rs, conflicts, cs).Success?
    ensures var r := ResultFor(run, rs, conflicts, cs).value;
      r.run == run && r.contractVersion == "threadline_financial_contract_v1" && |r.completeness| == |cs| &&
      forall s :: s in r.completeness <==> exists c :: c in cs && c.status == s
  {
    StatusesListed(cs);
  }

  lemma StatusesListed(cs: seq<CompletenessResult>)
    ensures var ss := Map(StatusOf, Sort(StatusKey, cs));
      |ss| == |cs| && forall s :: s in ss <==> exists c :: c in cs && c.status == s
  {
    SortMembers(StatusKey, cs);
    forall s: ReportStatus
      ensures s in Map(StatusOf, Sort(StatusKey, cs)) <==> exists c :: c in cs && c.status == s
    {
      MapMember(StatusOf, Sort(StatusKey, cs), s);
    }
  }

  /** Payouts come in the order of their dates. */
  lemma PayoutsAscending(run: Run, rs: seq<FinancialRecord>, conflicts: seq<Conflict>, cs: seq<CompletenessResult>)
    requires UniqueIdentities(rs) && ResultFor(run, rs, conflicts, cs).Success?
    ensures var ps := ResultFor(run, rs, conflicts, cs).value.payouts;
      forall i, j :: 0 <= i < j < |ps| ==> ps[i].payoutDate <= ps[j].payoutDate
  {
    var ps := ResultFor(run, rs, conflicts, cs).value.payouts;
    Incremental.ResultSections(run, rs, conflicts, cs);
    SplitOrdered(rs);
    Incremental.ResultOrdered(run, StatesFor(cs), Split(rs));
    forall i, j | 0 <= i < j < |ps|
      ensures ps[i].payoutDate <= ps[j].payoutDate
    {
      PayoutRowOrder(ps[i], ps[j]);
    }
  }

  lemma PayoutRowOrder(p: PayoutRow, q: PayoutRow)
    requires !KeyLess(Incremental.PayoutRowKey(q), Incremental.PayoutRowKey(p))
    ensures p.payoutDate <= q.payoutDate
  {
  }

  /** The movements of a result: those of its captured payments and successful refunds, and no others. */
  lemma MovementsPublished(run: Run, rs: seq<FinancialRecord>, conflicts: seq<Conflict>, cs: seq<CompletenessResult>,
                           m: ExpectedMovement)
    requires ResultFor(run, rs, conflicts, cs).Success?
    ensures var ms := ResultFor(run, rs, conflicts, cs).value.movements;
      (m in ms ==> (exists p :: Collects(rs, p, m) || ChargesFee(rs, p, m)) || (exists f :: Repays(rs, f, m))) &&
      ((exists p :: Collects(rs, p, m)) || (exists f :: Repays(rs, f, m)) ==> m in ms) &&
      ((exists p :: ChargesFee(rs, p, m)) ==> exists n :: n in ms && n == m.(support := n.support))
  {
    ResultRaw(run, rs, conflicts, cs);
    Incremental.ResultSections(run, rs, conflicts, cs);
    MovementsInFull(rs, m);
  }
}
