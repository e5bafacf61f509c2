/** Every exception about captures, refunds, fees, orders and shared movements, on the records, with its amounts and
    evidence written out. */
module ExceptionMeaning {
  import opened Sequences
  import opened Contracts
  import opened Money
  import opened Rules
  import opened Ledger
  import opened Reconciliation
  import opened Exceptions
  import opened ResultMeaning
  import Marks
  import Incremental
  import Refresh

  // ---- Captures ----

  ghost predicate PaidOrphan(run: Run, rs: seq<FinancialRecord>, p: Payment, e: FinancialException) {
    PaymentRecord(p) in rs && p.status == Captured && (forall o :: OrderRecord(o) in rs ==> o.orderId != p.orderId) &&
    e == Shown(run, PaymentOrderExists, OrphanPayment, Of(PaymentType, p.paymentId), None, Some(p.amount),
               {Ref(PaymentType, p.paymentId)})
  }

  /** What the two link rules say of one capture and the order it names. */
  lemma PaymentLinkForm(run: Run, st: ReportStates, v: CaptureView, e: FinancialException)
    ensures e in PaymentLinkExceptions(run, st, v) && e.rule == PaymentOrderExists <==>
      AllComplete(st, {Orders, Payments}) && v.order.None? &&
      e == Shown(run, PaymentOrderExists, OrphanPayment, Of(PaymentType, v.payment.paymentId), None,
                 Some(v.payment.amount), {Ref(PaymentType, v.payment.paymentId)})
    ensures e in PaymentLinkExceptions(run, st, v) && e.rule != PaymentOrderExists <==>
      AllComplete(st, {Orders, Payments}) && v.order.Some? && v.order.value.status == Cancelled &&
      e == Shown(run, PaymentOrderIsPayable, CaptureForNonPayableOrder, Of(OrderType, v.order.value.orderId), Some(0),
                 Some(v.payment.amount), {Ref(OrderType, v.order.value.orderId), Ref(PaymentType, v.payment.paymentId)})
  {
  }

  lemma PaidOrphanAt(run: Run, st: ReportStates, rs: seq<FinancialRecord>, p: Payment, e: FinancialException)
    requires PaymentRecord(p) in rs && p.status == Captured
    ensures e in PaymentLinkRule(run, st, Split(rs))(p) && e.rule == PaymentOrderExists <==>
      AllComplete(st, {Orders, Payments}) && PaidOrphan(run, rs, p, e)
  {
    var v := ViewCapture(Split(rs))(p);
    OrderSeen(rs, p.orderId);
    assert v.order == Lookup(OrderId, Split(rs).orders, p.orderId) && v.payment == p;
    assert PaymentLinkRule(run, st, Split(rs))(p) == PaymentLinkExceptions(run, st, v);
    PaymentLinkForm(run, st, v, e);
  }

  lemma PaidOrphanRaised(run: Run, rs: seq<FinancialRecord>, cs: seq<CompletenessResult>, e: FinancialException)
    requires e.rule == PaymentOrderExists
    ensures Raises(run, rs, cs, e) <==>
      AllComplete(StatesFor(cs), {Orders, Payments}) && exists p :: PaidOrphan(run, rs, p, e)
  {
    PassOf(run, StatesFor(cs), Split(rs), e);
    forall p: Payment
      ensures p in CapturedPayments(Split(rs)) && Incremental.RaisesForPayment(run, StatesFor(cs), Split(rs), p, e) <==>
        AllComplete(StatesFor(cs), {Orders, Payments}) && PaidOrphan(run, rs, p, e)
    {
      CapturedSeen(rs, p);
      CaptureRules(run, StatesFor(cs), Split(rs), p, e);
      if PaymentRecord(p) in rs && p.status == Captured {
        PaidOrphanAt(run, StatesFor(cs), rs, p, e);
      }
    }
  }

  lemma PaidOrphanUnique(run: Run, rs: seq<FinancialRecord>, e: FinancialException, f: FinancialException)
    requires UniqueIdentities(rs) && (exists p :: PaidOrphan(run, rs, p, e)) && (exists q :: PaidOrphan(run, rs, q, f))
    requires e.subject == f.subject
    ensures e == f
  {
    var p :| PaidOrphan(run, rs, p, e);
    var q :| PaidOrphan(run, rs, q, f);
    SamePayment(rs, p, q);
  }

  /** A captured payment whose order is not among the records, and nothing else, is published as an orphan for its
      amount. */
  lemma PaidOrphanPublished(run: Run, rs: seq<FinancialRecord>, conflicts: seq<Conflict>, cs: seq<CompletenessResult>,
                        e: FinancialException)
    requires UniqueIdentities(rs) && ResultFor(run, rs, conflicts, cs).Success? && e.rule == PaymentOrderExists
    ensures e in ResultFor(run, rs, conflicts, cs).value.exceptions <==>
      CompleteIn(cs, {Orders, Payments}) && exists p :: PaidOrphan(run, rs, p, e)
  {
    ResultRaw(run, rs, conflicts, cs);
    ReportsSeen(cs, {Orders, Payments});
    PaidOrphanRaised(run, rs, cs, e);
    forall f | Raises(run, rs, cs, e) && Raises(run, rs, cs, f) && ExceptionId(f) == ExceptionId(e)
      ensures f == e
    {
      PaidOrphanRaised(run, rs, cs, f);
      PaidOrphanUnique(run, rs, e, f);
    }
    RaisedIsPublished(run, rs, conflicts, cs, e);
  }

  ghost predicate RefundedBeyond(run: Run, rs: seq<FinancialRecord>, p: Payment, e: FinancialException) {
    PaymentRecord(p) in rs && p.status == Captured && Total(RefundsFor(p.paymentId), rs) > p.amount &&
    e == Shown(run, RefundTotalWithinCapture, ExcessRefund, Of(PaymentType, p.paymentId), Some(p.amount),
               Some(Total(RefundsFor(p.paymentId), rs)),
               {Ref(PaymentType, p.paymentId)} + Cited(RefundsFor(p.paymentId), rs))
  }

  lemma RefundedBeyondAt(run: Run, st: ReportStates, rs: seq<FinancialRecord>, p: Payment, e: FinancialException)
    requires PaymentRecord(p) in rs && p.status == Captured
    ensures e in ExcessRefundRule(run, st, Split(rs))(p) && e.rule == RefundTotalWithinCapture <==>
      AllComplete(st, {Payments, Refunds}) && RefundedBeyond(run, rs, p, e)
  {
    var v := ViewCapture(Split(rs))(p);
    RefundsOfCapture(rs, p);
    ExcessForm(run, st, v, e);
    assert ExcessRefundRule(run, st, Split(rs))(p) == ExcessRefundExceptions(run, st, v);
  }

  lemma RefundedBeyondRaised(run: Run, rs: seq<FinancialRecord>, cs: seq<CompletenessResult>, e: FinancialException)
    requires e.rule == RefundTotalWithinCapture
    ensures Raises(run, rs, cs, e) <==>
      AllComplete(StatesFor(cs), {Payments, Refunds}) && exists p :: RefundedBeyond(run, rs, p, e)
  {
    PassOf(run, StatesFor(cs), Split(rs), e);
    forall p: Payment
      ensures p in CapturedPayments(Split(rs)) && Incremental.RaisesForPayment(run, StatesFor(cs), Split(rs), p, e) <==>
        AllComplete(StatesFor(cs), {Payments, Refunds}) && RefundedBeyond(run, rs, p, e)
    {
      CapturedSeen(rs, p);
      CaptureRules(run, StatesFor(cs), Split(rs), p, e);
      if PaymentRecord(p) in rs && p.status == Captured {
        RefundedBeyondAt(run, StatesFor(cs), rs, p, e);
      }
    }
  }

  lemma RefundedBeyondUnique(run: Run, rs: seq<FinancialRecord>, e: FinancialException, f: FinancialException)
    requires UniqueIdentities(rs) && (exists p :: RefundedBeyond(run, rs, p, e)) &&
      (exists q :: RefundedBeyond(run, rs, q, f))
    requires e.subject == f.subject
    ensures e == f
  {
    var p :| RefundedBeyond(run, rs, p, e);
    var q :| RefundedBeyond(run, rs, q, f);
    SamePayment(rs, p, q);
  }

  /** A capture whose successful refunds exceed it, and nothing else, is published with both amounts and every one of
      those refunds. */
  lemma RefundedBeyondPublished(run: Run, rs: seq<FinancialRecord>, conflicts: seq<Conflict>,
                                cs: seq<CompletenessResult>,
                        e: FinancialException)
    requires UniqueIdentities(rs) && ResultFor(run, rs, conflicts, cs).Success? && e.rule == RefundTotalWithinCapture
    ensures e in ResultFor(run, rs, conflicts, cs).value.exceptions <==>
      CompleteIn(cs, {Payments, Refunds}) && exists p :: RefundedBeyond(run, rs, p, e)
  {
    ResultRaw(run, rs, conflicts, cs);
    ReportsSeen(cs, {Payments, Refunds});
    RefundedBeyondRaised(run, rs, cs, e);
    forall f | Raises(run, rs, cs, e) && Raises(run, rs, cs, f) && ExceptionId(f) == ExceptionId(e)
      ensures f == e
    {
      RefundedBeyondRaised(run, rs, cs, f);
      RefundedBeyondUnique(run, rs, e, f);
    }
    RaisedIsPublished(run, rs, conflicts, cs, e);
  }

  ghost predicate WithoutFee(run: Run, rs: seq<FinancialRecord>, p: Payment, e: FinancialException) {
    PaymentRecord(p) in rs && p.status == Captured && NoFeeOf(rs, p.paymentId) &&
    e == Shown(run, FeeProcessingFeeExists, MissingFee, Of(PaymentType, p.paymentId), Some(FeeDue(p)), Some(0),
               {Ref(PaymentType, p.paymentId)})
  }

  lemma WithoutFeeAt(run: Run, st: ReportStates, rs: seq<FinancialRecord>, p: Payment, e: FinancialException)
    requires PaymentRecord(p) in rs && p.status == Captured && FeeCalculable(p)
    ensures e in FeeAmountRule(run, st, Split(rs))(p) && e.rule == FeeProcessingFeeExists <==>
      AllComplete(st, {Payments, Fees}) && WithoutFee(run, rs, p, e)
  {
    var v := ViewCapture(Split(rs))(p);
    FeesOfCapture(rs, p);
    MissingFeeInView(run, st, v, e);
    assert FeeAmountRule(run, st, Split(rs))(p) == FeeAmountExceptions(run, st, v);
  }

  lemma WithoutFeeRaised(run: Run, rs: seq<FinancialRecord>, cs: seq<CompletenessResult>, e: FinancialException)
    requires e.rule == FeeProcessingFeeExists && FeesCalculable(Split(rs))
    ensures Raises(run, rs, cs, e) <==>
      AllComplete(StatesFor(cs), {Payments, Fees}) && exists p :: WithoutFee(run, rs, p, e)
  {
    PassOf(run, StatesFor(cs), Split(rs), e);
    forall p: Payment
      ensures p in CapturedPayments(Split(rs)) && Incremental.RaisesForPayment(run, StatesFor(cs), Split(rs), p, e) <==>
        AllComplete(StatesFor(cs), {Payments, Fees}) && WithoutFee(run, rs, p, e)
    {
      CapturedSeen(rs, p);
      CaptureRules(run, StatesFor(cs), Split(rs), p, e);
      if PaymentRecord(p) in rs && p.status == Captured {
        WithoutFeeAt(run, StatesFor(cs), rs, p, e);
      }
    }
  }

  lemma WithoutFeeUnique(run: Run, rs: seq<FinancialRecord>, e: FinancialException, f: FinancialException)
    requires UniqueIdentities(rs) && (exists p :: WithoutFee(run, rs, p, e)) && (exists q :: WithoutFee(run, rs, q, f))
    requires e.subject == f.subject
    ensures e == f
  {
    var p :| WithoutFee(run, rs, p, e);
    var q :| WithoutFee(run, rs, q, f);
    SamePayment(rs, p, q);
  }

  /** A capture without any reported fee, and nothing else, is published as missing its scheduled fee. */
  lemma WithoutFeePublished(run: Run, rs: seq<FinancialRecord>, conflicts: seq<Conflict>, cs: seq<CompletenessResult>,
                        e: FinancialException)
    requires UniqueIdentities(rs) && ResultFor(run, rs, conflicts, cs).Success? && e.rule == FeeProcessingFeeExists
    ensures e in ResultFor(run, rs, conflicts, cs).value.exceptions <==>
      CompleteIn(cs, {Payments, Fees}) && exists p :: WithoutFee(run, rs, p, e)
  {
    ResultRaw(run, rs, conflicts, cs);
    ReportsSeen(cs, {Payments, Fees});
    WithoutFeeRaised(run, rs, cs, e);
    forall f | Raises(run, rs, cs, e) && Raises(run, rs, cs, f) && ExceptionId(f) == ExceptionId(e)
      ensures f == e
    {
      WithoutFeeRaised(run, rs, cs, f);
      WithoutFeeUnique(run, rs, e, f);
    }
    RaisedIsPublished(run, rs, conflicts, cs, e);
  }

  ghost predicate FeesDiffer(run: Run, rs: seq<FinancialRecord>, p: Payment, e: FinancialException) {
    PaymentRecord(p) in rs && p.status == Captured && !NoFeeOf(rs, p.paymentId) &&
    Total(FeesFor(p.paymentId), rs) != FeeDue(p) &&
    e == Shown(run, FeeAmountMatchesSchedule, FeeMismatch, Of(PaymentType, p.paymentId), Some(FeeDue(p)),
               Some(Total(FeesFor(p.paymentId), rs)),
               {Ref(PaymentType, p.paymentId)} + Cited(FeesFor(p.paymentId), rs))
  }

  lemma FeesDifferForm(run: Run, st: ReportStates, v: CaptureView, e: FinancialException)
    ensures e in FeeAmountExceptions(run, st, v) && e.rule == FeeAmountMatchesSchedule <==>
      AllComplete(st, {Payments, Fees}) && v.fees != [] && CaptureReportedFee(v) != CaptureExpectedFee(v) &&
      e == Shown(run, FeeAmountMatchesSchedule, FeeMismatch, Of(PaymentType, v.payment.paymentId),
                 Some(CaptureExpectedFee(v)), Some(CaptureReportedFee(v)),
                 {Ref(PaymentType, v.payment.paymentId)} + set f | f in v.fees :: FeeRef(f))
  {
  }

  lemma FeesDifferAt(run: Run, st: ReportStates, rs: seq<FinancialRecord>, p: Payment, e: FinancialException)
    requires PaymentRecord(p) in rs && p.status == Captured && FeeCalculable(p)
    ensures e in FeeAmountRule(run, st, Split(rs))(p) && e.rule == FeeAmountMatchesSchedule <==>
      AllComplete(st, {Payments, Fees}) && FeesDiffer(run, rs, p, e)
  {
    var v := ViewCapture(Split(rs))(p);
    FeesOfCapture(rs, p);
    assert FeeAmountRule(run, st, Split(rs))(p) == FeeAmountExceptions(run, st, v);
    FeesDifferForm(run, st, v, e);
  }

  lemma FeesDifferRaised(run: Run, rs: seq<FinancialRecord>, cs: seq<CompletenessResult>, e: FinancialException)
    requires e.rule == FeeAmountMatchesSchedule && FeesCalculable(Split(rs))
    ensures Raises(run, rs, cs, e) <==>
      AllComplete(StatesFor(cs), {Payments, Fees}) && exists p :: FeesDiffer(run, rs, p, e)
  {
    PassOf(run, StatesFor(cs), Split(rs), e);
    forall p: Payment
      ensures p in CapturedPayments(Split(rs)) && Incremental.RaisesForPayment(run, StatesFor(cs), Split(rs), p, e) <==>
        AllComplete(StatesFor(cs), {Payments, Fees}) && FeesDiffer(run, rs, p, e)
    {
      CapturedSeen(rs, p);
      CaptureRules(run, StatesFor(cs), Split(rs), p, e);
      if PaymentRecord(p) in rs && p.status == Captured {
        FeesDifferAt(run, StatesFor(cs), rs, p, e);
      }
    }
  }

  lemma FeesDifferUnique(run: Run, rs: seq<FinancialRecord>, e: FinancialException, f: FinancialException)
    requires UniqueIdentities(rs) && (exists p :: FeesDiffer(run, rs, p, e)) && (exists q :: FeesDiffer(run, rs, q, f))
    requires e.subject == f.subject
    ensures e == f
  {
    var p :| FeesDiffer(run, rs, p, e);
    var q :| FeesDiffer(run, rs, q, f);
    SamePayment(rs, p, q);
  }

  /** A capture with reported fees that do not add up to the scheduled fee, and nothing else, is published with both
      amounts and every one of those fees. */
  lemma FeesDifferPublished(run: Run, rs: seq<FinancialRecord>, conflicts: seq<Conflict>, cs: seq<CompletenessResult>,
                        e: FinancialException)
    requires UniqueIdentities(rs) && ResultFor(run, rs, conflicts, cs).Success? && e.rule == FeeAmountMatchesSchedule
    ensures e in ResultFor(run, rs, conflicts, cs).value.exceptions <==>
      CompleteIn(cs, {Payments, Fees}) && exists p :: FeesDiffer(run, rs, p, e)
  {
    ResultRaw(run, rs, conflicts, cs);
    ReportsSeen(cs, {Payments, Fees});
    FeesDifferRaised(run, rs, cs, e);
    forall f | Raises(run, rs, cs, e) && Raises(run, rs, cs, f) && ExceptionId(f) == ExceptionId(e)
      ensures f == e
    {
      FeesDifferRaised(run, rs, cs, f);
      FeesDifferUnique(run, rs, e, f);
    }
    RaisedIsPublished(run, rs, conflicts, cs, e);
  }

  // ---- Exceptions about refunds and fees ----

  ghost predicate NoCapturedPayment(rs: seq<FinancialRecord>, id: string) {
    forall p :: PaymentRecord(p) in rs && p.paymentId == id ==> p.status != Captured
  }

  ghost predicate RefundOrphan(run: Run, rs: seq<FinancialRecord>, f: Refund, e: FinancialException) {
    RefundRecord(f) in rs && f.status == Succeeded && NoCapturedPayment(rs, f.paymentId) &&
    e == Shown(run, RefundCapturedPaymentExists, OrphanRefund, Of(RefundType, f.refundId), None, Some(f.amount),
               {Ref(RefundType, f.refundId)})
  }

  /** What the two refund rules say of one refund and the payment it names. */
  lemma RefundLinkForm(run: Run, st: ReportStates, v: RefundView, e: FinancialException)
    ensures e in RefundLinkExceptions(run, st, v) && e.rule == RefundCapturedPaymentExists <==>
      AllComplete(st, {Payments, Refunds}) && (v.payment.None? || v.payment.value.status != Captured) &&
      e == Shown(run, RefundCapturedPaymentExists, OrphanRefund, Of(RefundType, v.refund.refundId), None,
                 Some(v.refund.amount), {Ref(RefundType, v.refund.refundId)})
    ensures e in RefundLinkExceptions(run, st, v) && e.rule == RefundCurrencyMatchesPayment <==>
      AllComplete(st, {Payments, Refunds}) && v.payment.Some? && v.payment.value.status == Captured &&
      v.refund.currency != v.payment.value.currency &&
      e == Shown(run, RefundCurrencyMatchesPayment, RefundCurrencyMismatch, Of(RefundType, v.refund.refundId), None,
                 None, {Ref(PaymentType, v.payment.value.paymentId), Ref(RefundType, v.refund.refundId)})
  {
  }

  lemma RefundOrphanAt(run: Run, st: ReportStates, rs: seq<FinancialRecord>, f: Refund, e: FinancialException)
    requires UniqueIdentities(rs) && RefundRecord(f) in rs && f.status == Succeeded
    ensures e in RefundLinkRule(run, st, Split(rs))(f) && e.rule == RefundCapturedPaymentExists <==>
      AllComplete(st, {Payments, Refunds}) && RefundOrphan(run, rs, f, e)
  {
    PaymentSeen(rs, f.paymentId);
    var v := ViewRefund(Split(rs))(f);
    assert v == RefundView(f, Lookup(PaymentId, Split(rs).payments, f.paymentId));
    assert RefundLinkRule(run, st, Split(rs))(f) == RefundLinkExceptions(run, st, v);
    RefundLinkForm(run, st, v, e);
  }

  lemma RefundOrphanRaised(run: Run, rs: seq<FinancialRecord>, cs: seq<CompletenessResult>, e: FinancialException)
    requires UniqueIdentities(rs) && e.rule == RefundCapturedPaymentExists
    ensures Raises(run, rs, cs, e) <==>
      AllComplete(StatesFor(cs), {Payments, Refunds}) && exists f :: RefundOrphan(run, rs, f, e)
  {
    PassOf(run, StatesFor(cs), Split(rs), e);
    forall f: Refund
      ensures f in SuccessfulRefunds(Split(rs)) && e in RefundLinkRule(run, StatesFor(cs), Split(rs))(f) <==>
        AllComplete(StatesFor(cs), {Payments, Refunds}) && RefundOrphan(run, rs, f, e)
    {
      SucceededSeen(rs, f);
      if RefundRecord(f) in rs && f.status == Succeeded {
        RefundOrphanAt(run, StatesFor(cs), rs, f, e);
      }
    }
  }

  lemma RefundOrphanUnique(run: Run, rs: seq<FinancialRecord>, e: FinancialException, g: FinancialException)
    requires UniqueIdentities(rs) && (exists f :: RefundOrphan(run, rs, f, e)) &&
      (exists f :: RefundOrphan(run, rs, f, g))
    requires e.subject == g.subject
    ensures e == g
  {
    var x :| RefundOrphan(run, rs, x, e);
    var y :| RefundOrphan(run, rs, y, g);
    SameRefund(rs, x, y);
  }

  /** A successful refund without a captured payment, and nothing else, is published as an orphan for its amount. */
  lemma RefundOrphanPublished(run: Run, rs: seq<FinancialRecord>, conflicts: seq<Conflict>, cs: seq<CompletenessResult>,
                        e: FinancialException)
    requires UniqueIdentities(rs) && ResultFor(run, rs, conflicts, cs).Success? && e.rule == RefundCapturedPaymentExists
    ensures e in ResultFor(run, rs, conflicts, cs).value.exceptions <==>
      CompleteIn(cs, {Payments, Refunds}) && exists f :: RefundOrphan(run, rs, f, e)
  {
    ResultRaw(run, rs, conflicts, cs);
    ReportsSeen(cs, {Payments, Refunds});
    RefundOrphanRaised(run, rs, cs, e);
    forall g | Raises(run, rs, cs, e) && Raises(run, rs, cs, g) && ExceptionId(g) == ExceptionId(e)
      ensures g == e
    {
      RefundOrphanRaised(run, rs, cs, g);
      RefundOrphanUnique(run, rs, e, g);
    }
    RaisedIsPublished(run, rs, conflicts, cs, e);
  }

  ghost predicate RefundInOtherCurrency(run: Run, rs: seq<FinancialRecord>, f: Refund, e: FinancialException) {
    RefundRecord(f) in rs && f.status == Succeeded &&
    (exists p ::
     PaymentRecord(p) in rs && p.paymentId == f.paymentId && p.status == Captured && p.currency != f.currency) &&
    e == Shown(run, RefundCurrencyMatchesPayment, RefundCurrencyMismatch, Of(RefundType, f.refundId), None, None,
               {Ref(PaymentType, f.paymentId), Ref(RefundType, f.refundId)})
  }

  lemma RefundInOtherCurrencyAt(run: Run, st: ReportStates, rs: seq<FinancialRecord>, f: Refund, e: FinancialException)
    requires UniqueIdentities(rs) && RefundRecord(f) in rs && f.status == Succeeded
    ensures e in RefundLinkRule(run, st, Split(rs))(f) && e.rule == RefundCurrencyMatchesPayment <==>
      AllComplete(st, {Payments, Refunds}) && RefundInOtherCurrency(run, rs, f, e)
  {
    PaymentSeen(rs, f.paymentId);
    var v := ViewRefund(Split(rs))(f);
    assert v == RefundView(f, Lookup(PaymentId, Split(rs).payments, f.paymentId));
    assert RefundLinkRule(run, st, Split(rs))(f) == RefundLinkExceptions(run, st, v);
    RefundLinkForm(run, st, v, e);
  }

  lemma RefundInOtherCurrencyRaised(run: Run, rs: seq<FinancialRecord>, cs: seq<CompletenessResult>,
                                    e: FinancialException)
    requires UniqueIdentities(rs) && e.rule == RefundCurrencyMatchesPayment
    ensures Raises(run, rs, cs, e) <==>
      AllComplete(StatesFor(cs), {Payments, Refunds}) && exists f :: RefundInOtherCurrency(run, rs, f, e)
  {
    PassOf(run, StatesFor(cs), Split(rs), e);
    forall f: Refund
      ensures f in SuccessfulRefunds(Split(rs)) && e in RefundLinkRule(run, StatesFor(cs), Split(rs))(f) <==>
        AllComplete(StatesFor(cs), {Payments, Refunds}) && RefundInOtherCurrency(run, rs, f, e)
    {
      SucceededSeen(rs, f);
      if RefundRecord(f) in rs && f.status == Succeeded {
        RefundInOtherCurrencyAt(run, StatesFor(cs), rs, f, e);
      }
    }
  }

  lemma RefundInOtherCurrencyUnique(run: Run, rs: seq<FinancialRecord>, e: FinancialException, g: FinancialException)
    requires UniqueIdentities(rs) && (exists f :: RefundInOtherCurrency(run, rs, f, e)) &&
      (exists f :: RefundInOtherCurrency(run, rs, f, g))
    requires e.subject == g.subject
    ensures e == g
  {
    var x :| RefundInOtherCurrency(run, rs, x, e);
    var y :| RefundInOtherCurrency(run, rs, y, g);
    SameRefund(rs, x, y);
  }

  /** A successful refund of a captured payment in another currency, and nothing else, is published with both records as
      evidence and no amounts. */
  lemma RefundInOtherCurrencyPublished(run: Run, rs: seq<FinancialRecord>, conflicts: seq<Conflict>,
                                       cs: seq<CompletenessResult>,
                        e: FinancialException)
    requires UniqueIdentities(rs) && ResultFor(run, rs, conflicts, cs).Success? &&
      e.rule == RefundCurrencyMatchesPayment
    ensures e in ResultFor(run, rs, conflicts, cs).value.exceptions <==>
      CompleteIn(cs, {Payments, Refunds}) && exists f :: RefundInOtherCurrency(run, rs, f, e)
  {
    ResultRaw(run, rs, conflicts, cs);
    ReportsSeen(cs, {Payments, Refunds});
    RefundInOtherCurrencyRaised(run, rs, cs, e);
    forall g | Raises(run, rs, cs, e) && Raises(run, rs, cs, g) && ExceptionId(g) == ExceptionId(e)
      ensures g == e
    {
      RefundInOtherCurrencyRaised(run, rs, cs, g);
      RefundInOtherCurrencyUnique(run, rs, e, g);
    }
    RaisedIsPublished(run, rs, conflicts, cs, e);
  }

  ghost predicate FeeWithoutCapture(run: Run, rs: seq<FinancialRecord>, f: Fee, e: FinancialException) {
    FeeRecord(f) in rs && NoCapturedPayment(rs, f.paymentId) &&
    e == Shown(run, FeeBelongsToCapture, UnexpectedFee, Of(FeeType, f.feeId), Some(0), Some(f.amount),
               {Ref(FeeType, f.feeId)})
  }

  lemma FeeLinkForm(run: Run, st: ReportStates, v: FeeView, e: FinancialException)
    ensures e in FeeLinkExceptions(run, st, v) <==>
      AllComplete(st, {Payments, Fees}) && (v.payment.None? || v.payment.value.status != Captured) &&
      e == Shown(run, FeeBelongsToCapture, UnexpectedFee, Of(FeeType, v.fee.feeId), Some(0), Some(v.fee.amount),
                 {Ref(FeeType, v.fee.feeId)})
  {
  }

  lemma FeeWithoutCaptureAt(run: Run, st: ReportStates, rs: seq<FinancialRecord>, f: Fee, e: FinancialException)
    requires UniqueIdentities(rs) && FeeRecord(f) in rs
    ensures e in FeeLinkRule(run, st, Split(rs))(f) && e.rule == FeeBelongsToCapture <==>
      AllComplete(st, {Payments, Fees}) && FeeWithoutCapture(run, rs, f, e)
  {
    PaymentSeen(rs, f.paymentId);
    var v := ViewFee(Split(rs))(f);
    assert v == FeeView(f, Lookup(PaymentId, Split(rs).payments, f.paymentId));
    assert FeeLinkRule(run, st, Split(rs))(f) == FeeLinkExceptions(run, st, v);
    FeeLinkForm(run, st, v, e);
  }

  lemma FeeWithoutCaptureRaised(run: Run, rs: seq<FinancialRecord>, cs: seq<CompletenessResult>, e: FinancialException)
    requires UniqueIdentities(rs) && e.rule == FeeBelongsToCapture
    ensures Raises(run, rs, cs, e) <==>
      AllComplete(StatesFor(cs), {Payments, Fees}) && exists f :: FeeWithoutCapture(run, rs, f, e)
  {
    PassOf(run, StatesFor(cs), Split(rs), e);
    forall f: Fee
      ensures f in Split(rs).fees && e in FeeLinkRule(run, StatesFor(cs), Split(rs))(f) <==>
        AllComplete(StatesFor(cs), {Payments, Fees}) && FeeWithoutCapture(run, rs, f, e)
    {
      FeeWithoutCaptureFor(run, StatesFor(cs), rs, f, e);
    }
  }

  lemma FeeWithoutCaptureFor(run: Run, st: ReportStates, rs: seq<FinancialRecord>, f: Fee, e: FinancialException)
    requires UniqueIdentities(rs) && e.rule == FeeBelongsToCapture
    ensures f in Split(rs).fees && e in FeeLinkRule(run, st, Split(rs))(f) <==>
      AllComplete(st, {Payments, Fees}) && FeeWithoutCapture(run, rs, f, e)
  {
    SplitContains(rs, FeeRecord(f));
    if FeeRecord(f) in rs {
      FeeWithoutCaptureAt(run, st, rs, f, e);
    }
  }

  lemma FeeWithoutCaptureUnique(run: Run, rs: seq<FinancialRecord>, e: FinancialException, g: FinancialException)
    requires UniqueIdentities(rs) && (exists f :: FeeWithoutCapture(run, rs, f, e)) &&
      (exists f :: FeeWithoutCapture(run, rs, f, g))
    requires e.subject == g.subject
    ensures e == g
  {
    var x :| FeeWithoutCapture(run, rs, x, e);
    var y :| FeeWithoutCapture(run, rs, y, g);
    SameFee(rs, x, y);
  }

  /** A reported fee without a captured payment, and nothing else, is published as unexpected, for its amount against
      zero. */
  lemma FeeWithoutCapturePublished(run: Run, rs: seq<FinancialRecord>, conflicts: seq<Conflict>,
                                   cs: seq<CompletenessResult>,
                        e: FinancialException)
    requires UniqueIdentities(rs) && ResultFor(run, rs, conflicts, cs).Success? && e.rule == FeeBelongsToCapture
    ensures e in ResultFor(run, rs, conflicts, cs).value.exceptions <==>
      CompleteIn(cs, {Payments, Fees}) && exists f :: FeeWithoutCapture(run, rs, f, e)
  {
    ResultRaw(run, rs, conflicts, cs);
    ReportsSeen(cs, {Payments, Fees});
    FeeWithoutCaptureRaised(run, rs, cs, e);
    forall g | Raises(run, rs, cs, e) && Raises(run, rs, cs, g) && ExceptionId(g) == ExceptionId(e)
      ensures g == e
    {
      FeeWithoutCaptureRaised(run, rs, cs, g);
      FeeWithoutCaptureUnique(run, rs, e, g);
    }
    RaisedIsPublished(run, rs, conflicts, cs, e);
  }

  // ---- Exceptions about orders ----

  ghost predicate NoCaptureOf(rs: seq<FinancialRecord>, orderId: string) {
    forall p :: PaymentRecord(p) in rs && p.status == Captured ==> p.orderId != orderId
  }

  lemma CaptureRefsSeen(rs: seq<FinancialRecord>, orderId: string)
    ensures (set p | p in CapturesOf(Split(rs), orderId) :: PaymentRef(p)) == Cited(CapturesFor(orderId), rs)
  {
    CapturesSeen(rs, orderId);
    var shown := set p | p in CapturesOf(Split(rs), orderId) :: PaymentRef(p);
    forall x | x in Cited(CapturesFor(orderId), rs)
      ensures x in shown
    {
      var r :| r in rs && CapturesFor(orderId)(r) && x == RecordReference(KeyOf(r));
      assert r == PaymentRecord(r.payment) && r.payment in CapturesOf(Split(rs), orderId) && x == PaymentRef(r.payment);
    }
    forall x | x in shown
      ensures x in Cited(CapturesFor(orderId), rs)
    {
      var p :| p in CapturesOf(Split(rs), orderId) && x == PaymentRef(p);
      assert CapturesFor(orderId)(PaymentRecord(p)) && x == RecordReference(KeyOf(PaymentRecord(p)));
    }
  }

  lemma ViewedRefs(rs: seq<FinancialRecord>, o: Order)
    ensures CaptureRefs(ViewOrder(Split(rs))(o)) == {Ref(OrderType, o.orderId)} + Cited(CapturesFor(o.orderId), rs)
  {
    CaptureRefsSeen(rs, o.orderId);
    var ps, v := CapturesOf(Split(rs), o.orderId), ViewOrder(Split(rs))(o);
    assert v.order == o && v.captures == Map(ViewCapture(Split(rs)), ps);
    var viewed, cited := set c | c in v.captures :: PaymentRef(c.payment), set p | p in ps :: PaymentRef(p);
    forall x | x in viewed
      ensures x in cited
    {
      var c :| c in v.captures && x == PaymentRef(c.payment);
      MapMember(ViewCapture(Split(rs)), ps, c);
      var p :| p in ps && ViewCapture(Split(rs))(p) == c;
      assert c.payment == p;
    }
    forall x | x in cited
      ensures x in viewed
    {
      var p :| p in ps && x == PaymentRef(p);
      var c := ViewCapture(Split(rs))(p);
      MapMember(ViewCapture(Split(rs)), ps, c);
      assert c in v.captures && c.payment == p;
    }
    assert viewed == cited;
  }

  lemma OrderInView(rs: seq<FinancialRecord>, o: Order)
    ensures var v := ViewOrder(Split(rs))(o);
      v.order == o && (v.captures == [] <==> NoCaptureOf(rs, o.orderId)) &&
      |v.captures| == Count(CapturesFor(o.orderId), rs) && CapturedTotal(v) == Total(CapturesFor(o.orderId), rs) &&
      CaptureRefs(v) == {Ref(OrderType, o.orderId)} + Cited(CapturesFor(o.orderId), rs)
  {
    CapturesSeen(rs, o.orderId);
    Marks.CapturedTotalIsSum(Split(rs), o);
    ViewedRefs(rs, o);
    var ps := CapturesOf(Split(rs), o.orderId);
    assert ps != [] ==> ps[0] in ps;
  }

  lemma MissingPaymentInView(run: Run, st: ReportStates, v: OrderView, e: FinancialException)
    ensures e in OrderExceptions(run, st, v) && e.rule == OrderPaymentExists <==>
      v.order.status == Paid && AllComplete(st, {Orders, Payments}) && v.captures == [] &&
      e == Shown(run, OrderPaymentExists, MissingPayment, Of(OrderType, v.order.orderId), Some(v.order.orderTotal),
                 Some(0),
                 {OrderRef(v.order)})
  {
  }

  lemma WrongTotalInView(run: Run, st: ReportStates, v: OrderView, e: FinancialException)
    ensures e in OrderExceptions(run, st, v) && e.rule == OrderCollectionMatchesTotal <==>
      v.order.status == Paid && AllComplete(st, {Orders, Payments}) && v.captures != [] &&
      CapturedTotal(v) != v.order.orderTotal &&
      e == Shown(run, OrderCollectionMatchesTotal, PaymentAmountMismatch, Of(OrderType, v.order.orderId),
                 Some(v.order.orderTotal), Some(CapturedTotal(v)), CaptureRefs(v))
  {
  }

  lemma SeveralInView(run: Run, st: ReportStates, v: OrderView, e: FinancialException)
    ensures e in OrderExceptions(run, st, v) && e.rule == OrderMaximumOneCapture <==>
      v.order.status == Paid && AllComplete(st, {Orders, Payments}) && |v.captures| > 1 &&
      e == Shown(run, OrderMaximumOneCapture, MultipleCapture, Of(OrderType, v.order.orderId), Some(100),
                 Some(100 * |v.captures|), CaptureRefs(v))
  {
  }

  ghost predicate PaidWithoutCapture(run: Run, rs: seq<FinancialRecord>, o: Order, e: FinancialException) {
    OrderRecord(o) in rs && o.status == Paid && NoCaptureOf(rs, o.orderId) &&
    e == Shown(run, OrderPaymentExists, MissingPayment, Of(OrderType, o.orderId), Some(o.orderTotal), Some(0),
               {Ref(OrderType, o.orderId)})
  }

  lemma PaidWithoutCaptureAt(run: Run, st: ReportStates, rs: seq<FinancialRecord>, o: Order, e: FinancialException)
    requires UniqueIdentities(rs) && OrderRecord(o) in rs
    ensures e in OrderRule(run, st, Split(rs))(o) && e.rule == OrderPaymentExists <==>
      AllComplete(st, {Orders, Payments}) && PaidWithoutCapture(run, rs, o, e)
  {
    var v := ViewOrder(Split(rs))(o);
    OrderInView(rs, o);
    MissingPaymentInView(run, st, v, e);
    assert OrderRule(run, st, Split(rs))(o) == OrderExceptions(run, st, v);
  }

  lemma PaidWithoutCaptureRaised(run: Run, rs: seq<FinancialRecord>, cs: seq<CompletenessResult>, e: FinancialException)
    requires UniqueIdentities(rs) && e.rule == OrderPaymentExists
    ensures Raises(run, rs, cs, e) <==>
      AllComplete(StatesFor(cs), {Orders, Payments}) && exists o :: PaidWithoutCapture(run, rs, o, e)
  {
    PassOf(run, StatesFor(cs), Split(rs), e);
    forall o: Order
      ensures o in Split(rs).orders && e in OrderRule(run, StatesFor(cs), Split(rs))(o) <==>
        AllComplete(StatesFor(cs), {Orders, Payments}) && PaidWithoutCapture(run, rs, o, e)
    {
      SplitContains(rs, OrderRecord(o));
      if OrderRecord(o) in rs {
        PaidWithoutCaptureAt(run, StatesFor(cs), rs, o, e);
      }
    }
  }

  lemma PaidWithoutCaptureUnique(run: Run, rs: seq<FinancialRecord>, e: FinancialException, g: FinancialException)
    requires UniqueIdentities(rs) && (exists o :: PaidWithoutCapture(run, rs, o, e)) &&
      (exists o :: PaidWithoutCapture(run, rs, o, g))
    requires e.subject == g.subject
    ensures e == g
  {
    var x :| PaidWithoutCapture(run, rs, x, e);
    var y :| PaidWithoutCapture(run, rs, y, g);
    SameOrder(rs, x, y);
  }

  /** A PAID order without a captured payment, and nothing else, is published as missing its total. */
  lemma PaidWithoutCapturePublished(run: Run, rs: seq<FinancialRecord>, conflicts: seq<Conflict>,
                                    cs: seq<CompletenessResult>,
                        e: FinancialException)
    requires UniqueIdentities(rs) && ResultFor(run, rs, conflicts, cs).Success? && e.rule == OrderPaymentExists
    ensures e in ResultFor(run, rs, conflicts, cs).value.exceptions <==>
      CompleteIn(cs, {Orders, Payments}) && exists o :: PaidWithoutCapture(run, rs, o, e)
  {
    ResultRaw(run, rs, conflicts, cs);
    ReportsSeen(cs, {Orders, Payments});
    PaidWithoutCaptureRaised(run, rs, cs, e);
    forall g | Raises(run, rs, cs, e) && Raises(run, rs, cs, g) && ExceptionId(g) == ExceptionId(e)
      ensures g == e
    {
      PaidWithoutCaptureRaised(run, rs, cs, g);
      PaidWithoutCaptureUnique(run, rs, e, g);
    }
    RaisedIsPublished(run, rs, conflicts, cs, e);
  }

  ghost predicate PaidWrongTotal(run: Run, rs: seq<FinancialRecord>, o: Order, e: FinancialException) {
    OrderRecord(o) in rs && o.status == Paid && !NoCaptureOf(rs, o.orderId) &&
    Total(CapturesFor(o.orderId), rs) != o.orderTotal &&
    e == Shown(run, OrderCollectionMatchesTotal, PaymentAmountMismatch, Of(OrderType, o.orderId), Some(o.orderTotal),
               Some(Total(CapturesFor(o.orderId), rs)),
               {Ref(OrderType, o.orderId)} + Cited(CapturesFor(o.orderId), rs))
  }

  lemma PaidWrongTotalAt(run: Run, st: ReportStates, rs: seq<FinancialRecord>, o: Order, e: FinancialException)
    requires UniqueIdentities(rs) && OrderRecord(o) in rs
    ensures e in OrderRule(run, st, Split(rs))(o) && e.rule == OrderCollectionMatchesTotal <==>
      AllComplete(st, {Orders, Payments}) && PaidWrongTotal(run, rs, o, e)
  {
    var v := ViewOrder(Split(rs))(o);
    OrderInView(rs, o);
    WrongTotalInView(run, st, v, e);
    assert OrderRule(run, st, Split(rs))(o) == OrderExceptions(run, st, v);
  }

  lemma PaidWrongTotalRaised(run: Run, rs: seq<FinancialRecord>, cs: seq<CompletenessResult>, e: FinancialException)
    requires UniqueIdentities(rs) && e.rule == OrderCollectionMatchesTotal
    ensures Raises(run, rs, cs, e) <==>
      AllComplete(StatesFor(cs), {Orders, Payments}) && exists o :: PaidWrongTotal(run, rs, o, e)
  {
    PassOf(run, StatesFor(cs), Split(rs), e);
    forall o: Order
      ensures o in Split(rs).orders && e in OrderRule(run, StatesFor(cs), Split(rs))(o) <==>
        AllComplete(StatesFor(cs), {Orders, Payments}) && PaidWrongTotal(run, rs, o, e)
    {
      SplitContains(rs, OrderRecord(o));
      if OrderRecord(o) in rs {
        PaidWrongTotalAt(run, StatesFor(cs), rs, o, e);
      }
    }
  }

  lemma PaidWrongTotalUnique(run: Run, rs: seq<FinancialRecord>, e: FinancialException, g: FinancialException)
    requires UniqueIdentities(rs) && (exists o :: PaidWrongTotal(run, rs, o, e)) &&
      (exists o :: PaidWrongTotal(run, rs, o, g))
    requires e.subject == g.subject
    ensures e == g
  {
    var x :| PaidWrongTotal(run, rs, x, e);
    var y :| PaidWrongTotal(run, rs, y, g);
    SameOrder(rs, x, y);
  }

  /** A PAID order whose captured payments do not add up to its total, and nothing else, is published with both amounts
      and every one of those payments. */
  lemma PaidWrongTotalPublished(run: Run, rs: seq<FinancialRecord>, conflicts: seq<Conflict>,
                                cs: seq<CompletenessResult>,
                        e: FinancialException)
    requires UniqueIdentities(rs) && ResultFor(run, rs, conflicts, cs).Success? && e.rule == OrderCollectionMatchesTotal
    ensures e in ResultFor(run, rs, conflicts, cs).value.exceptions <==>
      CompleteIn(cs, {Orders, Payments}) && exists o :: PaidWrongTotal(run, rs, o, e)
  {
    ResultRaw(run, rs, conflicts, cs);
    ReportsSeen(cs, {Orders, Payments});
    PaidWrongTotalRaised(run, rs, cs, e);
    forall g | Raises(run, rs, cs, e) && Raises(run, rs, cs, g) && ExceptionId(g) == ExceptionId(e)
      ensures g == e
    {
      PaidWrongTotalRaised(run, rs, cs, g);
      PaidWrongTotalUnique(run, rs, e, g);
    }
    RaisedIsPublished(run, rs, conflicts, cs, e);
  }

  ghost predicate PaidSeveralTimes(run: Run, rs: seq<FinancialRecord>, o: Order, e: FinancialException) {
    OrderRecord(o) in rs && o.status == Paid && Count(CapturesFor(o.orderId), rs) > 1 &&
    e == Shown(run, OrderMaximumOneCapture, MultipleCapture, Of(OrderType, o.orderId), Some(100),
               Some(100 * Count(CapturesFor(o.orderId), rs)),
               {Ref(OrderType, o.orderId)} + Cited(CapturesFor(o.orderId), rs))
  }

  lemma PaidSeveralTimesAt(run: Run, st: ReportStates, rs: seq<FinancialRecord>, o: Order, e: FinancialException)
    requires UniqueIdentities(rs) && OrderRecord(o) in rs
    ensures e in OrderRule(run, st, Split(rs))(o) && e.rule == OrderMaximumOneCapture <==>
      AllComplete(st, {Orders, Payments}) && PaidSeveralTimes(run, rs, o, e)
  {
    var v := ViewOrder(Split(rs))(o);
    OrderInView(rs, o);
    SeveralInView(run, st, v, e);
    assert OrderRule(run, st, Split(rs))(o) == OrderExceptions(run, st, v);
  }

  lemma PaidSeveralTimesRaised(run: Run, rs: seq<FinancialRecord>, cs: seq<CompletenessResult>, e: FinancialException)
    requires UniqueIdentities(rs) && e.rule == OrderMaximumOneCapture
    ensures Raises(run, rs, cs, e) <==>
      AllComplete(StatesFor(cs), {Orders, Payments}) && exists o :: PaidSeveralTimes(run, rs, o, e)
  {
    PassOf(run, StatesFor(cs), Split(rs), e);
    forall o: Order
      ensures o in Split(rs).orders && e in OrderRule(run, StatesFor(cs), Split(rs))(o) <==>
        AllComplete(StatesFor(cs), {Orders, Payments}) && PaidSeveralTimes(run, rs, o, e)
    {
      SplitContains(rs, OrderRecord(o));
      if OrderRecord(o) in rs {
        PaidSeveralTimesAt(run, StatesFor(cs), rs, o, e);
      }
    }
  }

  lemma PaidSeveralTimesUnique(run: Run, rs: seq<FinancialRecord>, e: FinancialException, g: FinancialException)
    requires UniqueIdentities(rs) && (exists o :: PaidSeveralTimes(run, rs, o, e)) &&
      (exists o :: PaidSeveralTimes(run, rs, o, g))
    requires e.subject == g.subject
    ensures e == g
  {
    var x :| PaidSeveralTimes(run, rs, x, e);
    var y :| PaidSeveralTimes(run, rs, y, g);
    SameOrder(rs, x, y);
  }

  /** A PAID order with more than one captured payment, and nothing else, is published with their number against 1.00
      and every one of them. */
  lemma PaidSeveralTimesPublished(run: Run, rs: seq<FinancialRecord>, conflicts: seq<Conflict>,
                                  cs: seq<CompletenessResult>,
                        e: FinancialException)
    requires UniqueIdentities(rs) && ResultFor(run, rs, conflicts, cs).Success? && e.rule == OrderMaximumOneCapture
    ensures e in ResultFor(run, rs, conflicts, cs).value.exceptions <==>
      CompleteIn(cs, {Orders, Payments}) && exists o :: PaidSeveralTimes(run, rs, o, e)
  {
    ResultRaw(run, rs, conflicts, cs);
    ReportsSeen(cs, {Orders, Payments});
    PaidSeveralTimesRaised(run, rs, cs, e);
    forall g | Raises(run, rs, cs, e) && Raises(run, rs, cs, g) && ExceptionId(g) == ExceptionId(e)
      ensures g == e
    {
      PaidSeveralTimesRaised(run, rs, cs, g);
      PaidSeveralTimesUnique(run, rs, e, g);
    }
    RaisedIsPublished(run, rs, conflicts, cs, e);
  }

  // ---- Exceptions about settlement lines ----

  lemma LineRefsSeen(rs: seq<FinancialRecord>, kind: MovementType, id: string)
    ensures (set l | l in LinesCarrying(Split(rs), MovementRef(kind, id)) :: LineRef(l))
      == Cited(LinesNaming(kind, id), rs)
  {
    NamingSeen(rs, kind, id);
    SameLineRefs(rs, LinesCarrying(Split(rs), MovementRef(kind, id)), LinesNaming(kind, id));
  }

  lemma SomeAllocated(run: Run, st: ReportStates, recs: Records, e: FinancialException)
    requires e.rule == SettlementUniqueMovementAllocation
    ensures RaisedForMovement(run, st, recs, e) <==> exists k :: e in AllocationRule(run, st, recs)(k)
  {
    forall k | e in AllocationRule(run, st, recs)(k)
      ensures RaisedForMovement(run, st, recs, e)
    {
      Incremental.AllocationExamined(run, st, recs, k, e);
      FlatMapMember(AllocationRule(run, st, recs), AllocatedMovements(recs), e);
    }
  }

  ghost predicate SharedMovement(run: Run, rs: seq<FinancialRecord>, k: MovementRef, e: FinancialException) {
    Count(LinesNaming(k.kind, k.id), rs) > 1 &&
    e == Shown(run, SettlementUniqueMovementAllocation, DuplicateSettlementMovement,
               SettlementMovementSubject(k.kind, k.id), None, Some(100 * Count(LinesNaming(k.kind, k.id), rs)),
               Cited(LinesNaming(k.kind, k.id), rs))
  }

  lemma SharedForm(run: Run, st: ReportStates, v: AllocationView, e: FinancialException)
    ensures e in AllocationExceptions(run, st, v) <==>
      st.lines == Complete && |v.lines| > 1 &&
      e == Shown(run, SettlementUniqueMovementAllocation, DuplicateSettlementMovement,
                 SettlementMovementSubject(v.kind, v.id), None, Some(100 * |v.lines|),
                 set l | l in v.lines :: LineRef(l))
  {
  }

  lemma SharedMovementAt(run: Run, st: ReportStates, rs: seq<FinancialRecord>, k: MovementRef, e: FinancialException)
    requires UniqueIdentities(rs)
    ensures e in AllocationRule(run, st, Split(rs))(k) && e.rule == SettlementUniqueMovementAllocation <==>
      AllComplete(st, {SettlementLines}) && SharedMovement(run, rs, k, e)
  {
    NamingSeen(rs, k.kind, k.id);
    LineRefsSeen(rs, k.kind, k.id);
    var v := ViewAllocation(Split(rs))(k);
    assert v == AllocationView(k.kind, k.id, LinesCarrying(Split(rs), k)) && k == MovementRef(k.kind, k.id);
    assert AllComplete(st, {SettlementLines}) <==> st.lines == Complete by {
      assert st.Of(SettlementLines) == st.lines;
    }
    assert AllocationRule(run, st, Split(rs))(k) == AllocationExceptions(run, st, v);
    SharedForm(run, st, v, e);
  }

  lemma SharedMovementRaised(run: Run, rs: seq<FinancialRecord>, cs: seq<CompletenessResult>, e: FinancialException)
    requires UniqueIdentities(rs) && e.rule == SettlementUniqueMovementAllocation
    ensures Raises(run, rs, cs, e) <==>
      AllComplete(StatesFor(cs), {SettlementLines}) && exists k :: SharedMovement(run, rs, k, e)
  {
    PassOf(run, StatesFor(cs), Split(rs), e);
    SomeAllocated(run, StatesFor(cs), Split(rs), e);
    forall k: MovementRef
      ensures e in AllocationRule(run, StatesFor(cs), Split(rs))(k) <==>
        AllComplete(StatesFor(cs), {SettlementLines}) && SharedMovement(run, rs, k, e)
    {
      SharedMovementAt(run, StatesFor(cs), rs, k, e);
    }
  }

  lemma SharedMovementUnique(run: Run, rs: seq<FinancialRecord>, e: FinancialException, g: FinancialException)
    requires UniqueIdentities(rs) && (exists k :: SharedMovement(run, rs, k, e)) &&
      (exists k :: SharedMovement(run, rs, k, g))
    requires e.subject == g.subject
    ensures e == g
  {
    var x :| SharedMovement(run, rs, x, e);
    var y :| SharedMovement(run, rs, y, g);
  }

  /** A movement named by more than one line of the run, and nothing else, is published with the number of those lines
      and every one of them. */
  lemma SharedMovementPublished(run: Run, rs: seq<FinancialRecord>, conflicts: seq<Conflict>,
                                cs: seq<CompletenessResult>,
                        e: FinancialException)
    requires UniqueIdentities(rs) && ResultFor(run, rs, conflicts, cs).Success? &&
      e.rule == SettlementUniqueMovementAllocation
    ensures e in ResultFor(run, rs, conflicts, cs).value.exceptions <==>
      CompleteIn(cs, {SettlementLines}) && exists k :: SharedMovement(run, rs, k, e)
  {
    ResultRaw(run, rs, conflicts, cs);
    ReportsSeen(cs, {SettlementLines});
    SharedMovementRaised(run, rs, cs, e);
    forall g | Raises(run, rs, cs, e) && Raises(run, rs, cs, g) && ExceptionId(g) == ExceptionId(e)
      ensures g == e
    {
      SharedMovementRaised(run, rs, cs, g);
      SharedMovementUnique(run, rs, e, g);
    }
    RaisedIsPublished(run, rs, conflicts, cs, e);
  }

  // ---- Captures of a cancelled order share one identity ----

  ghost predicate CancelledCapture(run: Run, rs: seq<FinancialRecord>, o: Order, p: Payment, e: FinancialException) {
    OrderRecord(o) in rs && o.status == Cancelled && PaymentRecord(p) in rs && p.status == Captured &&
    p.orderId == o.orderId &&
    e == Shown(run, PaymentOrderIsPayable, CaptureForNonPayableOrder, Of(OrderType, o.orderId), Some(0), Some(p.amount),
               {Ref(OrderType, o.orderId), Ref(PaymentType, p.paymentId)})
  }

  /** No captured payment of the order has a later id. */
  ghost predicate LatestCapture(rs: seq<FinancialRecord>, p: Payment) {
    forall q :: PaymentRecord(q) in rs && q.status == Captured && q.orderId == p.orderId ==>
      q == p || StringLess(q.paymentId, p.paymentId)
  }

  ghost predicate NonPayable(run: Run, rs: seq<FinancialRecord>, o: Order, p: Payment, e: FinancialException) {
    OrderRecord(o) in rs && o.orderId == p.orderId && o.status == Cancelled &&
    e == Shown(run, PaymentOrderIsPayable, CaptureForNonPayableOrder, Of(OrderType, o.orderId), Some(0), Some(p.amount),
               {Ref(OrderType, o.orderId), Ref(PaymentType, p.paymentId)})
  }

  lemma LinkForm(run: Run, st: ReportStates, rs: seq<FinancialRecord>, p: Payment, e: FinancialException)
    requires e in PaymentLinkRule(run, st, Split(rs))(p)
    ensures AllComplete(st, {Orders, Payments})
    ensures e.rule == PaymentOrderIsPayable ==> exists o :: NonPayable(run, rs, o, p, e)
    ensures e.rule != PaymentOrderIsPayable ==>
      e.rule == PaymentOrderExists && forall o :: OrderRecord(o) in rs ==> o.orderId != p.orderId
  {
    OrderSeen(rs, p.orderId);
    var v := ViewCapture(Split(rs))(p);
    assert v.order == Lookup(OrderId, Split(rs).orders, p.orderId) && v.payment == p;
    assert PaymentLinkRule(run, st, Split(rs))(p) == PaymentLinkExceptions(run, st, v);
    PaymentLinkForm(run, st, v, e);
    if e.rule == PaymentOrderIsPayable {
      assert NonPayable(run, rs, v.order.value, p, e);
    }
  }

  lemma {:induction false} OneIdentityKept(es: seq<FinancialException>, e: FinancialException)
    requires es != [] && forall f :: f in es ==> ExceptionId(f) == ExceptionId(e)
    ensures Published(es) == [es[|es| - 1]]
  {
    OneIdentityLast(es, e);
    assert Sort(ExceptionKey, [es[|es| - 1]]) == [es[|es| - 1]] by {
      SortSingle(es[|es| - 1]);
    }
  }

  lemma SortSingle(e: FinancialException)
    ensures Sort(ExceptionKey, [e]) == [e]
  {
    assert [e][..0] == [] && Sort(ExceptionKey, [e][..0]) == [];
  }

  lemma {:induction false} OneIdentityLast(es: seq<FinancialException>, e: FinancialException)
    requires es != [] && forall f :: f in es ==> ExceptionId(f) == ExceptionId(e)
    ensures KeepLast(ExceptionId, es) == [es[|es| - 1]]
  {
    var init, last := es[..|es| - 1], es[|es| - 1];
    assert es == init + [last];
    if init == [] {
      assert KeepLast(ExceptionId, init) == [];
    } else {
      OneIdentityLast(init, e);
      assert init[|init| - 1] in es && last in es;
    }
  }

  /** The exceptions of one identity among all of them. */
  lemma NonPayableRun(run: Run, rs: seq<FinancialRecord>, conflicts: seq<Conflict>, cs: seq<CompletenessResult>,
                      o: Order,
                      id: (RuleId, ExceptionCode, Subject))
    requires UniqueIdentities(rs) && OrderRecord(o) in rs && o.status == Cancelled
    requires AllComplete(StatesFor(cs), {Orders, Payments})
    requires id == (PaymentOrderIsPayable, CaptureForNonPayableOrder, Of(OrderType, o.orderId))
    ensures Filter(KeyIs(ExceptionId, id), Raw(run, rs, conflicts, cs)) ==
      FlatMap(PaymentLinkRule(run, StatesFor(cs), Split(rs)), CapturesOf(Split(rs), o.orderId))
  {
    var st, recs, same := StatesFor(cs), Split(rs), KeyIs(ExceptionId, id);
    var rule := PaymentLinkRule(run, st, recs);
    FilterConcat(same, Given(run, conflicts, cs), RecordExceptions(run, st, recs));
    NoneSame(same, id, run, conflicts, cs);
    OnlyLinks(run, st, recs, id);
    forall p, e | p in CapturedPayments(recs) && e in rule(p)
      ensures same(e) == KeyIs(PaymentOrderId, o.orderId)(p)
    {
      SameIdentityAt(run, st, rs, o, p, e, id);
    }
    FilterFlatMap(same, KeyIs(PaymentOrderId, o.orderId), rule, CapturedPayments(recs));
    assert [] + Filter(same, RecordExceptions(run, st, recs)) == Filter(same, RecordExceptions(run, st, recs));
  }

  lemma SameIdentityAt(run: Run, st: ReportStates, rs: seq<FinancialRecord>, o: Order, p: Payment,
                       e: FinancialException,
                       id: (RuleId, ExceptionCode, Subject))
    requires UniqueIdentities(rs) && OrderRecord(o) in rs && o.status == Cancelled &&
      AllComplete(st, {Orders, Payments})
    requires p in CapturedPayments(Split(rs)) && e in PaymentLinkRule(run, st, Split(rs))(p)
    requires id == (PaymentOrderIsPayable, CaptureForNonPayableOrder, Of(OrderType, o.orderId))
    ensures KeyIs(ExceptionId, id)(e) == KeyIs(PaymentOrderId, o.orderId)(p)
  {
    CapturedSeen(rs, p);
    assert PaymentOrderId(p) == p.orderId;
    LinkForm(run, st, rs, p, e);
    if e.rule == PaymentOrderIsPayable {
      var q :| NonPayable(run, rs, q, p, e);
      assert ExceptionId(e) == (PaymentOrderIsPayable, CaptureForNonPayableOrder, Of(OrderType, p.orderId));
      assert KeyIs(ExceptionId, id)(e) == (ExceptionId(e) == id);
    } else {
      assert KeyIs(ExceptionId, id)(e) == (ExceptionId(e) == id);
      assert KeyIs(PaymentOrderId, o.orderId)(p) == (PaymentOrderId(p) == o.orderId);
    }
  }

  lemma NoneSame(same: FinancialException -> bool, id: (RuleId, ExceptionCode, Subject), run: Run,
                 conflicts: seq<Conflict>,
                 cs: seq<CompletenessResult>)
    requires same == KeyIs(ExceptionId, id) && RecordRule(id.0)
    ensures Filter(same, Given(run, conflicts, cs)) == []
  {
    forall e | e in Given(run, conflicts, cs)
      ensures same(e) == false
    {
      GivenRules(run, conflicts, cs, e);
      assert same(e) == (ExceptionId(e) == id);
    }
    FilterUniform(same, Given(run, conflicts, cs), false);
  }

  lemma OtherPass<T(!new)>(rule: T -> seq<FinancialException>, s: seq<T>, id: (RuleId, ExceptionCode, Subject))
    requires forall x, e :: x in s && e in rule(x) ==> e.rule != id.0
    ensures Filter(KeyIs(ExceptionId, id), FlatMap(rule, s)) == []
  {
    forall e | e in FlatMap(rule, s)
      ensures !KeyIs(ExceptionId, id)(e)
    {
      FlatMapMember(rule, s, e);
      assert KeyIs(ExceptionId, id)(e) == (ExceptionId(e) == id);
    }
    FilterUniform(KeyIs(ExceptionId, id), FlatMap(rule, s), false);
  }

  lemma OnlyLinks(run: Run, st: ReportStates, recs: Records, id: (RuleId, ExceptionCode, Subject))
    requires id.0 == PaymentOrderIsPayable
    ensures Filter(KeyIs(ExceptionId, id), RecordExceptions(run, st, recs)) ==
      Filter(KeyIs(ExceptionId, id), FlatMap(PaymentLinkRule(run, st, recs), CapturedPayments(recs)))
  {
    forall p, e
      ensures e in ExcessRefundRule(run, st, recs)(p) || e in FeeAmountRule(run, st, recs)(p) ==> e.rule != id.0
    {
      CaptureRules(run, st, recs, p, e);
    }
    forall e: FinancialException
      ensures forall f :: e in RefundLinkRule(run, st, recs)(f) ==> e.rule != id.0
      ensures forall f :: e in FeeLinkRule(run, st, recs)(f) ==> e.rule != id.0
      ensures forall k :: e in AllocationRule(run, st, recs)(k) ==> e.rule != id.0
      ensures forall o :: e in OrderRule(run, st, recs)(o) ==> e.rule != id.0
      ensures forall p :: e in PayoutRule(run, st, recs)(p) ==> e.rule != id.0
    {
      AttachedRules(run, st, recs, e);
      RowRules(run, st, recs, e);
    }
    OtherPass(RefundLinkRule(run, st, recs), SuccessfulRefunds(recs), id);
    OtherPass(ExcessRefundRule(run, st, recs), CapturedPayments(recs), id);
    OtherPass(FeeAmountRule(run, st, recs), CapturedPayments(recs), id);
    OtherPass(FeeLinkRule(run, st, recs), recs.fees, id);
    OtherPass(OrderRule(run, st, recs), recs.orders, id);
    OtherPass(AllocationRule(run, st, recs), AllocatedMovements(recs), id);
    OtherPass(PayoutRule(run, st, recs), recs.payouts, id);
    Refresh.FilterRecordExceptions(KeyIs(ExceptionId, id), run, st, recs);
    var links := Filter(KeyIs(ExceptionId, id), FlatMap(PaymentLinkRule(run, st, recs), CapturedPayments(recs)));
    assert links + [] + [] + [] + [] + [] + [] + [] == links;
  }

  lemma LastCapture(rs: seq<FinancialRecord>, o: Order, p: Payment)
    requires UniqueIdentities(rs) && PaymentRecord(p) in rs && p.status == Captured && p.orderId == o.orderId
    ensures var ps := CapturesOf(Split(rs), o.orderId); ps != [] && (p == ps[|ps| - 1] <==> LatestCapture(rs, p))
  {
    var ps := CapturesOf(Split(rs), o.orderId);
    CapturesSeen(rs, o.orderId);
    SplitOrdered(rs);
    FilterStrict(PaymentKey, IsCaptured, Split(rs).payments);
    FilterStrict(PaymentKey, KeyIs(PaymentOrderId, o.orderId), CapturedPayments(Split(rs)));
    assert p in ps;
    var last := ps[|ps| - 1];
    LastIsGreatest(ps);
    assert last in ps;
    StringLessOrder(p.paymentId, last.paymentId, p.paymentId);
  }

  lemma LastIsGreatest(ps: seq<Payment>)
    requires StrictlySorted(PaymentKey, ps) && ps != []
    ensures forall q :: q in ps ==> q == ps[|ps| - 1] || StringLess(q.paymentId, ps[|ps| - 1].paymentId)
  {
    forall q | q in ps
      ensures q == ps[|ps| - 1] || StringLess(q.paymentId, ps[|ps| - 1].paymentId)
    {
      var i :| 0 <= i < |ps| && ps[i] == q;
      if i < |ps| - 1 {
        PaymentKeyOrder(q, ps[|ps| - 1]);
      }
    }
  }

  lemma PaymentKeyOrder(p: Payment, q: Payment)
    requires KeyLess(PaymentKey(p), PaymentKey(q))
    ensures StringLess(p.paymentId, q.paymentId)
  {
    assert PaymentKey(p)[1..] == [] && PaymentKey(q)[1..] == [] && !KeyLess([], []);
  }

  lemma PublishedFiltered(raw: seq<FinancialException>, e: FinancialException)
    ensures Filter(KeyIs(ExceptionId, ExceptionId(e)), Published(raw))
      == Published(Filter(KeyIs(ExceptionId, ExceptionId(e)), raw))
  {
    forall f, g | ExceptionId(f) == ExceptionId(g)
      ensures KeyIs(ExceptionId, ExceptionId(e))(f) == KeyIs(ExceptionId, ExceptionId(e))(g)
    {
    }
    Refresh.PublishedFilter(KeyIs(ExceptionId, ExceptionId(e)), raw);
  }

  lemma {:induction false} LinkSingles(run: Run, st: ReportStates, rs: seq<FinancialRecord>, o: Order, ps: seq<Payment>)
    requires UniqueIdentities(rs) && OrderRecord(o) in rs && o.status == Cancelled &&
      AllComplete(st, {Orders, Payments})
    requires ps != [] && forall p :: p in ps ==>
      PaymentRecord(p) in rs && p.status == Captured && p.orderId == o.orderId
    ensures var es := FlatMap(PaymentLinkRule(run, st, Split(rs)), ps);
      es != [] && CancelledCapture(run, rs, o, ps[|ps| - 1], es[|es| - 1]) &&
      forall e :: e in es ==>
        ExceptionId(e) == (PaymentOrderIsPayable, CaptureForNonPayableOrder, Of(OrderType, o.orderId))
  {
    var rule := PaymentLinkRule(run, st, Split(rs));
    var last := ps[|ps| - 1];
    assert last in ps;
    CancelledSingle(run, st, rs, o, last);
    forall e | e in FlatMap(rule, ps)
      ensures ExceptionId(e) == (PaymentOrderIsPayable, CaptureForNonPayableOrder, Of(OrderType, o.orderId))
    {
      LinkIdentity(run, st, rs, o, ps, e);
    }
  }

  lemma LinkIdentity(run: Run, st: ReportStates, rs: seq<FinancialRecord>, o: Order, ps: seq<Payment>,
                     e: FinancialException)
    requires UniqueIdentities(rs) && OrderRecord(o) in rs && o.status == Cancelled &&
      AllComplete(st, {Orders, Payments})
    requires forall p :: p in ps ==> PaymentRecord(p) in rs && p.status == Captured && p.orderId == o.orderId
    requires e in FlatMap(PaymentLinkRule(run, st, Split(rs)), ps)
    ensures ExceptionId(e) == (PaymentOrderIsPayable, CaptureForNonPayableOrder, Of(OrderType, o.orderId))
  {
    var rule := PaymentLinkRule(run, st, Split(rs));
    FlatMapMember(rule, ps, e);
    var p :| p in ps && e in rule(p);
    CancelledSingle(run, st, rs, o, p);
    assert rule(p) == [rule(p)[0]] && e == rule(p)[0];
  }

  lemma CancelledSingle(run: Run, st: ReportStates, rs: seq<FinancialRecord>, o: Order, p: Payment)
    requires UniqueIdentities(rs) && OrderRecord(o) in rs && o.status == Cancelled &&
      AllComplete(st, {Orders, Payments})
    requires PaymentRecord(p) in rs && p.status == Captured && p.orderId == o.orderId
    ensures var es := PaymentLinkRule(run, st, Split(rs))(p); |es| == 1 && CancelledCapture(run, rs, o, p, es[0])
  {
    var v := ViewCapture(Split(rs))(p);
    OrderSeen(rs, p.orderId);
    assert v.order == Lookup(OrderId, Split(rs).orders, p.orderId) && v.payment == p && v.order.Some?;
    SameOrder(rs, o, v.order.value);
    assert PaymentLinkRule(run, st, Split(rs))(p) == PaymentLinkExceptions(run, st, v);
  }

  /** A cancelled order with captured payments, and nothing else, is published once under its rule, for the payment with
      the latest id. */
  lemma CancelledCapturePublished(run: Run, rs: seq<FinancialRecord>, conflicts: seq<Conflict>,
                                  cs: seq<CompletenessResult>,
                                  e: FinancialException)
    requires UniqueIdentities(rs) && ResultFor(run, rs, conflicts, cs).Success? && e.rule == PaymentOrderIsPayable
    ensures e in ResultFor(run, rs, conflicts, cs).value.exceptions <==>
      CompleteIn(cs, {Orders, Payments}) && exists o, p :: CancelledCapture(run, rs, o, p, e) && LatestCapture(rs, p)
  {
    ResultRaw(run, rs, conflicts, cs);
    ReportsSeen(cs, {Orders, Payments});
    if e in ResultFor(run, rs, conflicts, cs).value.exceptions {
      PublishedIsRaised(run, rs, conflicts, cs, e);
      var o, p := CancelledRaised(run, rs, cs, e);
      CancelledExact(run, rs, conflicts, cs, o, p, e);
    }
    if o, p :| CompleteIn(cs, {Orders, Payments}) && CancelledCapture(run, rs, o, p, e) && LatestCapture(rs, p) {
      CancelledExact(run, rs, conflicts, cs, o, p, e);
    }
  }

  lemma CancelledRaised(run: Run, rs: seq<FinancialRecord>, cs: seq<CompletenessResult>, e: FinancialException)
    returns (o: Order, p: Payment)
    requires UniqueIdentities(rs) && Raises(run, rs, cs, e) && e.rule == PaymentOrderIsPayable
    ensures AllComplete(StatesFor(cs), {Orders, Payments}) && CancelledCapture(run, rs, o, p, e)
  {
    PassOf(run, StatesFor(cs), Split(rs), e);
    p :| p in CapturedPayments(Split(rs)) && Incremental.RaisesForPayment(run, StatesFor(cs), Split(rs), p, e);
    CapturedSeen(rs, p);
    CaptureRules(run, StatesFor(cs), Split(rs), p, e);
    LinkForm(run, StatesFor(cs), rs, p, e);
    o :| NonPayable(run, rs, o, p, e);
  }

  lemma CancelledExact(run: Run, rs: seq<FinancialRecord>, conflicts: seq<Conflict>, cs: seq<CompletenessResult>,
                       o: Order,
                       p: Payment, e: FinancialException)
    requires UniqueIdentities(rs) && ResultFor(run, rs, conflicts, cs).Success? && CancelledCapture(run, rs, o, p, e)
    requires AllComplete(StatesFor(cs), {Orders, Payments})
    ensures e in ResultFor(run, rs, conflicts, cs).value.exceptions <==>
      exists q :: CancelledCapture(run, rs, o, q, e) && LatestCapture(rs, q)
  {
    var ps, es := CapturesOf(Split(rs), o.orderId),
                  FlatMap(PaymentLinkRule(run, StatesFor(cs), Split(rs)), CapturesOf(Split(rs), o.orderId));
    ResultRaw(run, rs, conflicts, cs);
    NonPayableRun(run, rs, conflicts, cs, o, ExceptionId(e));
    CapturesSeen(rs, o.orderId);
    assert p in ps;
    LinkSingles(run, StatesFor(cs), rs, o, ps);
    OneIdentityKept(es, e);
    PublishedFiltered(Raw(run, rs, conflicts, cs), e);
    FilterMember(KeyIs(ExceptionId, ExceptionId(e)), Published(Raw(run, rs, conflicts, cs)), e);
    assert KeyIs(ExceptionId, ExceptionId(e))(e) == (ExceptionId(e) == ExceptionId(e));
    assert e in ResultFor(run, rs, conflicts, cs).value.exceptions <==> e == es[|es| - 1];
    LastShown(run, rs, o, ps, es[|es| - 1], e);
  }

  lemma LastShown(run: Run, rs: seq<FinancialRecord>, o: Order, ps: seq<Payment>,
                  shown: FinancialException, e: FinancialException)
    requires UniqueIdentities(rs) && ps == CapturesOf(Split(rs), o.orderId) && ps != []
    requires CancelledCapture(run, rs, o, ps[|ps| - 1], shown)
    ensures e == shown <==>
      exists q :: CancelledCapture(run, rs, o, q, e) && LatestCapture(rs, q)
  {
    CapturesSeen(rs, o.orderId);
    var last := ps[|ps| - 1];
    assert last in ps;
    LastCapture(rs, o, last);
    assert LatestCapture(rs, last);
    if q :| CancelledCapture(run, rs, o, q, e) && LatestCapture(rs, q) {
      LastCapture(rs, o, q);
    }
  }
}
