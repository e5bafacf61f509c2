/** What every exception of a run has in common, whichever rule raised it. */
module Exceptions {
  import opened Sequences
  import opened Contracts
  import opened Rules
  import opened Ledger
  import opened Reconciliation

  function IsConflictException(e: FinancialException): bool { e.code == ConflictingSourceVersion }

  /** The variance is the difference of the two amounts, and absent unless both are present. */
  predicate VarianceHolds(e: FinancialException) {
    if e.expected.Some? &&
      e.actual.Some? then e.variance == Some(e.actual.value - e.expected.value) else e.variance.None?
  }

  /** What every exception raised by a reconciliation rule satisfies. */
  predicate FromRule(run: Run, e: FinancialException) {
    e.runId == run.runId && VarianceHolds(e) && !IsConflictException(e)
  }

  ghost predicate FromRules(run: Run, s: seq<FinancialException>) {
    forall e :: e in s ==> FromRule(run, e)
  }

  lemma FlatMapFromRules<T(!new)>(run: Run, rule: T -> seq<FinancialException>, s: seq<T>)
    requires forall x :: x in s ==> FromRules(run, rule(x))
    ensures FromRules(run, FlatMap(rule, s))
  {
    forall e | e in FlatMap(rule, s)
      ensures FromRule(run, e)
    {
      FlatMapMember(rule, s, e);
      var x :| x in s && e in rule(x);
      assert FromRules(run, rule(x));
    }
  }

  lemma PaymentExceptionsFromRules(run: Run, st: ReportStates, recs: Records)
    ensures FromRules(run, FlatMap(PaymentLinkRule(run, st, recs), CapturedPayments(recs)))
  {
    forall p | p in CapturedPayments(recs)
      ensures FromRules(run, PaymentLinkRule(run, st, recs)(p))
    {
      assert PaymentLinkRule(run, st, recs)(p) == PaymentLinkExceptions(run, st, ViewCapture(recs)(p));
    }
    FlatMapFromRules(run, PaymentLinkRule(run, st, recs), CapturedPayments(recs));
  }

  lemma ExcessFromRules(run: Run, st: ReportStates, v: CaptureView)
    ensures FromRules(run, ExcessRefundExceptions(run, st, v))
  {
  }

  lemma FeeFromRules(run: Run, st: ReportStates, v: CaptureView)
    ensures FromRules(run, FeeAmountExceptions(run, st, v))
  {
  }

  lemma CaptureExceptionsFromRules(run: Run, st: ReportStates, recs: Records)
    ensures FromRules(run, FlatMap(ExcessRefundRule(run, st, recs), CapturedPayments(recs)))
    ensures FromRules(run, FlatMap(FeeAmountRule(run, st, recs), CapturedPayments(recs)))
  {
    forall p | p in CapturedPayments(recs)
      ensures FromRules(run, ExcessRefundRule(run, st, recs)(p))
    {
      ExcessFromRules(run, st, ViewCapture(recs)(p));
      assert ExcessRefundRule(run, st, recs)(p) == ExcessRefundExceptions(run, st, ViewCapture(recs)(p));
    }
    FlatMapFromRules(run, ExcessRefundRule(run, st, recs), CapturedPayments(recs));
    forall p | p in CapturedPayments(recs)
      ensures FromRules(run, FeeAmountRule(run, st, recs)(p))
    {
      FeeFromRules(run, st, ViewCapture(recs)(p));
      assert FeeAmountRule(run, st, recs)(p) == FeeAmountExceptions(run, st, ViewCapture(recs)(p));
    }
    FlatMapFromRules(run, FeeAmountRule(run, st, recs), CapturedPayments(recs));
  }

  lemma AttachmentExceptionsFromRules(run: Run, st: ReportStates, recs: Records)
    ensures FromRules(run, FlatMap(RefundLinkRule(run, st, recs), SuccessfulRefunds(recs)))
    ensures FromRules(run, FlatMap(FeeLinkRule(run, st, recs), recs.fees))
  {
    forall r | r in SuccessfulRefunds(recs)
      ensures FromRules(run, RefundLinkRule(run, st, recs)(r))
    {
      assert RefundLinkRule(run, st, recs)(r) == RefundLinkExceptions(run, st, ViewRefund(recs)(r));
    }
    FlatMapFromRules(run, RefundLinkRule(run, st, recs), SuccessfulRefunds(recs));
    forall f | f in recs.fees
      ensures FromRules(run, FeeLinkRule(run, st, recs)(f))
    {
      assert FeeLinkRule(run, st, recs)(f) == FeeLinkExceptions(run, st, ViewFee(recs)(f));
    }
    FlatMapFromRules(run, FeeLinkRule(run, st, recs), recs.fees);
  }

  lemma OrderFromRules(run: Run, st: ReportStates, v: OrderView)
    ensures FromRules(run, OrderExceptions(run, st, v))
  {
  }

  lemma OrderExceptionsFromRules(run: Run, st: ReportStates, recs: Records)
    ensures FromRules(run, FlatMap(OrderRule(run, st, recs), recs.orders))
  {
    forall o | o in recs.orders
      ensures FromRules(run, OrderRule(run, st, recs)(o))
    {
      OrderFromRules(run, st, ViewOrder(recs)(o));
      assert OrderRule(run, st, recs)(o) == OrderExceptions(run, st, ViewOrder(recs)(o));
    }
    FlatMapFromRules(run, OrderRule(run, st, recs), recs.orders);
  }

  lemma DueFromRules(run: Run, lines: seq<SettlementLine>, due: seq<DueView>)
    ensures FromRules(run, FlatMap(DueRule(run, lines), due))
  {
    FlatMapFromRules(run, DueRule(run, lines), due);
  }

  lemma PayoutFromRules(run: Run, st: ReportStates, v: PayoutView)
    ensures FromRules(run, PayoutExceptions(run, st, v))
  {
    DueFromRules(run, v.lines, v.due);
  }

  lemma SettlementExceptionsFromRules(run: Run, st: ReportStates, recs: Records)
    ensures FromRules(run, FlatMap(AllocationRule(run, st, recs), AllocatedMovements(recs)))
    ensures FromRules(run, FlatMap(PayoutRule(run, st, recs), recs.payouts))
  {
    forall k | k in AllocatedMovements(recs)
      ensures FromRules(run, AllocationRule(run, st, recs)(k))
    {
      assert AllocationRule(run, st, recs)(k) == AllocationExceptions(run, st, ViewAllocation(recs)(k));
    }
    FlatMapFromRules(run, AllocationRule(run, st, recs), AllocatedMovements(recs));
    forall p | p in recs.payouts
      ensures FromRules(run, PayoutRule(run, st, recs)(p))
    {
      PayoutFromRules(run, st, ViewPayout(recs)(p));
    }
    FlatMapFromRules(run, PayoutRule(run, st, recs), recs.payouts);
  }

  /** Every exception derived from records belongs to the run, has a consistent variance and is no source conflict. */
  lemma RecordExceptionsFromRules(run: Run, st: ReportStates, recs: Records)
    ensures FromRules(run, RecordExceptions(run, st, recs))
  {
    PaymentExceptionsFromRules(run, st, recs);
    CaptureExceptionsFromRules(run, st, recs);
    AttachmentExceptionsFromRules(run, st, recs);
    OrderExceptionsFromRules(run, st, recs);
    SettlementExceptionsFromRules(run, st, recs);
  }

  lemma CompletenessFromRules(run: Run, sorted: seq<CompletenessResult>)
    ensures FromRules(run, FlatMap(CompletenessExceptions(run), sorted))
  {
    FlatMapFromRules(run, CompletenessExceptions(run), sorted);
  }
}
