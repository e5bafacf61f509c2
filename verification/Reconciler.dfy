/** The reconciler as it runs: dictionaries built in one pass each, then global passes over payments,
    refunds, fees, orders, movements, settlement lines and payouts that append exceptions and collect
    codes. `Reconcile` is proved to return exactly `ResultFor`, the result stated entity by entity. */
module Reconciler {
  import opened Sequences
  import opened Contracts
  import opened Money
  import opened Rules
  import opened Ledger
  import opened Reconciliation
  import opened Marks

  type Codes = map<string, set<ExceptionCode>>

  /** `m` is the dictionary comprehension over `s`. */
  ghost predicate Indexed<T, K(!new)>(key: T -> K, s: seq<T>, m: map<K, T>) {
    forall k :: Lookup(key, s, k) == if k in m then Some(m[k]) else None
  }

  /** `codes` is `base` plus the marks. */
  ghost predicate Marked(base: Codes, codes: Codes, marks: seq<Mark>) {
    forall id, c :: c in At(codes, id) <==> c in At(base, id) || (id, c) in marks
  }

  function Find<K, T>(m: map<K, T>, k: K): Option<T> {
    if k in m then Some(m[k]) else None
  }

  lemma MarkedMore(base: Codes, codes: Codes, marks: seq<Mark>, id: string, c: ExceptionCode)
    requires Marked(base, codes, marks)
    ensures Marked(base, Put(codes, id, c), marks + [(id, c)])
  {
    var more, put := marks + [(id, c)], Put(codes, id, c);
    forall i, d
      ensures d in At(put, i) <==> d in At(base, i) || (i, d) in more
    {
      assert d in At(codes, i) <==> d in At(base, i) || (i, d) in marks;
    }
  }

  lemma UnmarkedSoFar<T>(marks: T -> seq<Mark>, s: seq<T>, base: Codes)
    ensures Marked(base, base, FlatMap(marks, s[..0]))
  {
  }

  lemma MarkedChain(a: Codes, b: Codes, c: Codes, m: seq<Mark>, n: seq<Mark>)
    requires Marked(a, b, m) && Marked(b, c, n)
    ensures Marked(a, c, m + n)
  {
  }

  lemma MarkedNext<T>(marks: T -> seq<Mark>, s: seq<T>, i: nat, base: Codes, was: Codes, codes: Codes)
    requires i < |s| && Marked(base, was, FlatMap(marks, s[..i])) && Marked(was, codes, marks(s[i]))
    ensures Marked(base, codes, FlatMap(marks, s[..i + 1]))
  {
    assert s[..i + 1] == s[..i] + [s[i]];
    FlatMapAppend(marks, s[..i], s[i]);
    MarkedChain(base, was, codes, FlatMap(marks, s[..i]), marks(s[i]));
  }

  // ---- Indexes and inputs ----

  method IndexBy<T, K(==,!new)>(key: T -> K, s: seq<T>) returns (m: map<K, T>)
    ensures Indexed(key, s, m)
  {
    m := map[];
    for i := 0 to |s|
      invariant Indexed(key, s[..i], m)
    {
      forall k
        ensures Lookup(key, s[..i + 1], k) == if k == key(s[i]) then Some(s[i]) else Lookup(key, s[..i], k)
      {
        assert s[..i + 1] == s[..i] + [s[i]];
        FilterAppend(KeyIs(key, k), s[..i], s[i]);
      }
      m := m[key(s[i]) := s[i]];
    }
    assert s[..|s|] == s;
  }

  /** Rejects a report evaluated twice, then a report not evaluated at all. */
  method BuildReportStateMap(cs: seq<CompletenessResult>) returns (r: Result<ReportStates, ReconcileError>)
    ensures r == if !DistinctBy(ReportOf, cs) then Failure(DuplicateCompleteness)
                 else if !EveryReport(cs) then Failure(MissingCompleteness)
                 else Success(StatesOf(cs))
  {
    var states: map<ReportType, Completeness> := map[];
    for i := 0 to |cs|
      invariant DistinctBy(ReportOf, cs[..i])
      invariant forall t :: t in states <==> exists j :: 0 <= j < i && ReportOf(cs[j]) == t
      invariant forall j :: 0 <= j < i ==> states[ReportOf(cs[j])] == cs[j].status.state
    {
      if ReportOf(cs[i]) in states {
        return Failure(DuplicateCompleteness);
      }
      states := states[ReportOf(cs[i]) := cs[i].status.state];
    }
    assert cs[..|cs|] == cs;
    forall t: ReportType
      ensures HasReport(cs, t) <==> t in states
      ensures t in states ==> StateOf(cs, t) == states[t]
    {
      LookupMember(ReportOf, cs, t);
      if HasReport(cs, t) {
        var c := Lookup(ReportOf, cs, t).value;
        var j :| 0 <= j < |cs| && cs[j] == c;
        assert ReportOf(cs[j]) == t;
      }
    }
    if Orders in states && Payments in states && Refunds in states && Fees in states && SettlementLines in states &&
      Payouts in states {
      r := Success(ReportStates(states[Orders], states[Payments], states[Refunds], states[Fees],
                                states[SettlementLines], states[Payouts]));
    } else {
      r := Failure(MissingCompleteness);
    }
  }

  method SplitCanonicalRecords(rs: seq<FinancialRecord>) returns (recs: Records)
    ensures recs == Split(rs)
  {
    var orders, payments, refunds, fees, lines, payouts := [], [], [], [], [], [];
    for i := 0 to |rs|
      invariant orders == FlatMap(AsOrder, rs[..i]) && payments == FlatMap(AsPayment, rs[..i])
      invariant refunds == FlatMap(AsRefund, rs[..i]) && fees == FlatMap(AsFee, rs[..i])
      invariant lines == FlatMap(AsLine, rs[..i]) && payouts == FlatMap(AsPayout, rs[..i])
    {
      assert rs[..i + 1][..i] == rs[..i];
      match rs[i] {
        case OrderRecord(o) => orders := orders + [o];
        case PaymentRecord(p) => payments := payments + [p];
        case RefundRecord(f) => refunds := refunds + [f];
        case FeeRecord(f) => fees := fees + [f];
        case LineRecord(l) => lines := lines + [l];
        case PayoutRecord(p) => payouts := payouts + [p];
      }
    }
    assert rs[..|rs|] == rs;
    recs := Records(Sort(OrderKey, orders), Sort(PaymentKey, payments), Sort(RefundKey, refunds),
                    Sort(FeeKey, fees), Sort(LineKey, lines), Sort(PayoutKey, payouts));
  }

  method SourceCompletenessExceptions(run: Run, cs: seq<CompletenessResult>) returns (es: seq<FinancialException>)
    ensures es == FlatMap(CompletenessExceptions(run), cs)
  {
    es := [];
    for i := 0 to |cs|
      invariant es == FlatMap(CompletenessExceptions(run), cs[..i])
    {
      assert cs[..i + 1] == cs[..i] + [cs[i]];
      FlatMapAppend(CompletenessExceptions(run), cs[..i], cs[i]);
      var status := cs[i].status;
      if status.state != Incomplete {
        continue;
      }
      var support: set<Reference> := {};
      if status.batchId.Some? && status.batchId.value != "" {
        support := {BatchReference(status.batchId.value)};
      }
      es := es + [NewException(run, ReportCompletenessRule, if cs[i].missingOnly then SourceReportMissing
                               else SourceReportInvalid,
                               SourceReportSubject(status.report, status.day), None, None, support)];
    }
    assert cs[..|cs|] == cs;
  }

  method CanonicalConflictExceptions(run: Run, conflicts: seq<Conflict>) returns (es: seq<FinancialException>)
    ensures es == FlatMap(ConflictExceptions(run), conflicts)
  {
    es := [];
    for i := 0 to |conflicts|
      invariant es == FlatMap(ConflictExceptions(run), conflicts[..i])
    {
      assert conflicts[..i + 1] == conflicts[..i] + [conflicts[i]];
      FlatMapAppend(ConflictExceptions(run), conflicts[..i], conflicts[i]);
      var c := conflicts[i];
      es := es + [NewException(run, SameVersionConflictRule, ConflictingSourceVersion, RecordSubject(c.key), None, None,
                               set id | id in c.receiptIds :: ReceiptReference(id))];
    }
    assert conflicts[..|conflicts|] == conflicts;
  }

  // ---- Payments, refunds and fees ----

  method CheckPaymentLinks(run: Run, st: ReportStates, ghost recs: Records, captured: seq<Payment>,
                           orders: map<string, Order>, base: Codes)
    returns (es: seq<FinancialException>, codes: Codes)
    requires Indexed(OrderId, recs.orders, orders)
    ensures es == FlatMap(PaymentLinkRule(run, st, recs), captured)
    ensures Marked(base, codes, FlatMap(PaymentLinkMarks(st, recs), captured))
  {
    es, codes := [], base;
    var complete := AllComplete(st, {Orders, Payments});
    for i := 0 to |captured|
      invariant es == FlatMap(PaymentLinkRule(run, st, recs), captured[..i])
      invariant Marked(base, codes, FlatMap(PaymentLinkMarks(st, recs), captured[..i]))
    {
      var p := captured[i];
      assert captured[..i + 1] == captured[..i] + [p];
      FlatMapAppend(PaymentLinkRule(run, st, recs), captured[..i], p);
      FlatMapAppend(PaymentLinkMarks(st, recs), captured[..i], p);
      var order := Find(orders, p.orderId);
      assert ViewCapture(recs)(p).order == order;
      if complete {
        if order.None? {
          es := es + [NewException(run, PaymentOrderExists, OrphanPayment,
                                   RecordSubject(RecordKey(PaymentType, p.paymentId)),
                                   None, Some(p.amount), {PaymentRef(p)})];
          continue;
        }
        if order.value.status == Cancelled {
          MarkedMore(base, codes, FlatMap(PaymentLinkMarks(st, recs), captured[..i]), order.value.orderId,
                     CaptureForNonPayableOrder);
          codes := Put(codes, order.value.orderId, CaptureForNonPayableOrder);
          es := es + [NewException(run, PaymentOrderIsPayable, CaptureForNonPayableOrder,
                                   RecordSubject(RecordKey(OrderType, order.value.orderId)),
                                   Some(0), Some(p.amount), {OrderRef(order.value), PaymentRef(p)})];
        }
      }
    }
    assert captured[..|captured|] == captured;
  }

  method CheckRefundLinks(run: Run, st: ReportStates, ghost recs: Records, refunds: seq<Refund>,
                          payments: map<string, Payment>, base: Codes)
    returns (es: seq<FinancialException>, codes: Codes)
    requires Indexed(PaymentId, recs.payments, payments)
    ensures es == FlatMap(RefundLinkRule(run, st, recs), refunds)
    ensures Marked(base, codes, FlatMap(RefundLinkMarks(st, recs), refunds))
  {
    es, codes := [], base;
    var complete := AllComplete(st, {Payments, Refunds});
    for i := 0 to |refunds|
      invariant es == FlatMap(RefundLinkRule(run, st, recs), refunds[..i])
      invariant Marked(base, codes, FlatMap(RefundLinkMarks(st, recs), refunds[..i]))
    {
      var r := refunds[i];
      assert refunds[..i + 1] == refunds[..i] + [r];
      FlatMapAppend(RefundLinkRule(run, st, recs), refunds[..i], r);
      FlatMapAppend(RefundLinkMarks(st, recs), refunds[..i], r);
      var payment := Find(payments, r.paymentId);
      assert ViewRefund(recs)(r).payment == payment;
      if complete {
        if payment.None? || payment.value.status != Captured {
          es := es + [NewException(run, RefundCapturedPaymentExists, OrphanRefund,
                                   RecordSubject(RecordKey(RefundType, r.refundId)),
                                   None, Some(r.amount), {RefundRef(r)})];
          continue;
        }
        if r.currency != payment.value.currency {
          MarkedMore(base, codes, FlatMap(RefundLinkMarks(st, recs), refunds[..i]), payment.value.orderId,
                     RefundCurrencyMismatch);
          codes := Put(codes, payment.value.orderId, RefundCurrencyMismatch);
          es := es + [NewException(run, RefundCurrencyMatchesPayment, RefundCurrencyMismatch,
                                   RecordSubject(RecordKey(RefundType, r.refundId)),
                                   None, None, {PaymentRef(payment.value), RefundRef(r)})];
        }
      }
    }
    assert refunds[..|refunds|] == refunds;
  }

  lemma ExcessStep(run: Run, st: ReportStates, recs: Records, captured: seq<Payment>, i: nat)
    requires i < |captured|
    ensures var v := ViewCapture(recs)(captured[i]);
      FlatMap(ExcessRefundRule(run, st, recs), captured[..i + 1])
      == FlatMap(ExcessRefundRule(run, st, recs), captured[..i]) + ExcessRefundExceptions(run, st, v) &&
      FlatMap(ExcessRefundMarks(st, recs), captured[..i + 1])
      == FlatMap(ExcessRefundMarks(st, recs), captured[..i]) + ExcessMarks(st, v)
  {
    assert captured[..i + 1] == captured[..i] + [captured[i]];
    FlatMapAppend(ExcessRefundRule(run, st, recs), captured[..i], captured[i]);
    FlatMapAppend(ExcessRefundMarks(st, recs), captured[..i], captured[i]);
  }

  method CheckRefundTotals(run: Run, st: ReportStates, ghost recs: Records, captured: seq<Payment>,
                           refunds: map<string, seq<Refund>>, base: Codes)
    returns (es: seq<FinancialException>, codes: Codes)
    requires Grouped(RefundPaymentId, SuccessfulRefunds(recs), refunds)
    ensures es == FlatMap(ExcessRefundRule(run, st, recs), captured)
    ensures Marked(base, codes, FlatMap(ExcessRefundMarks(st, recs), captured))
  {
    es, codes := [], base;
    var complete := AllComplete(st, {Payments, Refunds});
    for i := 0 to |captured|
      invariant es == FlatMap(ExcessRefundRule(run, st, recs), captured[..i])
      invariant Marked(base, codes, FlatMap(ExcessRefundMarks(st, recs), captured[..i]))
    {
      var p := captured[i];
      ExcessStep(run, st, recs, captured, i);
      var related := Get(refunds, p.paymentId);
      assert ViewCapture(recs)(p).refunds == related;
      var total := Sum(RefundAmount, related);
      if complete && total > p.amount {
        MarkedMore(base, codes, FlatMap(ExcessRefundMarks(st, recs), captured[..i]), p.orderId, ExcessRefund);
        codes := Put(codes, p.orderId, ExcessRefund);
        es := es + [NewException(run, RefundTotalWithinCapture, ExcessRefund,
                                 RecordSubject(RecordKey(PaymentType, p.paymentId)),
                                 Some(p.amount), Some(total), {PaymentRef(p)} + set r | r in related :: RefundRef(r))];
      }
    }
    assert captured[..|captured|] == captured;
  }

  /** The scheduled fee of every capture, or the first failure of the fee calculation. */
  method ExpectedFees(captured: seq<Payment>) returns (ok: bool, fees: map<string, int>)
    requires forall p, q :: p in captured && q in captured && p.paymentId == q.paymentId ==> p == q
    ensures ok <==> forall p :: p in captured ==> FeeCalculable(p)
    ensures ok ==> forall p :: p in captured ==> p.paymentId in fees && fees[p.paymentId] == PaymentFee(p)
  {
    fees := map[];
    for i := 0 to |captured|
      invariant forall p :: p in captured[..i] ==>
        FeeCalculable(p) && p.paymentId in fees && fees[p.paymentId] == PaymentFee(p)
    {
      var p := captured[i];
      var fee := CalculateFee(p.paymentMethod, p.amount, p.currency);
      if fee.Failure? {
        assert p in captured && !FeeCalculable(p);
        return false, map[];
      }
      FeeAccepted(p.paymentMethod, p.amount, p.currency);
      fees := fees[p.paymentId := fee.value];
      assert captured[..i + 1] == captured[..i] + [p];
      forall q | q in captured[..i]
        ensures q.paymentId in fees && fees[q.paymentId] == PaymentFee(q)
      {
        assert q in captured && p in captured;
      }
    }
    assert captured[..|captured|] == captured;
    ok := true;
  }

  method CheckFeeAmounts(run: Run, st: ReportStates, ghost recs: Records, captured: seq<Payment>,
                         fees: map<string, seq<Fee>>,
                         expected: map<string, int>, base: Codes)
    returns (es: seq<FinancialException>, codes: Codes)
    requires Grouped(FeePaymentId, recs.fees, fees)
    requires forall p :: p in captured ==> p.paymentId in expected && expected[p.paymentId] == PaymentFee(p)
    ensures es == FlatMap(FeeAmountRule(run, st, recs), captured)
    ensures Marked(base, codes, FlatMap(FeeAmountMarks(st, recs), captured))
  {
    es, codes := [], base;
    var complete := AllComplete(st, {Payments, Fees});
    for i := 0 to |captured|
      invariant es == FlatMap(FeeAmountRule(run, st, recs), captured[..i])
      invariant Marked(base, codes, FlatMap(FeeAmountMarks(st, recs), captured[..i]))
    {
      var p := captured[i];
      assert captured[..i + 1] == captured[..i] + [p];
      FlatMapAppend(FeeAmountRule(run, st, recs), captured[..i], p);
      FlatMapAppend(FeeAmountMarks(st, recs), captured[..i], p);
      ghost var marks := FlatMap(FeeAmountMarks(st, recs), captured[..i]);
      var related := Get(fees, p.paymentId);
      assert ViewCapture(recs)(p).fees == related;
      if complete {
        var reported, scheduled := Sum(FeeAmount, related), expected[p.paymentId];
        if related == [] {
          MarkedMore(base, codes, marks, p.orderId, MissingFee);
          codes := Put(codes, p.orderId, MissingFee);
          es := es + [NewException(run, FeeProcessingFeeExists, MissingFee,
                                   RecordSubject(RecordKey(PaymentType, p.paymentId)),
                                   Some(scheduled), Some(0), {PaymentRef(p)})];
        } else if reported != scheduled {
          MarkedMore(base, codes, marks, p.orderId, FeeMismatch);
          codes := Put(codes, p.orderId, FeeMismatch);
          es := es + [NewException(run, FeeAmountMatchesSchedule, FeeMismatch,
                                   RecordSubject(RecordKey(PaymentType, p.paymentId)),
                                   Some(scheduled), Some(reported), {PaymentRef(p)} + set f | f in related ::
                                   FeeRef(f))];
        }
      }
    }
    assert captured[..|captured|] == captured;
  }

  method CheckFeeLinks(run: Run, st: ReportStates, ghost recs: Records, fees: seq<Fee>, payments: map<string, Payment>)
    returns (es: seq<FinancialException>)
    requires Indexed(PaymentId, recs.payments, payments)
    ensures es == FlatMap(FeeLinkRule(run, st, recs), fees)
  {
    es := [];
    var complete := AllComplete(st, {Payments, Fees});
    for i := 0 to |fees|
      invariant es == FlatMap(FeeLinkRule(run, st, recs), fees[..i])
    {
      var f := fees[i];
      assert fees[..i + 1] == fees[..i] + [f];
      FlatMapAppend(FeeLinkRule(run, st, recs), fees[..i], f);
      var payment := Find(payments, f.paymentId);
      assert ViewFee(recs)(f).payment == payment;
      if complete && (payment.None? || payment.value.status != Captured) {
        es := es + [NewException(run, FeeBelongsToCapture, UnexpectedFee, RecordSubject(RecordKey(FeeType, f.feeId)),
                                 Some(0), Some(f.amount), {FeeRef(f)})];
      }
    }
    assert fees[..|fees|] == fees;
  }

  // ---- Totals over several payments ----

  function GroupTotal<T>(f: T -> int, key: T -> string, s: seq<T>): Payment -> int {
    (p: Payment) => Sum(f, Filter(KeyIs(key, p.paymentId), s))
  }

  function IdsOf(ps: seq<Payment>): set<string> {
    set p | p in ps :: p.paymentId
  }

  lemma IdsAppend(init: seq<Payment>, last: Payment)
    requires DistinctBy(PaymentId, init + [last])
    ensures IdsOf(init + [last]) == IdsOf(init) + {last.paymentId} && last.paymentId !in IdsOf(init)
    ensures DistinctBy(PaymentId, init)
  {
    var ps := init + [last];
    forall p | p in init
      ensures p.paymentId != last.paymentId
    {
      var k :| 0 <= k < |init| && init[k] == p;
      assert PaymentId(ps[k]) != PaymentId(ps[|init|]);
    }
    forall i, j | 0 <= i < j < |init|
      ensures PaymentId(init[i]) != PaymentId(init[j])
    {
      assert ps[i] == init[i] && ps[j] == init[j];
    }
  }

  /** Summing over everything attached to one of several payments is summing payment by payment. */
  lemma {:induction false} SumByPayment<T>(f: T -> int, key: T -> string, s: seq<T>, ps: seq<Payment>)
    requires DistinctBy(PaymentId, ps)
    ensures Sum(f, Filter(InKeys(key, IdsOf(ps)), s)) == Sum(GroupTotal(f, key, s), ps)
  {
    if ps == [] {
      assert IdsOf(ps) == {};
      NoKeys(key, s);
    } else {
      var init, last := ps[..|ps| - 1], ps[|ps| - 1];
      assert ps == init + [last];
      IdsAppend(init, last);
      SumByPayment(f, key, s, init);
      SumOneMoreKey(f, key, IdsOf(init), last.paymentId, s);
    }
  }

  lemma DistinctPaymentIds(ps: seq<Payment>)
    requires StrictlySorted(PaymentKey, ps)
    ensures DistinctBy(PaymentId, ps)
    ensures forall p, q :: p in ps && q in ps && p.paymentId == q.paymentId ==> p == q
  {
    StrictNoRepeats(PaymentKey, ps);
    forall i, j | 0 <= i < j < |ps|
      ensures PaymentId(ps[i]) != PaymentId(ps[j])
    {
      assert PaymentKey(ps[i]) != PaymentKey(ps[j]);
    }
    forall p, q | p in ps && q in ps && p.paymentId == q.paymentId
      ensures p == q
    {
      var i :| 0 <= i < |ps| && ps[i] == p;
      var j :| 0 <= j < |ps| && ps[j] == q;
      assert PaymentId(ps[i]) == PaymentId(ps[j]);
    }
  }

  lemma OrderCapturesDistinct(recs: Records, orderId: string)
    requires Ordered(recs)
    ensures DistinctBy(PaymentId, CapturedPayments(recs)) && DistinctBy(PaymentId, CapturesOf(recs, orderId))
    ensures forall p, q :: p in CapturedPayments(recs) && q in CapturedPayments(recs) && p.paymentId == q.paymentId ==>
      p == q
  {
    FilterStrict(PaymentKey, IsCaptured, recs.payments);
    FilterStrict(PaymentKey, KeyIs(PaymentOrderId, orderId), CapturedPayments(recs));
    DistinctPaymentIds(CapturedPayments(recs));
    DistinctPaymentIds(CapturesOf(recs, orderId));
  }

  /** What the reconciler sums over whole lists equals what the order's own view adds up to. */
  ghost predicate TotalsAgree(v: OrderView, ps: seq<Payment>, refunds: seq<Refund>, fees: seq<Fee>) {
    CapturedTotal(v) == Sum(PaymentAmount, ps) && |v.captures| == |ps| &&
    Sum(CaptureRefunded, v.captures) == Sum(RefundAmount, Filter(InKeys(RefundPaymentId, IdsOf(ps)), refunds)) &&
    Sum(CaptureRefundCount, v.captures) == |Filter(InKeys(RefundPaymentId, IdsOf(ps)), refunds)| &&
    Sum(CaptureExpectedFee, v.captures) == Sum(PaymentFee, ps) &&
    Sum(CaptureReportedFee, v.captures) == Sum(FeeAmount, Filter(InKeys(FeePaymentId, IdsOf(ps)), fees))
  }

  lemma OrderTotals(recs: Records, o: Order)
    requires Ordered(recs)
    ensures TotalsAgree(ViewOrder(recs)(o), CapturesOf(recs, o.orderId), SuccessfulRefunds(recs), recs.fees)
  {
    var ps := CapturesOf(recs, o.orderId);
    OrderCapturesDistinct(recs, o.orderId);
    assert ViewOrder(recs)(o).captures == Map(ViewCapture(recs), ps);
    CapturedTotalIsSum(recs, o);
    SumByPayment(RefundAmount, RefundPaymentId, SuccessfulRefunds(recs), ps);
    SumByPayment(One, RefundPaymentId, SuccessfulRefunds(recs), ps);
    SumByPayment(FeeAmount, FeePaymentId, recs.fees, ps);
    SumOfOnes(Filter(InKeys(RefundPaymentId, IdsOf(ps)), SuccessfulRefunds(recs)));
    RefundTotals(recs, ps);
    SumOverMap(CaptureExpectedFee, ViewCapture(recs), PaymentFee, ps);
    SumOverMap(CaptureReportedFee, ViewCapture(recs), GroupTotal(FeeAmount, FeePaymentId, recs.fees), ps);
  }

  lemma RefundTotals(recs: Records, ps: seq<Payment>)
    ensures Sum(CaptureRefunded, Map(ViewCapture(recs), ps))
      == Sum(GroupTotal(RefundAmount, RefundPaymentId, SuccessfulRefunds(recs)), ps)
    ensures Sum(CaptureRefundCount, Map(ViewCapture(recs), ps))
      == Sum(GroupTotal(One, RefundPaymentId, SuccessfulRefunds(recs)), ps)
  {
    SumOverMap(CaptureRefunded, ViewCapture(recs), GroupTotal(RefundAmount, RefundPaymentId, SuccessfulRefunds(recs)),
               ps);
    forall p | p in ps
      ensures CaptureRefundCount(ViewCapture(recs)(p)) == GroupTotal(One, RefundPaymentId, SuccessfulRefunds(recs))(p)
    {
      SumOfOnes(RefundsOf(recs, p.paymentId));
    }
    SumOverMap(CaptureRefundCount, ViewCapture(recs), GroupTotal(One, RefundPaymentId, SuccessfulRefunds(recs)), ps);
  }

  // ---- Orders ----

  lemma CaptureRefsOf(recs: Records, o: Order)
    ensures CaptureRefs(ViewOrder(recs)(o)) == {OrderRef(o)} + set p | p in CapturesOf(recs, o.orderId) :: PaymentRef(p)
  {
    var ps, vs := CapturesOf(recs, o.orderId), ViewOrder(recs)(o).captures;
    var seen, known := set c | c in vs :: PaymentRef(c.payment), set p | p in ps :: PaymentRef(p);
    forall r
      ensures r in seen <==> r in known
    {
      if c :| c in vs && PaymentRef(c.payment) == r {
        ViewedCapture(recs, o, c);
        CapturesOfMember(recs, o.orderId, c.payment);
      }
      if p :| p in ps && PaymentRef(p) == r {
        CapturesOfMember(recs, o.orderId, p);
        CaptureInView(recs, o, p);
        assert PaymentRef(ViewCapture(recs)(p).payment) == r;
      }
    }
    assert ViewOrder(recs)(o).order == o;
  }

  /** The PAID-order rules, given the order's captures; `v` is the order's view of them. */
  method CheckOrder(run: Run, st: ReportStates, o: Order, ps: seq<Payment>, ghost v: OrderView, base: Codes)
    returns (es: seq<FinancialException>, codes: Codes)
    requires v.order == o && |v.captures| == |ps| && CapturedTotal(v) == Sum(PaymentAmount, ps)
    requires CaptureRefs(v) == {OrderRef(o)} + set p | p in ps :: PaymentRef(p)
    ensures es == OrderExceptions(run, st, v)
    ensures Marked(base, codes, OwnMarks(st, v))
  {
    es, codes := [], base;
    ghost var marks: seq<Mark> := [];
    var collected := Sum(PaymentAmount, ps);
    if o.status != Paid || !AllComplete(st, {Orders, Payments}) {
      return;
    }
    var subject, refs := RecordSubject(RecordKey(OrderType, o.orderId)), {OrderRef(o)} + set p | p in ps ::
      PaymentRef(p);
    if ps == [] {
      MarkedMore(base, codes, marks, o.orderId, MissingPayment);
      marks, codes := [(o.orderId, MissingPayment)], Put(codes, o.orderId, MissingPayment);
      es := [NewException(run, OrderPaymentExists, MissingPayment, subject, Some(o.orderTotal), Some(0),
                          {OrderRef(o)})];
    } else if collected - o.orderTotal != 0 {
      MarkedMore(base, codes, marks, o.orderId, PaymentAmountMismatch);
      marks, codes := [(o.orderId, PaymentAmountMismatch)], Put(codes, o.orderId, PaymentAmountMismatch);
      es := [NewException(run, OrderCollectionMatchesTotal, PaymentAmountMismatch, subject, Some(o.orderTotal),
                          Some(collected), refs)];
    }
    if |ps| > 1 {
      MarkedMore(base, codes, marks, o.orderId, MultipleCapture);
      marks, codes := marks + [(o.orderId, MultipleCapture)], Put(codes, o.orderId, MultipleCapture);
      es := es + [NewException(run, OrderMaximumOneCapture, MultipleCapture, subject, Some(100), Some(100 * |ps|),
                               refs)];
    }
    assert marks == OwnMarks(st, v);
  }

  method OrderRow(run: Run, st: ReportStates, o: Order, ps: seq<Payment>, refunds: seq<Refund>, fees: seq<Fee>,
                  expected: map<string, int>, own: set<ExceptionCode>, ghost v: OrderView)
    returns (row: TransactionRow)
    requires v.order == o && TotalsAgree(v, ps, refunds, fees) && own == OrderCodes(st, v)
    requires forall p :: p in ps ==> p.paymentId in expected && expected[p.paymentId] == PaymentFee(p)
    ensures row == TransactionFor(run, st, v)
  {
    var capturedTotal := Sum(PaymentAmount, ps);
    var expectedCollection := if o.status == Paid then o.orderTotal else 0;
    var paymentIds := IdsOf(ps);
    var orderRefunds := Filter(InKeys(RefundPaymentId, paymentIds), refunds);
    var orderFees := Filter(InKeys(FeePaymentId, paymentIds), fees);
    var refundTotal, reportedFeeTotal := Sum(RefundAmount, orderRefunds), Sum(FeeAmount, orderFees);
    var expectedFeeTotal := ExpectedFeeTotal(ps, expected);
    row := TransactionRow(
      run.runId, CONTRACT_VERSION, o.orderId, o.status, o.currency, expectedCollection, capturedTotal,
      capturedTotal - expectedCollection, refundTotal, expectedFeeTotal, reportedFeeTotal,
      capturedTotal - refundTotal - expectedFeeTotal, |ps|, |orderRefunds|,
      ResultState(st, TRANSACTION_REPORTS, own != {}), own);
  }

  method ExpectedFeeTotal(ps: seq<Payment>, expected: map<string, int>) returns (total: int)
    requires forall p :: p in ps ==> p.paymentId in expected && expected[p.paymentId] == PaymentFee(p)
    ensures total == Sum(PaymentFee, ps)
  {
    total := 0;
    for i := 0 to |ps|
      invariant total == Sum(PaymentFee, ps[..i])
    {
      assert ps[..i + 1][..i] == ps[..i];
      total := total + expected[ps[i].paymentId];
    }
    assert ps[..|ps|] == ps;
  }

  lemma OrderRules(run: Run, st: ReportStates, recs: Records, o: Order)
    ensures OrderRule(run, st, recs)(o) == OrderExceptions(run, st, ViewOrder(recs)(o))
    ensures TransactionRule(run, st, recs)(o) == TransactionFor(run, st, ViewOrder(recs)(o))
    ensures OrderMarks(st, recs)(o) == OwnMarks(st, ViewOrder(recs)(o))
    ensures ViewOrder(recs)(o).order == o
  {
  }

  lemma OrderStep(st: ReportStates, recs: Records, i: nat, base: Codes, was: Codes, codes: Codes)
    requires Ordered(recs) && i < |recs.orders|
    requires Marked(map[], base, EarlyMarks(st, recs))
    requires Marked(base, was, FlatMap(OrderMarks(st, recs), recs.orders[..i]))
    requires Marked(was, codes, OrderMarks(st, recs)(recs.orders[i]))
    ensures Marked(base, codes, FlatMap(OrderMarks(st, recs), recs.orders[..i + 1]))
    ensures At(codes, recs.orders[i].orderId) == OrderCodes(st, ViewOrder(recs)(recs.orders[i]))
  {
    MarkedNext(OrderMarks(st, recs), recs.orders, i, base, was, codes);
    OrderCodesComplete(st, recs, i, base, codes);
  }

  method ReconcileOrder(run: Run, st: ReportStates, ghost recs: Records, ghost i: nat, o: Order, ps: seq<Payment>,
                        refunds: seq<Refund>,
                        fees: seq<Fee>, expected: map<string, int>, ghost base: Codes, was: Codes)
    returns (row: TransactionRow, es: seq<FinancialException>, codes: Codes)
    requires Ordered(recs) && i < |recs.orders| && o == recs.orders[i] && refunds == SuccessfulRefunds(recs) &&
      fees == recs.fees
    requires ps == CapturesOf(recs, o.orderId)
    requires forall p :: p in CapturedPayments(recs) ==>
      p.paymentId in expected && expected[p.paymentId] == PaymentFee(p)
    requires Marked(map[], base, EarlyMarks(st, recs))
    requires Marked(base, was, FlatMap(OrderMarks(st, recs), recs.orders[..i]))
    ensures row == TransactionRule(run, st, recs)(o) && es == OrderRule(run, st, recs)(o)
    ensures Marked(base, codes, FlatMap(OrderMarks(st, recs), recs.orders[..i + 1]))
  {
    ghost var v := ViewOrder(recs)(o);
    OrderRules(run, st, recs, o);
    OrderTotals(recs, o);
    CaptureRefsOf(recs, o);
    forall p | p in ps
      ensures p in CapturedPayments(recs)
    {
      CapturesOfMember(recs, o.orderId, p);
    }
    es, codes := CheckOrder(run, st, o, ps, v, was);
    OrderStep(st, recs, i, base, was, codes);
    row := OrderRow(run, st, o, ps, refunds, fees, expected, At(codes, o.orderId), v);
  }

  method ReconcileOrders(run: Run, st: ReportStates, ghost recs: Records, orders: seq<Order>,
                         payments: map<string, seq<Payment>>,
                         refunds: seq<Refund>, fees: seq<Fee>, expected: map<string, int>, base: Codes)
    returns (rows: seq<TransactionRow>, es: seq<FinancialException>)
    requires Ordered(recs) && orders == recs.orders && refunds == SuccessfulRefunds(recs) && fees == recs.fees
    requires Grouped(PaymentOrderId, CapturedPayments(recs), payments)
    requires forall p :: p in CapturedPayments(recs) ==>
      p.paymentId in expected && expected[p.paymentId] == PaymentFee(p)
    requires Marked(map[], base, EarlyMarks(st, recs))
    ensures rows == Transactions(run, st, recs)
    ensures es == FlatMap(OrderRule(run, st, recs), orders)
  {
    rows, es := [], [];
    var codes := base;
    for i := 0 to |orders|
      invariant rows == Map(TransactionRule(run, st, recs), orders[..i])
      invariant es == FlatMap(OrderRule(run, st, recs), orders[..i])
      invariant Marked(base, codes, FlatMap(OrderMarks(st, recs), orders[..i]))
    {
      var row: TransactionRow, more: seq<FinancialException>;
      row, more, codes :=
        ReconcileOrder(run, st, recs, i, orders[i], Get(payments, orders[i].orderId), refunds, fees, expected, base,
                       codes);
      assert orders[..i + 1] == orders[..i] + [orders[i]];
      FlatMapAppend(OrderRule(run, st, recs), orders[..i], orders[i]);
      MapAppend(TransactionRule(run, st, recs), orders[..i], orders[i]);
      rows, es := rows + [row], es + more;
    }
    assert orders[..|orders|] == orders;
  }

  /** When an order is visited, the dictionary holds exactly the codes of its view. */
  lemma OrderCodesComplete(st: ReportStates, recs: Records, i: nat, base: Codes, codes: Codes)
    requires Ordered(recs) && i < |recs.orders|
    requires Marked(map[], base, EarlyMarks(st, recs))
    requires Marked(base, codes, FlatMap(OrderMarks(st, recs), recs.orders[..i + 1]))
    ensures At(codes, recs.orders[i].orderId) == OrderCodes(st, ViewOrder(recs)(recs.orders[i]))
  {
    forall c
      ensures c in At(codes, recs.orders[i].orderId) <==> OrderRaises(st, ViewOrder(recs)(recs.orders[i]), c)
    {
      OrderMarksMeaning(st, recs, i, c);
      assert c in At(base, recs.orders[i].orderId) <==> (recs.orders[i].orderId, c) in EarlyMarks(st, recs);
    }
  }

  // ---- Expected movements ----

  method BuildCaptureMovements(ghost recs: Records, captured: seq<Payment>, fees: map<string, seq<Fee>>,
                               expected: map<string, int>)
    returns (ok: bool, movements: seq<ExpectedMovement>)
    requires Grouped(FeePaymentId, recs.fees, fees)
    requires forall p :: p in captured ==> p.paymentId in expected && expected[p.paymentId] == PaymentFee(p)
    ensures ok <==> forall p :: p in captured ==> p.availableOn.Some?
    ensures ok ==> movements == FlatMap(MovementsOfCapture(recs), captured)
  {
    movements := [];
    for i := 0 to |captured|
      invariant forall j :: 0 <= j < i ==> captured[j].availableOn.Some?
      invariant movements == FlatMap(MovementsOfCapture(recs), captured[..i])
    {
      var p := captured[i];
      if p.availableOn.None? {
        return false, [];
      }
      assert captured[..i + 1] == captured[..i] + [p];
      FlatMapAppend(MovementsOfCapture(recs), captured[..i], p);
      var pair := CaptureAndFee(recs, p, fees, expected[p.paymentId]);
      movements := movements + pair;
    }
    assert captured[..|captured|] == captured;
    ok := true;
  }

  /** The capture movement and its fee movement, named after the fee record only when there is exactly one. */
  method CaptureAndFee(ghost recs: Records, p: Payment, fees: map<string, seq<Fee>>, scheduled: int)
    returns (ms: seq<ExpectedMovement>)
    requires Grouped(FeePaymentId, recs.fees, fees)
    requires p.availableOn.Some? && scheduled == PaymentFee(p)
    ensures ms == MovementsOfCapture(recs)(p)
  {
    var related := Get(fees, p.paymentId);
    assert ViewCapture(recs)(p).fees == related;
    var feeId := if |related| == 1 then related[0].feeId else SyntheticFeeId(p.paymentId);
    ms := [ExpectedMovement(CaptureMovement, p.paymentId, p.availableOn.value, p.amount, [PaymentRef(p)]),
           ExpectedMovement(FeeMovement, feeId, p.availableOn.value, -scheduled,
                            [PaymentRef(p)] + Map(FeeRef, related))];
  }

  method BuildRefundMovements(refunds: seq<Refund>) returns (ok: bool, movements: seq<ExpectedMovement>)
    ensures ok <==> forall f :: f in refunds ==> f.availableOn.Some?
    ensures ok ==> movements == Map(RefundMovementOf, refunds)
  {
    movements := [];
    for i := 0 to |refunds|
      invariant forall j :: 0 <= j < i ==> refunds[j].availableOn.Some?
      invariant movements == Map(RefundMovementOf, refunds[..i])
    {
      var f := refunds[i];
      if f.availableOn.None? {
        return false, [];
      }
      assert refunds[..i + 1] == refunds[..i] + [f];
      MapAppend(RefundMovementOf, refunds[..i], f);
      movements := movements
        + [ExpectedMovement(RefundMovement, f.refundId, f.availableOn.value, -f.amount, [RefundRef(f)])];
    }
    assert refunds[..|refunds|] == refunds;
    ok := true;
  }

  method BuildMovements(recs: Records, fees: map<string, seq<Fee>>, expected: map<string, int>)
    returns (r: Result<seq<ExpectedMovement>, ReconcileError>)
    requires Grouped(FeePaymentId, recs.fees, fees)
    requires forall p :: p in CapturedPayments(recs) ==>
      p.paymentId in expected && expected[p.paymentId] == PaymentFee(p)
    ensures r == if !CapturesDated(recs) then Failure(CaptureWithoutDate)
                 else if !RefundsDated(recs) then Failure(RefundWithoutDate)
                 else Success(Movements(recs))
  {
    var ok, captures := BuildCaptureMovements(recs, CapturedPayments(recs), fees, expected);
    if !ok {
      return Failure(CaptureWithoutDate);
    }
    var refunds: seq<ExpectedMovement>;
    ok, refunds := BuildRefundMovements(SuccessfulRefunds(recs));
    if !ok {
      return Failure(RefundWithoutDate);
    }
    r := Success(Sort(MovementKey, captures + refunds));
  }

  // ---- Settlement allocation ----

  lemma AllocatedIs(recs: Records, keys: seq<MovementRef>)
    requires StrictlySorted(AllocationKey, keys)
    requires forall k :: k in keys <==> k in Map(LineMovement, recs.lines)
    ensures keys == AllocatedMovements(recs)
  {
    var names := KeepLast(Identity, Map(LineMovement, recs.lines));
    KeepLastEntries(Identity, Map(LineMovement, recs.lines));
    forall i, j | 0 <= i < j < |names|
      ensures AllocationKey(names[i]) != AllocationKey(names[j])
    {
      assert Identity(names[i]) != Identity(names[j]);
      if AllocationKey(names[i]) == AllocationKey(names[j]) {
        AllocationKeyInjective(names[i], names[j]);
      }
    }
    SortStrict(AllocationKey, names);
    SortMembers(AllocationKey, names);
    var sorted := Sort(AllocationKey, names);
    forall k
      ensures k in keys <==> k in sorted
    {
      KeepLastHas(Map(LineMovement, recs.lines), k);
    }
    StrictlySortedUnique(AllocationKey, keys, sorted);
  }

  method SortedMovementKeys(ghost recs: Records, byMovement: map<MovementRef, seq<SettlementLine>>)
    returns (keys: seq<MovementRef>)
    requires forall k :: k in byMovement <==> exists i :: 0 <= i < |recs.lines| && LineMovement(recs.lines[i]) == k
    ensures keys == AllocatedMovements(recs)
  {
    forall j, k | j in byMovement.Keys && k in byMovement.Keys && AllocationKey(j) == AllocationKey(k)
      ensures j == k
    {
      AllocationKeyInjective(j, k);
    }
    keys := SortedList(AllocationKey, byMovement.Keys);
    forall k
      ensures k in keys <==> k in Map(LineMovement, recs.lines)
    {
      if k in byMovement {
        var i :| 0 <= i < |recs.lines| && LineMovement(recs.lines[i]) == k;
        assert Map(LineMovement, recs.lines)[i] == k;
      }
    }
    AllocatedIs(recs, keys);
  }

  method CheckAllocation(run: Run, st: ReportStates, ghost recs: Records, k: MovementRef,
                         byMovement: map<MovementRef, seq<SettlementLine>>, base: Codes)
    returns (es: seq<FinancialException>, codes: Codes)
    requires Grouped(LineMovement, recs.lines, byMovement)
    ensures es == AllocationRule(run, st, recs)(k)
    ensures Marked(base, codes, AllocationMarks(st, recs)(k))
  {
    var matching := Get(byMovement, k);
    ghost var v := ViewAllocation(recs)(k);
    assert v == AllocationView(k.kind, k.id, matching);
    es, codes := [], base;
    if st.lines == Complete && |matching| > 1 {
      es := [NewException(run, SettlementUniqueMovementAllocation, DuplicateSettlementMovement,
                          SettlementMovementSubject(k.kind, k.id),
                          None, Some(100 * |matching|), set l | l in matching :: LineRef(l))];
      codes := MarkLines(matching, codes);
    }
    assert es == AllocationExceptions(run, st, v);
    assert Marked(base, codes, SharedMarks(st, v));
  }

  method CheckAllocations(run: Run, st: ReportStates, ghost recs: Records,
                          byMovement: map<MovementRef, seq<SettlementLine>>)
    returns (es: seq<FinancialException>, codes: Codes)
    requires Grouped(LineMovement, recs.lines, byMovement)
    requires forall k :: k in byMovement <==> exists i :: 0 <= i < |recs.lines| && LineMovement(recs.lines[i]) == k
    ensures es == FlatMap(AllocationRule(run, st, recs), AllocatedMovements(recs))
    ensures Marked(map[], codes, FlatMap(AllocationMarks(st, recs), AllocatedMovements(recs)))
  {
    var keys := SortedMovementKeys(recs, byMovement);
    es, codes := [], map[];
    for i := 0 to |keys|
      invariant es == FlatMap(AllocationRule(run, st, recs), keys[..i])
      invariant Marked(map[], codes, FlatMap(AllocationMarks(st, recs), keys[..i]))
    {
      ghost var was := codes;
      var more: seq<FinancialException>;
      more, codes := CheckAllocation(run, st, recs, keys[i], byMovement, codes);
      assert keys[..i + 1] == keys[..i] + [keys[i]];
      FlatMapAppend(AllocationRule(run, st, recs), keys[..i], keys[i]);
      MarkedNext(AllocationMarks(st, recs), keys, i, map[], was, codes);
      es := es + more;
    }
    assert keys[..|keys|] == keys;
  }

  method MarkLines(lines: seq<SettlementLine>, base: Codes) returns (codes: Codes)
    ensures Marked(base, codes, Map(LineMark(DuplicateSettlementMovement), lines))
  {
    codes := base;
    for i := 0 to |lines|
      invariant Marked(base, codes, Map(LineMark(DuplicateSettlementMovement), lines[..i]))
    {
      assert lines[..i + 1][..i] == lines[..i];
      MarkedMore(base, codes, Map(LineMark(DuplicateSettlementMovement), lines[..i]), lines[i].payoutId,
                 DuplicateSettlementMovement);
      codes := Put(codes, lines[i].payoutId, DuplicateSettlementMovement);
    }
    assert lines[..|lines|] == lines;
  }

  // ---- Payouts ----

  /** `v` is the payout's view over these movements, lines and fee records. */
  ghost predicate SeesPayout(v: PayoutView, p: Payout, due: seq<ExpectedMovement>, lines: seq<SettlementLine>,
                             fees: map<string, Fee>) {
    v.payout == p && v.lines == lines && |v.due| == |due| &&
    forall i :: 0 <= i < |due| ==>
      v.due[i] == DueView(due[i], if due[i].kind == FeeMovement &&
                          Carriers(lines, due[i]) != [] then Find(fees, due[i].id) else None)
  }

  method CheckDue(run: Run, p: Payout, due: seq<ExpectedMovement>, lines: seq<SettlementLine>, fees: map<string, Fee>,
                  ghost v: PayoutView, base: Codes)
    returns (es: seq<FinancialException>, codes: Codes)
    requires SeesPayout(v, p, due, lines, fees)
    ensures es == FlatMap(DueRule(run, v.lines), v.due)
    ensures Marked(base, codes, FlatMap(DueMarks(p.payoutId, v.lines), v.due))
  {
    es, codes := [], base;
    var byMovement := GroupBy(LineMovement, lines);
    for i := 0 to |due|
      invariant es == FlatMap(DueRule(run, v.lines), v.due[..i])
      invariant Marked(base, codes, FlatMap(DueMarks(p.payoutId, v.lines), v.due[..i]))
    {
      var m := due[i];
      ghost var d := v.due[i];
      assert v.due[..i + 1] == v.due[..i] + [d];
      FlatMapAppend(DueRule(run, v.lines), v.due[..i], d);
      FlatMapAppend(DueMarks(p.payoutId, v.lines), v.due[..i], d);
      ghost var marks := FlatMap(DueMarks(p.payoutId, v.lines), v.due[..i]);
      var matching := Get(byMovement, MovementName(m));
      assert matching == Carriers(lines, m);
      var more, marked := CheckDueMovement(run, m, matching, lines, fees, d);
      es := es + more;
      if marked.Some? {
        MarkedMore(base, codes, marks, p.payoutId, marked.value);
        codes := Put(codes, p.payoutId, marked.value);
      }
    }
    assert v.due[..|due|] == v.due;
  }

  method CheckDueMovement(run: Run, m: ExpectedMovement, matching: seq<SettlementLine>,
                          ghost lines: seq<SettlementLine>,
                          fees: map<string, Fee>, ghost d: DueView)
    returns (es: seq<FinancialException>, mark: Option<ExceptionCode>)
    requires matching == Carriers(lines, m)
    requires d == DueView(m, if m.kind == FeeMovement && matching != [] then Find(fees, m.id) else None)
    ensures es == DueExceptions(run, lines, d)
    ensures forall payoutId :: DueMark(payoutId, lines, d) == if mark.Some? then [(payoutId, mark.value)] else []
  {
    var support := set r | r in m.support;
    if matching == [] {
      return [NewException(run, SettlementExpectedMovementExists, MissingSettlementLine,
                           ExpectedMovementSubject(m.kind, m.id),
                           Some(m.amount), Some(0), support)], Some(MissingSettlementLine);
    }
    if |matching| == 1 {
      var line, amount := matching[0], m.amount;
      if m.kind == FeeMovement {
        var reported := Find(fees, m.id);
        if reported.Some? {
          amount := -reported.value.amount;
        }
      }
      assert amount == ExpectedLineAmount(d);
      if line.signedAmount != amount {
        return [NewException(run, SettlementAmountMatchesReportedSource, SettlementLineAmountMismatch,
                             RecordSubject(RecordKey(SettlementLineType, line.lineId)), Some(amount),
                             Some(line.signedAmount),
                             support + {LineRef(line)})], Some(SettlementLineAmountMismatch);
      }
    }
    es, mark := [], None;
  }

  lemma DueMovementsOf(v: PayoutView, p: Payout, due: seq<ExpectedMovement>, lines: seq<SettlementLine>,
                       fees: map<string, Fee>)
    requires SeesPayout(v, p, due, lines, fees)
    ensures Map(DueMovement, v.due) == due
  {
  }

  method CheckPayout(run: Run, st: ReportStates, p: Payout, due: seq<ExpectedMovement>, lines: seq<SettlementLine>,
                     fees: map<string, Fee>,
                     ghost v: PayoutView, base: Codes)
    returns (es: seq<FinancialException>, codes: Codes)
    requires SeesPayout(v, p, due, lines, fees)
    ensures es == PayoutExceptions(run, st, v)
    ensures Marked(base, codes, HeaderMarks(st, v))
  {
    es, codes := [], base;
    ghost var marks: seq<Mark> := [];
    if AllComplete(st, MOVEMENT_REPORTS) {
      es, codes := CheckDue(run, p, due, lines, fees, v, base);
      marks := FlatMap(DueMarks(p.payoutId, v.lines), v.due);
    }
    var lineTotal := Sum(LineAmount, lines);
    if AllComplete(st, {SettlementLines, Payouts}) && p.reportedNet - lineTotal != 0 {
      MarkedMore(base, codes, marks, p.payoutId, PayoutTotalMismatch);
      codes := Put(codes, p.payoutId, PayoutTotalMismatch);
      es := es + [NewException(run, PayoutHeaderMatchesLines, PayoutTotalMismatch,
                               RecordSubject(RecordKey(PayoutType, p.payoutId)),
                               Some(lineTotal), Some(p.reportedNet), {PayoutRef(p)} + set l | l in lines ::
                               LineRef(l))];
    }
  }

  method BuildPayoutRow(run: Run, st: ReportStates, p: Payout, due: seq<ExpectedMovement>, lines: seq<SettlementLine>,
                        ghost v: PayoutView, own: set<ExceptionCode>)
    returns (row: PayoutRow)
    requires v.payout == p && v.lines == lines && Map(DueMovement, v.due) == due && own == PayoutCodes(st, v)
    ensures row == PayoutFor(run, st, v)
  {
    var expected, lineTotal := Sum(MovementAmount, due), Sum(LineAmount, lines);
    var endToEnd := p.reportedNet - expected;
    row := PayoutRow(run.runId, CONTRACT_VERSION, p.payoutId, p.payoutDate, p.currency, expected, lineTotal,
                     p.reportedNet,
                     p.reportedNet - lineTotal, endToEnd, |due|, |lines|,
                     ResultState(st, PAYOUT_REPORTS, own != {} || endToEnd != 0), own);
  }

  lemma PayoutSeen(recs: Records, p: Payout, fees: map<string, Fee>)
    requires Indexed(FeeId, recs.fees, fees)
    ensures SeesPayout(ViewPayout(recs)(p), p, DueOn(recs, p.payoutDate), LinesOf(recs, p.payoutId), fees)
  {
    var lines, due, v := LinesOf(recs, p.payoutId), DueOn(recs, p.payoutDate), ViewPayout(recs)(p);
    assert v.due == Map(ViewDue(recs, lines), due);
    forall i | 0 <= i < |due|
      ensures v.due[i] == DueView(due[i], if due[i].kind == FeeMovement &&
                                  Carriers(lines, due[i]) != [] then Find(fees, due[i].id) else None)
    {
      assert v.due[i] == ViewDue(recs, lines)(due[i]);
    }
  }

  lemma PayoutCodesComplete(st: ReportStates, recs: Records, i: nat, base: Codes, codes: Codes)
    requires Ordered(recs) && i < |recs.payouts|
    requires Marked(map[], base, FlatMap(AllocationMarks(st, recs), AllocatedMovements(recs)))
    requires Marked(base, codes, FlatMap(PayoutMarks(st, recs), recs.payouts[..i + 1]))
    ensures At(codes, recs.payouts[i].payoutId) == PayoutCodes(st, ViewPayout(recs)(recs.payouts[i]))
  {
    var p := recs.payouts[i];
    forall c
      ensures c in At(codes, p.payoutId) <==> PayoutRaises(st, ViewPayout(recs)(p), c)
    {
      PayoutMarksMeaning(st, recs, i, c);
      assert c in At(base, p.payoutId) <==>
        (p.payoutId, c) in FlatMap(AllocationMarks(st, recs), AllocatedMovements(recs));
    }
  }

  lemma PayoutStep(run: Run, st: ReportStates, recs: Records, i: nat, base: Codes, was: Codes, codes: Codes)
    requires Ordered(recs) && i < |recs.payouts|
    requires Marked(map[], base, FlatMap(AllocationMarks(st, recs), AllocatedMovements(recs)))
    requires Marked(base, was, FlatMap(PayoutMarks(st, recs), recs.payouts[..i]))
    requires Marked(was, codes, PayoutMarks(st, recs)(recs.payouts[i]))
    ensures Marked(base, codes, FlatMap(PayoutMarks(st, recs), recs.payouts[..i + 1]))
    ensures At(codes, recs.payouts[i].payoutId) == PayoutCodes(st, ViewPayout(recs)(recs.payouts[i]))
  {
    MarkedNext(PayoutMarks(st, recs), recs.payouts, i, base, was, codes);
    PayoutCodesComplete(st, recs, i, base, codes);
  }

  lemma PayoutRules(run: Run, st: ReportStates, recs: Records, p: Payout)
    ensures PayoutRule(run, st, recs)(p) == PayoutExceptions(run, st, ViewPayout(recs)(p))
    ensures PayoutRowRule(run, st, recs)(p) == PayoutFor(run, st, ViewPayout(recs)(p))
    ensures PayoutMarks(st, recs)(p) == HeaderMarks(st, ViewPayout(recs)(p))
  {
  }

  /** The dictionaries the payout pass reads. */
  ghost predicate SettlementIndex(recs: Records, movements: map<int, seq<ExpectedMovement>>,
                                  lines: map<string, seq<SettlementLine>>,
                                  fees: map<string, Fee>)
  {
    Grouped(MovementDay, Movements(recs), movements) && Grouped(LinePayoutId, recs.lines, lines) &&
    Indexed(FeeId, recs.fees, fees)
  }

  lemma IndexFinds(recs: Records, movements: map<int, seq<ExpectedMovement>>, lines: map<string, seq<SettlementLine>>,
                   fees: map<string, Fee>, p: Payout)
    requires SettlementIndex(recs, movements, lines, fees)
    ensures Get(movements, p.payoutDate) == DueOn(recs, p.payoutDate) &&
      Get(lines, p.payoutId) == LinesOf(recs, p.payoutId)
    ensures Indexed(FeeId, recs.fees, fees)
  {
  }

  method ReconcilePayout(run: Run, st: ReportStates, ghost recs: Records, ghost i: nat, p: Payout,
                         movements: map<int, seq<ExpectedMovement>>,
                         lines: map<string, seq<SettlementLine>>, fees: map<string, Fee>, ghost base: Codes, was: Codes)
    returns (row: PayoutRow, es: seq<FinancialException>, codes: Codes)
    requires Ordered(recs) && i < |recs.payouts| && p == recs.payouts[i]
    requires SettlementIndex(recs, movements, lines, fees)
    requires Marked(map[], base, FlatMap(AllocationMarks(st, recs), AllocatedMovements(recs)))
    requires Marked(base, was, FlatMap(PayoutMarks(st, recs), recs.payouts[..i]))
    ensures row == PayoutRowRule(run, st, recs)(p) && es == PayoutRule(run, st, recs)(p)
    ensures Marked(base, codes, FlatMap(PayoutMarks(st, recs), recs.payouts[..i + 1]))
  {
    ghost var v := ViewPayout(recs)(p);
    var due, carried := Get(movements, p.payoutDate), Get(lines, p.payoutId);
    IndexFinds(recs, movements, lines, fees, p);
    PayoutSeen(recs, p, fees);
    DueMovementsOf(v, p, due, carried, fees);
    PayoutRules(run, st, recs, p);
    es, codes := CheckPayout(run, st, p, due, carried, fees, v, was);
    PayoutStep(run, st, recs, i, base, was, codes);
    row := BuildPayoutRow(run, st, p, due, carried, v, At(codes, p.payoutId));
  }

  method ReconcilePayouts(run: Run, st: ReportStates, ghost recs: Records, payouts: seq<Payout>,
                          movements: map<int, seq<ExpectedMovement>>,
                          lines: map<string, seq<SettlementLine>>, fees: map<string, Fee>, base: Codes)
    returns (rows: seq<PayoutRow>, es: seq<FinancialException>)
    requires Ordered(recs) && payouts == recs.payouts
    requires SettlementIndex(recs, movements, lines, fees)
    requires Marked(map[], base, FlatMap(AllocationMarks(st, recs), AllocatedMovements(recs)))
    ensures rows == PayoutRows(run, st, recs)
    ensures es == FlatMap(PayoutRule(run, st, recs), payouts)
  {
    UnmarkedSoFar(PayoutMarks(st, recs), payouts, base);
    rows, es := [], [];
    var codes := base;
    for i := 0 to |payouts|
      invariant rows == Map(PayoutRowRule(run, st, recs), payouts[..i])
      invariant es == FlatMap(PayoutRule(run, st, recs), payouts[..i])
      invariant Marked(base, codes, FlatMap(PayoutMarks(st, recs), payouts[..i]))
    {
      var p := payouts[i];
      var row: PayoutRow, more: seq<FinancialException>;
      row, more, codes := ReconcilePayout(run, st, recs, i, p, movements, lines, fees, base, codes);
      assert payouts[..i + 1] == payouts[..i] + [p];
      FlatMapAppend(PayoutRule(run, st, recs), payouts[..i], p);
      MapAppend(PayoutRowRule(run, st, recs), payouts[..i], p);
      rows, es := rows + [row], es + more;
    }
    assert payouts[..|payouts|] == payouts;
  }

  /** Whether some date has more than one canonical payout. */
  method DuplicatePayoutDates(ghost recs: Records, payouts: seq<Payout>) returns (found: bool)
    requires Ordered(recs) && payouts == recs.payouts
    ensures found <==> !OnePayoutPerDate(payouts)
  {
    var byDate := GroupBy(PayoutDate, payouts);
    found := exists d :: d in byDate && |byDate[d]| > 1;
    PayoutDatesShared(payouts, byDate);
  }

  lemma PayoutDatesShared(ps: seq<Payout>, byDate: map<int, seq<Payout>>)
    requires StrictlySorted(PayoutKey, ps) && Grouped(PayoutDate, ps, byDate)
    ensures (exists d :: d in byDate && |byDate[d]| > 1) <==> !OnePayoutPerDate(ps)
  {
    if d :| d in byDate && |byDate[d]| > 1 {
      assert Get(byDate, d) == Filter(KeyIs(PayoutDate, d), ps);
      SharedDate(ps, d);
    }
    if !OnePayoutPerDate(ps) {
      var p, q :| p in ps && q in ps && p.payoutDate == q.payoutDate && p != q;
      TwoOnDate(ps, p, q);
      assert Get(byDate, p.payoutDate) == Filter(KeyIs(PayoutDate, p.payoutDate), ps);
    }
  }

  lemma SharedDate(ps: seq<Payout>, d: int)
    requires StrictlySorted(PayoutKey, ps) && |Filter(KeyIs(PayoutDate, d), ps)| > 1
    ensures !OnePayoutPerDate(ps)
  {
    var run := Filter(KeyIs(PayoutDate, d), ps);
    FilterStrict(PayoutKey, KeyIs(PayoutDate, d), ps);
    StrictNoRepeats(PayoutKey, run);
    FilterMember(KeyIs(PayoutDate, d), ps, run[0]);
    FilterMember(KeyIs(PayoutDate, d), ps, run[1]);
    assert PayoutDate(run[0]) == d && PayoutDate(run[1]) == d;
    assert run[0] != run[1];
  }

  lemma TwoOnDate(ps: seq<Payout>, p: Payout, q: Payout)
    requires p in ps && q in ps && p.payoutDate == q.payoutDate && p != q
    ensures |Filter(KeyIs(PayoutDate, p.payoutDate), ps)| > 1
  {
    var run := Filter(KeyIs(PayoutDate, p.payoutDate), ps);
    assert PayoutDate(p) == p.payoutDate && PayoutDate(q) == p.payoutDate;
    FilterMember(KeyIs(PayoutDate, p.payoutDate), ps, p);
    FilterMember(KeyIs(PayoutDate, p.payoutDate), ps, q);
    var i :| 0 <= i < |run| && run[i] == p;
    var j :| 0 <= j < |run| && run[j] == q;
  }

  // ---- The whole run ----

  lemma FeesDistinct(recs: Records)
    requires Ordered(recs)
    ensures forall p, q :: p in CapturedPayments(recs) && q in CapturedPayments(recs) && p.paymentId == q.paymentId ==>
      p == q
  {
    OrderCapturesDistinct(recs, "");
  }

  /** Payments, refunds, fees and orders: the transaction rows and the exceptions found on the way. */
  method ReconcileSales(run: Run, st: ReportStates, recs: Records, feesByPayment: map<string, seq<Fee>>,
                        expected: map<string, int>)
    returns (transactions: seq<TransactionRow>, es: seq<FinancialException>)
    requires Ordered(recs) && Grouped(FeePaymentId, recs.fees, feesByPayment)
    requires forall p :: p in CapturedPayments(recs) ==>
      p.paymentId in expected && expected[p.paymentId] == PaymentFee(p)
    ensures transactions == Transactions(run, st, recs)
    ensures es == SalesExceptions(run, st, recs)
  {
    var orders := IndexBy(OrderId, recs.orders);
    var payments := IndexBy(PaymentId, recs.payments);
    var captured := CapturedPayments(recs);
    var capturedByOrder := GroupBy(PaymentOrderId, captured);
    var refunds := SuccessfulRefunds(recs);
    var refundsByPayment := GroupBy(RefundPaymentId, refunds);

    var linkExceptions, c1 := CheckPaymentLinks(run, st, recs, captured, orders, map[]);
    var refundExceptions, c2 := CheckRefundLinks(run, st, recs, refunds, payments, c1);
    var excessExceptions, c3 := CheckRefundTotals(run, st, recs, captured, refundsByPayment, c2);
    var feeExceptions, c4 := CheckFeeAmounts(run, st, recs, captured, feesByPayment, expected, c3);
    var unexpectedExceptions := CheckFeeLinks(run, st, recs, recs.fees, payments);
    EarlyMarked(st, recs, c1, c2, c3, c4);
    var orderExceptions: seq<FinancialException>;
    transactions, orderExceptions :=
      ReconcileOrders(run, st, recs, recs.orders, capturedByOrder, refunds, recs.fees, expected, c4);
    es := linkExceptions + refundExceptions + excessExceptions + feeExceptions + unexpectedExceptions + orderExceptions;
  }

  /** Settlement lines and payouts: the payout rows, or nothing when a date has several payouts. */
  method ReconcileSettlement(run: Run, st: ReportStates, recs: Records, movements: seq<ExpectedMovement>)
    returns (ok: bool, payouts: seq<PayoutRow>, es: seq<FinancialException>)
    requires Ordered(recs) && movements == Movements(recs)
    ensures ok <==> OnePayoutPerDate(recs.payouts)
    ensures ok ==> payouts == PayoutRows(run, st, recs) && es == SettlementExceptions(run, st, recs)
  {
    var fees := IndexBy(FeeId, recs.fees);
    var linesByMovement := GroupBy(LineMovement, recs.lines);
    var linesByPayout := GroupBy(LinePayoutId, recs.lines);
    var allocationExceptions, payoutCodes := CheckAllocations(run, st, recs, linesByMovement);
    var movementsByDate := GroupBy(MovementDay, movements);
    var duplicate := DuplicatePayoutDates(recs, recs.payouts);
    if duplicate {
      return false, [], [];
    }
    var payoutExceptions: seq<FinancialException>;
    payouts, payoutExceptions :=
      ReconcilePayouts(run, st, recs, recs.payouts, movementsByDate, linesByPayout, fees, payoutCodes);
    ok, es := true, allocationExceptions + payoutExceptions;
  }

  function SalesExceptions(run: Run, st: ReportStates, recs: Records): seq<FinancialException> {
    FlatMap(PaymentLinkRule(run, st, recs), CapturedPayments(recs))
    + FlatMap(RefundLinkRule(run, st, recs), SuccessfulRefunds(recs))
    + FlatMap(ExcessRefundRule(run, st, recs), CapturedPayments(recs))
    + FlatMap(FeeAmountRule(run, st, recs), CapturedPayments(recs))
    + FlatMap(FeeLinkRule(run, st, recs), recs.fees)
    + FlatMap(OrderRule(run, st, recs), recs.orders)
  }

  function SettlementExceptions(run: Run, st: ReportStates, recs: Records): seq<FinancialException> {
    FlatMap(AllocationRule(run, st, recs), AllocatedMovements(recs)) + FlatMap(PayoutRule(run, st, recs), recs.payouts)
  }

  lemma ExceptionsJoin(run: Run, st: ReportStates, recs: Records)
    ensures SalesExceptions(run, st, recs) + SettlementExceptions(run, st, recs) == RecordExceptions(run, st, recs)
  {
  }

  /** Everything derived from the records. A failing check stops the run before the later ones. */
  method ReconcileRecords(run: Run, st: ReportStates, recs: Records)
    returns (r: Result<(seq<TransactionRow>, seq<ExpectedMovement>, seq<PayoutRow>, seq<FinancialException>),
                       ReconcileError>)
    requires Ordered(recs)
    ensures RecordRejection(recs).Some? ==> r == Failure(RecordRejection(recs).value)
    ensures RecordRejection(recs).None? ==>
      r == Success((Transactions(run, st, recs), Movements(recs), PayoutRows(run, st, recs),
                    RecordExceptions(run, st, recs)))
  {
    var feesByPayment := GroupBy(FeePaymentId, recs.fees);
    FeesDistinct(recs);
    var ok, expected := ExpectedFees(CapturedPayments(recs));
    if !ok {
      return Failure(FeeNotCalculable);
    }
    var transactions, sales := ReconcileSales(run, st, recs, feesByPayment, expected);
    var movements := BuildMovements(recs, feesByPayment, expected);
    if movements.Failure? {
      return Failure(movements.error);
    }
    var payoutRows: seq<PayoutRow>, settlement: seq<FinancialException>;
    ok, payoutRows, settlement := ReconcileSettlement(run, st, recs, movements.value);
    if !ok {
      return Failure(SeveralPayoutsOnOneDate);
    }
    ExceptionsJoin(run, st, recs);
    r := Success((transactions, movements.value, payoutRows, sales + settlement));
  }

  lemma EarlyMarked(st: ReportStates, recs: Records, c1: Codes, c2: Codes, c3: Codes, c4: Codes)
    requires Marked(map[], c1, FlatMap(PaymentLinkMarks(st, recs), CapturedPayments(recs)))
    requires Marked(c1, c2, FlatMap(RefundLinkMarks(st, recs), SuccessfulRefunds(recs)))
    requires Marked(c2, c3, FlatMap(ExcessRefundMarks(st, recs), CapturedPayments(recs)))
    requires Marked(c3, c4, FlatMap(FeeAmountMarks(st, recs), CapturedPayments(recs)))
    ensures Marked(map[], c4, EarlyMarks(st, recs))
  {
    var m1, m2 := FlatMap(PaymentLinkMarks(st, recs), CapturedPayments(recs)),
      FlatMap(RefundLinkMarks(st, recs), SuccessfulRefunds(recs));
    var m3, m4 := FlatMap(ExcessRefundMarks(st, recs), CapturedPayments(recs)),
      FlatMap(FeeAmountMarks(st, recs), CapturedPayments(recs));
    MarkedChain(map[], c1, c2, m1, m2);
    MarkedChain(map[], c2, c3, m1 + m2, m3);
    MarkedChain(map[], c3, c4, m1 + m2 + m3, m4);
  }

  /** The reconciler computes the per-entity result, or rejects for the first failing check. */
  method Reconcile(run: Run, records: seq<FinancialRecord>, conflicts: seq<Conflict>,
                   completeness: seq<CompletenessResult>)
    returns (r: Result<ReconciliationResult, ReconcileError>)
    requires UniqueIdentities(records)
    ensures r == ResultFor(run, records, conflicts, completeness)
  {
    if !TrimmedRunId(run.runId) {
      return Failure(InvalidRunId);
    }
    var sorted := Sort(StatusKey, completeness);
    var states := BuildReportStateMap(sorted);
    if states.Failure? {
      return Failure(states.error);
    }
    var recs := SplitCanonicalRecords(records);
    SplitOrdered(records);
    var completenessExceptions := SourceCompletenessExceptions(run, sorted);
    var conflictExceptions := CanonicalConflictExceptions(run, conflicts);
    var derived := ReconcileRecords(run, states.value, recs);
    if derived.Failure? {
      return Failure(derived.error);
    }
    var (transactions, movements, payouts, exceptions) := derived.value;
    r := Success(ReconciliationResult(
      run, CONTRACT_VERSION, transactions, movements, payouts,
      Sort(ExceptionKey, KeepLast(ExceptionId, completenessExceptions + conflictExceptions + exceptions)),
      Map(StatusOf, sorted)));
  }

  /** The whole call: quarantined rows are carried into the result, sorted and none lost, and decide nothing in it. */
  method ReconcileRun(run: Run, records: seq<FinancialRecord>, conflicts: seq<Conflict>,
                      completeness: seq<CompletenessResult>, quarantine: seq<QuarantinedRecord>)
    returns (r: Result<(ReconciliationResult, seq<QuarantinedRecord>), ReconcileError>)
    requires UniqueIdentities(records)
    ensures r.Failure? ==> ResultFor(run, records, conflicts, completeness) == Failure(r.error)
    ensures r.Success? ==> ResultFor(run, records, conflicts, completeness) == Success(r.value.0)
    ensures r.Success? ==> Sorted(QuarantineKey, r.value.1) && multiset(r.value.1) == multiset(quarantine)
  {
    var reconciled := Reconcile(run, records, conflicts, completeness);
    if reconciled.Failure? {
      return Failure(reconciled.error);
    }
    SortSorted(QuarantineKey, quarantine);
    SortElements(QuarantineKey, quarantine);
    r := Success((reconciled.value, Sort(QuarantineKey, quarantine)));
  }
}
