/** The reconciler collects blocking codes in dictionaries while it passes over payments, refunds, fees,
    orders, movements and payouts. This module states what each pass marks and proves that, put
    together, the marks of an order or payout are exactly the codes its own view calls for. */
module Marks {
  import opened Sequences
  import opened Contracts
  import opened Money
  import opened Rules
  import opened Ledger
  import opened Reconciliation

  type Mark = (string, ExceptionCode)

  // ---- Marks of one view ----

  function LinkMarks(st: ReportStates, v: CaptureView): seq<Mark> {
    if AllComplete(st, {Orders, Payments}) && v.order.Some? && v.order.value.status == Cancelled
    then [(v.order.value.orderId, CaptureForNonPayableOrder)] else []
  }

  function CurrencyMarks(st: ReportStates, v: RefundView): seq<Mark> {
    if AllComplete(st, {Payments, Refunds}) && v.payment.Some? && v.payment.value.status == Captured
       && v.refund.currency != v.payment.value.currency
    then [(v.payment.value.orderId, RefundCurrencyMismatch)] else []
  }

  function ExcessMarks(st: ReportStates, v: CaptureView): seq<Mark> {
    if AllComplete(st, {Payments, Refunds}) &&
      CaptureRefunded(v) > v.payment.amount then [(v.payment.orderId, ExcessRefund)] else []
  }

  function FeeMarks(st: ReportStates, v: CaptureView): seq<Mark> {
    if !AllComplete(st, {Payments, Fees}) then []
    else if v.fees == [] then [(v.payment.orderId, MissingFee)]
    else if CaptureReportedFee(v) != CaptureExpectedFee(v) then [(v.payment.orderId, FeeMismatch)]
    else []
  }

  function OwnMarks(st: ReportStates, v: OrderView): seq<Mark> {
    if v.order.status != Paid || !AllComplete(st, {Orders, Payments}) then []
    else
      (if v.captures == [] then [(v.order.orderId, MissingPayment)]
       else if CapturedTotal(v) != v.order.orderTotal then [(v.order.orderId, PaymentAmountMismatch)]
       else [])
      + (if |v.captures| > 1 then [(v.order.orderId, MultipleCapture)] else [])
  }

  function LineMark(c: ExceptionCode): SettlementLine -> Mark {
    (l: SettlementLine) => (l.payoutId, c)
  }

  function SharedMarks(st: ReportStates, v: AllocationView): seq<Mark> {
    if st.lines == Complete && |v.lines| > 1 then Map(LineMark(DuplicateSettlementMovement), v.lines) else []
  }

  function DueMark(payoutId: string, lines: seq<SettlementLine>, d: DueView): seq<Mark> {
    if Carriers(lines, d.movement) == [] then [(payoutId, MissingSettlementLine)]
    else if WrongAmount(lines, d) then [(payoutId, SettlementLineAmountMismatch)]
    else []
  }

  function DueMarks(payoutId: string, lines: seq<SettlementLine>): DueView -> seq<Mark> {
    (d: DueView) => DueMark(payoutId, lines, d)
  }

  function HeaderMarks(st: ReportStates, v: PayoutView): seq<Mark> {
    (if AllComplete(st, MOVEMENT_REPORTS) then FlatMap(DueMarks(v.payout.payoutId, v.lines), v.due) else [])
    + (if AllComplete(st, {SettlementLines, Payouts}) && v.payout.reportedNet != LineTotal(v)
       then [(v.payout.payoutId, PayoutTotalMismatch)] else [])
  }

  // ---- Marks of one pass ----

  function PaymentLinkMarks(st: ReportStates, recs: Records): Payment -> seq<Mark> {
    (p: Payment) => LinkMarks(st, ViewCapture(recs)(p))
  }

  function RefundLinkMarks(st: ReportStates, recs: Records): Refund -> seq<Mark> {
    (r: Refund) => CurrencyMarks(st, ViewRefund(recs)(r))
  }

  function ExcessRefundMarks(st: ReportStates, recs: Records): Payment -> seq<Mark> {
    (p: Payment) => ExcessMarks(st, ViewCapture(recs)(p))
  }

  function FeeAmountMarks(st: ReportStates, recs: Records): Payment -> seq<Mark> {
    (p: Payment) => FeeMarks(st, ViewCapture(recs)(p))
  }

  function OrderMarks(st: ReportStates, recs: Records): Order -> seq<Mark> {
    (o: Order) => OwnMarks(st, ViewOrder(recs)(o))
  }

  function AllocationMarks(st: ReportStates, recs: Records): MovementRef -> seq<Mark> {
    (k: MovementRef) => SharedMarks(st, ViewAllocation(recs)(k))
  }

  function PayoutMarks(st: ReportStates, recs: Records): Payout -> seq<Mark> {
    (p: Payout) => HeaderMarks(st, ViewPayout(recs)(p))
  }

  /** The marks made before orders are visited. */
  function EarlyMarks(st: ReportStates, recs: Records): seq<Mark> {
    FlatMap(PaymentLinkMarks(st, recs), CapturedPayments(recs))
    + FlatMap(RefundLinkMarks(st, recs), SuccessfulRefunds(recs))
    + FlatMap(ExcessRefundMarks(st, recs), CapturedPayments(recs))
    + FlatMap(FeeAmountMarks(st, recs), CapturedPayments(recs))
  }

  // ---- Order marks are order codes ----

  lemma OrderLookup(recs: Records, o: Order)
    requires Ordered(recs) && o in recs.orders
    ensures Lookup(OrderId, recs.orders, o.orderId) == Some(o)
  {
    LookupMember(OrderId, recs.orders, o.orderId);
    var found := Lookup(OrderId, recs.orders, o.orderId).value;
    SameKeySameOrder(recs.orders, o, found);
  }

  lemma SameKeySameOrder(os: seq<Order>, o: Order, q: Order)
    requires StrictlySorted(OrderKey, os) && o in os && q in os && o.orderId == q.orderId
    ensures o == q
  {
    StrictNoRepeats(OrderKey, os);
    var i :| 0 <= i < |os| && os[i] == o;
    var j :| 0 <= j < |os| && os[j] == q;
    assert OrderKey(os[i]) == OrderKey(os[j]);
  }

  lemma PaymentLookup(recs: Records, p: Payment)
    requires Ordered(recs) && p in recs.payments
    ensures Lookup(PaymentId, recs.payments, p.paymentId) == Some(p)
  {
    LookupMember(PaymentId, recs.payments, p.paymentId);
    var q := Lookup(PaymentId, recs.payments, p.paymentId).value;
    StrictNoRepeats(PaymentKey, recs.payments);
    var i :| 0 <= i < |recs.payments| && recs.payments[i] == p;
    var j :| 0 <= j < |recs.payments| && recs.payments[j] == q;
    assert PaymentKey(recs.payments[i]) == PaymentKey(recs.payments[j]);
  }

  lemma CapturesOfMember(recs: Records, orderId: string, p: Payment)
    ensures p in CapturesOf(recs, orderId) <==> p in CapturedPayments(recs) && p.orderId == orderId
  {
    FilterMember(KeyIs(PaymentOrderId, orderId), CapturedPayments(recs), p);
    assert KeyIs(PaymentOrderId, orderId)(p) == (PaymentOrderId(p) == orderId);
  }

  lemma RefundsOfMember(recs: Records, paymentId: string, r: Refund)
    ensures r in RefundsOf(recs, paymentId) <==> r in SuccessfulRefunds(recs) && r.paymentId == paymentId
  {
    FilterMember(KeyIs(RefundPaymentId, paymentId), SuccessfulRefunds(recs), r);
    assert KeyIs(RefundPaymentId, paymentId)(r) == (RefundPaymentId(r) == paymentId);
  }

  lemma OrderViewMember(recs: Records, o: Order, c: CaptureView)
    ensures c in ViewOrder(recs)(o).captures <==>
      c.payment in CapturedPayments(recs) && c.payment.orderId == o.orderId && c == ViewCapture(recs)(c.payment)
  {
    var ps := CapturesOf(recs, o.orderId);
    CapturesOfMember(recs, o.orderId, c.payment);
    var vs := Map(ViewCapture(recs), ps);
    assert ViewOrder(recs)(o).captures == vs;
    if c in vs {
      var i :| 0 <= i < |vs| && vs[i] == c;
      assert ps[i] in ps && c.payment == ps[i];
    }
    if c.payment in ps && c == ViewCapture(recs)(c.payment) {
      var i :| 0 <= i < |ps| && ps[i] == c.payment;
      assert vs[i] == c;
    }
  }

  lemma {:induction false} SumOverMap<T, U>(f: U -> int, g: T -> U, h: T -> int, s: seq<T>)
    requires forall x :: x in s ==> f(g(x)) == h(x)
    ensures Sum(f, Map(g, s)) == Sum(h, s)
  {
    if s != [] {
      SumOverMap(f, g, h, s[..|s| - 1]);
      assert Map(g, s)[..|s| - 1] == Map(g, s[..|s| - 1]);
    }
  }

  lemma CapturedTotalIsSum(recs: Records, o: Order)
    ensures CapturedTotal(ViewOrder(recs)(o)) == Sum(PaymentAmount, CapturesOf(recs, o.orderId))
  {
    SumOverMap(CaptureAmount, ViewCapture(recs), PaymentAmount, CapturesOf(recs, o.orderId));
  }

  predicate EarlyCode(c: ExceptionCode) {
    c in {CaptureForNonPayableOrder, RefundCurrencyMismatch, ExcessRefund, MissingFee, FeeMismatch}
  }

  predicate OwnCode(c: ExceptionCode) {
    c in {MissingPayment, PaymentAmountMismatch, MultipleCapture}
  }

  lemma OrderCodeKinds(st: ReportStates, v: OrderView, c: ExceptionCode)
    ensures OrderRaises(st, v, c) <==> (OrderRaises(st, v, c) && EarlyCode(c)) || (OrderRaises(st, v, c) && OwnCode(c))
  {
  }

  /** One code of one order, before orders are visited. */
  lemma EarlyMarkMeaning(st: ReportStates, recs: Records, o: Order, c: ExceptionCode)
    requires Ordered(recs) && o in recs.orders
    ensures (o.orderId, c) in EarlyMarks(st, recs) <==>
      OrderRaises(st, ViewOrder(recs)(o), c) && EarlyCode(c)
  {
    NonPayableMeaning(st, recs, o, c);
    CurrencyMeaning(st, recs, o, c);
    ExcessMeaning(st, recs, o, c);
    FeeMeaning(st, recs, o, c);
  }

  /** A capture of the order, in the two ways the proofs meet it: as a payment and inside the view. */
  lemma CaptureInView(recs: Records, o: Order, p: Payment)
    requires p in CapturedPayments(recs) && p.orderId == o.orderId
    ensures ViewCapture(recs)(p) in ViewOrder(recs)(o).captures
  {
    OrderViewMember(recs, o, ViewCapture(recs)(p));
  }

  lemma ViewedCapture(recs: Records, o: Order, cv: CaptureView)
    requires cv in ViewOrder(recs)(o).captures
    ensures cv.payment in CapturedPayments(recs) && cv.payment.orderId == o.orderId &&
      cv == ViewCapture(recs)(cv.payment)
  {
    OrderViewMember(recs, o, cv);
  }

  lemma LinkedOrder(recs: Records, o: Order, p: Payment)
    requires Ordered(recs) && o in recs.orders
    ensures p.orderId == o.orderId ==> ViewCapture(recs)(p).order == Some(o)
    ensures ViewCapture(recs)(p).order.Some? ==> ViewCapture(recs)(p).order.value.orderId == p.orderId
  {
    OrderLookup(recs, o);
    LookupMember(OrderId, recs.orders, p.orderId);
    assert ViewCapture(recs)(p).order == Lookup(OrderId, recs.orders, p.orderId);
  }

  lemma LinkMarked(st: ReportStates, cv: CaptureView, m: Mark)
    ensures m in LinkMarks(st, cv) <==>
      AllComplete(st, {Orders, Payments}) && cv.order.Some? && cv.order.value.status == Cancelled &&
      m == (cv.order.value.orderId, CaptureForNonPayableOrder)
  {
  }

  lemma NonPayableMeaning(st: ReportStates, recs: Records, o: Order, c: ExceptionCode)
    requires Ordered(recs) && o in recs.orders
    ensures (o.orderId, c) in FlatMap(PaymentLinkMarks(st, recs), CapturedPayments(recs)) <==>
      c == CaptureForNonPayableOrder && OrderRaises(st, ViewOrder(recs)(o), c)
  {
    var v, m := ViewOrder(recs)(o), (o.orderId, c);
    assert v.order == o;
    FlatMapMember(PaymentLinkMarks(st, recs), CapturedPayments(recs), m);
    if p :| p in CapturedPayments(recs) && m in PaymentLinkMarks(st, recs)(p) {
      LinkMarked(st, ViewCapture(recs)(p), m);
      LinkedOrder(recs, o, p);
      CaptureInView(recs, o, p);
    }
    if c == CaptureForNonPayableOrder && OrderRaises(st, v, c) {
      var cv := v.captures[0];
      ViewedCapture(recs, o, cv);
      LinkedOrder(recs, o, cv.payment);
      LinkMarked(st, cv, m);
      assert m in PaymentLinkMarks(st, recs)(cv.payment);
    }
  }

  lemma CurrencyMeaning(st: ReportStates, recs: Records, o: Order, c: ExceptionCode)
    requires Ordered(recs) && o in recs.orders
    ensures (o.orderId, c) in FlatMap(RefundLinkMarks(st, recs), SuccessfulRefunds(recs)) <==>
      c == RefundCurrencyMismatch && OrderRaises(st, ViewOrder(recs)(o), c)
  {
    var v, m := ViewOrder(recs)(o), (o.orderId, c);
    FlatMapMember(RefundLinkMarks(st, recs), SuccessfulRefunds(recs), m);
    if r :| r in SuccessfulRefunds(recs) && m in RefundLinkMarks(st, recs)(r) {
      CurrencyMarked(st, recs, o, r, c);
    }
    if c == RefundCurrencyMismatch && OrderRaises(st, v, c) {
      var cv, r :| cv in v.captures && r in cv.refunds && r.currency != cv.payment.currency;
      MarkedCurrency(st, recs, o, cv, r);
    }
  }

  lemma CurrencyMarked(st: ReportStates, recs: Records, o: Order, r: Refund, c: ExceptionCode)
    requires Ordered(recs) && r in SuccessfulRefunds(recs)
    requires (o.orderId, c) in RefundLinkMarks(st, recs)(r)
    ensures c == RefundCurrencyMismatch && OrderRaises(st, ViewOrder(recs)(o), RefundCurrencyMismatch)
  {
    assert RefundLinkMarks(st, recs)(r) == CurrencyMarks(st, ViewRefund(recs)(r));
    LookupMember(PaymentId, recs.payments, r.paymentId);
    var p := ViewRefund(recs)(r).payment.value;
    FilterMember(IsCaptured, recs.payments, p);
    assert PaymentId(p) == r.paymentId;
    RefundsOfMember(recs, p.paymentId, r);
    CaptureInView(recs, o, p);
    var cv := ViewCapture(recs)(p);
    assert cv in ViewOrder(recs)(o).captures && r in cv.refunds && r.currency != cv.payment.currency;
  }

  lemma MarkedCurrency(st: ReportStates, recs: Records, o: Order, cv: CaptureView, r: Refund)
    requires Ordered(recs) && cv in ViewOrder(recs)(o).captures && r in cv.refunds && r.currency != cv.payment.currency
    requires AllComplete(st, {Payments, Refunds})
    ensures r in SuccessfulRefunds(recs) && (o.orderId, RefundCurrencyMismatch) in RefundLinkMarks(st, recs)(r)
  {
    ViewedCapture(recs, o, cv);
    RefundsOfMember(recs, cv.payment.paymentId, r);
    FilterMember(IsCaptured, recs.payments, cv.payment);
    PaymentLookup(recs, cv.payment);
    assert ViewRefund(recs)(r).payment == Some(cv.payment);
  }

  lemma ExcessMeaning(st: ReportStates, recs: Records, o: Order, c: ExceptionCode)
    ensures (o.orderId, c) in FlatMap(ExcessRefundMarks(st, recs), CapturedPayments(recs)) <==>
      c == ExcessRefund && OrderRaises(st, ViewOrder(recs)(o), c)
  {
    var v, m := ViewOrder(recs)(o), (o.orderId, c);
    FlatMapMember(ExcessRefundMarks(st, recs), CapturedPayments(recs), m);
    if p :| p in CapturedPayments(recs) && m in ExcessRefundMarks(st, recs)(p) {
      CaptureInView(recs, o, p);
    }
    if c == ExcessRefund && OrderRaises(st, v, c) {
      var cv :| cv in v.captures && CaptureRefunded(cv) > cv.payment.amount;
      ViewedCapture(recs, o, cv);
      assert m in ExcessRefundMarks(st, recs)(cv.payment);
    }
  }

  predicate FeeProblem(cv: CaptureView, c: ExceptionCode) {
    (c == MissingFee && cv.fees == []) ||
    (c == FeeMismatch && cv.fees != [] && CaptureReportedFee(cv) != CaptureExpectedFee(cv))
  }

  lemma FeeRaised(st: ReportStates, v: OrderView, c: ExceptionCode)
    requires c == MissingFee || c == FeeMismatch
    ensures OrderRaises(st, v, c) <==>
      AllComplete(st, {Payments, Fees}) && exists cv :: cv in v.captures && FeeProblem(cv, c)
  {
    if cv :| cv in v.captures && FeeProblem(cv, c) {
      assert c == MissingFee ==> cv.fees == [];
    }
    if OrderRaises(st, v, c) {
      if c == MissingFee {
        var cv :| cv in v.captures && cv.fees == [];
        assert FeeProblem(cv, c);
      } else {
        var cv :| cv in v.captures && cv.fees != [] && CaptureReportedFee(cv) != CaptureExpectedFee(cv);
        assert FeeProblem(cv, c);
      }
    }
  }

  lemma FeeMarked(st: ReportStates, cv: CaptureView, m: Mark)
    ensures m in FeeMarks(st, cv) <==>
      AllComplete(st, {Payments, Fees}) && m.0 == cv.payment.orderId && FeeProblem(cv, m.1)
  {
  }

  lemma FeeMeaning(st: ReportStates, recs: Records, o: Order, c: ExceptionCode)
    ensures (o.orderId, c) in FlatMap(FeeAmountMarks(st, recs), CapturedPayments(recs)) <==>
      (c == MissingFee || c == FeeMismatch) && OrderRaises(st, ViewOrder(recs)(o), c)
  {
    var v, m := ViewOrder(recs)(o), (o.orderId, c);
    FlatMapMember(FeeAmountMarks(st, recs), CapturedPayments(recs), m);
    if p :| p in CapturedPayments(recs) && m in FeeAmountMarks(st, recs)(p) {
      FeeMarked(st, ViewCapture(recs)(p), m);
      CaptureInView(recs, o, p);
      FeeRaised(st, v, c);
    }
    if (c == MissingFee || c == FeeMismatch) && OrderRaises(st, v, c) {
      FeeRaised(st, v, c);
      var cv :| cv in v.captures && FeeProblem(cv, c);
      ViewedCapture(recs, o, cv);
      FeeMarked(st, cv, m);
      assert m in FeeAmountMarks(st, recs)(cv.payment);
    }
  }

  /** Orders visited so far contribute only to themselves, so a row sees all of its codes. */
  lemma OrderMarksMeaning(st: ReportStates, recs: Records, i: nat, c: ExceptionCode)
    requires Ordered(recs) && i < |recs.orders|
    ensures var o := recs.orders[i];
      ((o.orderId, c) in EarlyMarks(st, recs) ||
       (o.orderId, c) in FlatMap(OrderMarks(st, recs), recs.orders[..i + 1])) <==>
      OrderRaises(st, ViewOrder(recs)(o), c)
  {
    var o := recs.orders[i];
    var m, early, own := (o.orderId, c), EarlyMarks(st, recs), FlatMap(OrderMarks(st, recs), recs.orders[..i + 1]);
    EarlyMarkMeaning(st, recs, o, c);
    VisitedOrderMarks(st, recs, i, c);
    OwnMarkMeaning(st, recs, o, c);
    OrderCodeKinds(st, ViewOrder(recs)(o), c);
  }

  lemma VisitedOrderMarks(st: ReportStates, recs: Records, i: nat, c: ExceptionCode)
    requires Ordered(recs) && i < |recs.orders|
    ensures var o := recs.orders[i];
      (o.orderId, c) in FlatMap(OrderMarks(st, recs), recs.orders[..i + 1]) <==>
      (o.orderId, c) in OrderMarks(st, recs)(o)
  {
    var o, visited := recs.orders[i], recs.orders[..i + 1];
    FlatMapMember(OrderMarks(st, recs), visited, (o.orderId, c));
    if q :| q in visited && (o.orderId, c) in OrderMarks(st, recs)(q) {
      OrderMarkOwner(st, recs, q, (o.orderId, c));
      assert q in recs.orders;
      SameKeySameOrder(recs.orders, o, q);
    }
    assert o == visited[i];
  }

  lemma OrderMarkOwner(st: ReportStates, recs: Records, q: Order, m: Mark)
    requires m in OrderMarks(st, recs)(q)
    ensures m.0 == q.orderId
  {
    assert OrderMarks(st, recs)(q) == OwnMarks(st, ViewOrder(recs)(q));
    OwnMarked(st, ViewOrder(recs)(q), m);
    assert ViewOrder(recs)(q).order == q;
  }

  lemma OwnMarked(st: ReportStates, v: OrderView, m: Mark)
    ensures m in OwnMarks(st, v) <==>
      m.0 == v.order.orderId && OwnCode(m.1) && OrderRaises(st, v, m.1)
  {
    assert m == (m.0, m.1);
  }

  lemma OwnMarkMeaning(st: ReportStates, recs: Records, o: Order, c: ExceptionCode)
    ensures (o.orderId, c) in OrderMarks(st, recs)(o) <==>
      OrderRaises(st, ViewOrder(recs)(o), c) && OwnCode(c)
  {
    assert OrderMarks(st, recs)(o) == OwnMarks(st, ViewOrder(recs)(o));
    OwnMarked(st, ViewOrder(recs)(o), (o.orderId, c));
    assert ViewOrder(recs)(o).order == o;
  }

  // ---- Payout marks are payout codes ----

  lemma AllocationMeaning(st: ReportStates, recs: Records, p: Payout, c: ExceptionCode)
    ensures (p.payoutId, c) in FlatMap(AllocationMarks(st, recs), AllocatedMovements(recs)) <==>
      c == DuplicateSettlementMovement && PayoutRaises(st, ViewPayout(recs)(p), c)
  {
    var m := (p.payoutId, c);
    FlatMapMember(AllocationMarks(st, recs), AllocatedMovements(recs), m);
    if k :| k in AllocatedMovements(recs) && m in AllocationMarks(st, recs)(k) {
      DuplicateMarked(st, recs, p, k, c);
    }
    if c == DuplicateSettlementMovement && PayoutRaises(st, ViewPayout(recs)(p), c) {
      var k := MarkedDuplicate(st, recs, p);
    }
  }

  lemma PayoutViewLines(recs: Records, p: Payout)
    ensures ViewPayout(recs)(p).lines == LinesOf(recs, p.payoutId)
    ensures ViewPayout(recs)(p).sharers == Map(Sharers(recs), LinesOf(recs, p.payoutId))
    ensures forall l :: l in LinesOf(recs, p.payoutId) <==> l in recs.lines && l.payoutId == p.payoutId
  {
    forall l
      ensures l in LinesOf(recs, p.payoutId) <==> l in recs.lines && l.payoutId == p.payoutId
    {
      FilterMember(KeyIs(LinePayoutId, p.payoutId), recs.lines, l);
      assert KeyIs(LinePayoutId, p.payoutId)(l) == (LinePayoutId(l) == p.payoutId);
    }
  }

  lemma CarryingMember(recs: Records, k: MovementRef, l: SettlementLine)
    ensures l in LinesCarrying(recs, k) <==> l in recs.lines && LineMovement(l) == k
  {
    FilterMember(KeyIs(LineMovement, k), recs.lines, l);
    assert KeyIs(LineMovement, k)(l) == (LineMovement(l) == k);
  }

  lemma SharedMarked(st: ReportStates, v: AllocationView, m: Mark)
    ensures m in SharedMarks(st, v) <==>
      st.lines == Complete && |v.lines| > 1 && m.1 == DuplicateSettlementMovement &&
      exists l :: l in v.lines && l.payoutId == m.0
  {
    MapMember(LineMark(DuplicateSettlementMovement), v.lines, m);
    if l :| l in v.lines && l.payoutId == m.0 {
      assert LineMark(DuplicateSettlementMovement)(l) == (l.payoutId, DuplicateSettlementMovement);
      assert m == (m.0, m.1);
    }
  }

  lemma AllocationMarked(st: ReportStates, recs: Records, k: MovementRef, m: Mark)
    ensures m in AllocationMarks(st, recs)(k) <==>
      st.lines == Complete && |LinesCarrying(recs, k)| > 1 && m.1 == DuplicateSettlementMovement &&
      exists l :: l in LinesCarrying(recs, k) && l.payoutId == m.0
  {
    SharedMarked(st, ViewAllocation(recs)(k), m);
    assert ViewAllocation(recs)(k).lines == LinesCarrying(recs, k);
    assert AllocationMarks(st, recs)(k) == SharedMarks(st, ViewAllocation(recs)(k));
  }

  lemma DuplicateMarked(st: ReportStates, recs: Records, p: Payout, k: MovementRef, c: ExceptionCode)
    requires (p.payoutId, c) in AllocationMarks(st, recs)(k)
    ensures c == DuplicateSettlementMovement && PayoutRaises(st, ViewPayout(recs)(p), c)
  {
    AllocationMarked(st, recs, k, (p.payoutId, c));
    var v, ls := ViewPayout(recs)(p), LinesCarrying(recs, k);
    PayoutViewLines(recs, p);
    var l :| l in ls && l.payoutId == p.payoutId;
    CarryingMember(recs, k, l);
    assert l in LinesOf(recs, p.payoutId);
    var j :| 0 <= j < |v.lines| && v.lines[j] == l;
    assert v.sharers[j] == Sharers(recs)(l) == |ls|;
    assert |ls| in v.sharers && |ls| > 1;
  }

  lemma MarkedDuplicate(st: ReportStates, recs: Records, p: Payout) returns (k: MovementRef)
    requires PayoutRaises(st, ViewPayout(recs)(p), DuplicateSettlementMovement)
    ensures k in AllocatedMovements(recs) && (p.payoutId, DuplicateSettlementMovement) in AllocationMarks(st, recs)(k)
  {
    var v := ViewPayout(recs)(p);
    PayoutViewLines(recs, p);
    var n :| n in v.sharers && n > 1;
    var j :| 0 <= j < |v.sharers| && v.sharers[j] == n;
    var l := v.lines[j];
    assert l in LinesOf(recs, p.payoutId);
    k := LineMovement(l);
    assert n == Sharers(recs)(l) == |LinesCarrying(recs, k)|;
    CarryingMember(recs, k, l);
    AllocatedMember(recs, l);
    AllocationMarked(st, recs, k, (p.payoutId, DuplicateSettlementMovement));
  }

  lemma AllocatedMember(recs: Records, l: SettlementLine)
    requires l in recs.lines
    ensures LineMovement(l) in AllocatedMovements(recs)
  {
    var names := Map(LineMovement, recs.lines);
    var i :| 0 <= i < |recs.lines| && recs.lines[i] == l;
    assert names[i] == LineMovement(l);
    KeepLastHas(names, LineMovement(l));
    SortMembers(AllocationKey, KeepLast(Identity, names));
  }

  lemma {:induction false} KeepLastHas<T(!new)>(s: seq<T>, x: T)
    ensures x in KeepLast(Identity, s) <==> x in s
  {
    if s != [] {
      var init, last := s[..|s| - 1], s[|s| - 1];
      assert s == init + [last];
      KeepLastEntries(Identity, init);
      AssignEntries(Identity, KeepLast(Identity, init), last);
      KeepLastHas(init, x);
    }
  }

  lemma DueMarkMeaning(payoutId: string, lines: seq<SettlementLine>, due: seq<DueView>, c: ExceptionCode)
    ensures (payoutId, c) in FlatMap(DueMarks(payoutId, lines), due) <==>
      (c == MissingSettlementLine && exists d :: d in due && Carriers(lines, d.movement) == []) ||
      (c == SettlementLineAmountMismatch && exists d :: d in due && WrongAmount(lines, d))
  {
    FlatMapMember(DueMarks(payoutId, lines), due, (payoutId, c));
    if d :| d in due && Carriers(lines, d.movement) == [] {
      assert (payoutId, MissingSettlementLine) in DueMarks(payoutId, lines)(d);
    }
    if d :| d in due && WrongAmount(lines, d) {
      assert (payoutId, SettlementLineAmountMismatch) in DueMarks(payoutId, lines)(d);
    }
  }

  lemma HeaderMarkMeaning(st: ReportStates, v: PayoutView, m: Mark)
    ensures m in HeaderMarks(st, v) <==>
      m.0 == v.payout.payoutId && m.1 != DuplicateSettlementMovement && PayoutRaises(st, v, m.1)
  {
    var due := FlatMap(DueMarks(v.payout.payoutId, v.lines), v.due);
    DueMarkMeaning(v.payout.payoutId, v.lines, v.due, m.1);
    DueMarkOwner(v.payout.payoutId, v.lines, v.due, m);
    assert m == (m.0, m.1);
  }

  lemma DueMarkOwner(payoutId: string, lines: seq<SettlementLine>, due: seq<DueView>, m: Mark)
    ensures m in FlatMap(DueMarks(payoutId, lines), due) ==> m.0 == payoutId
  {
    FlatMapMember(DueMarks(payoutId, lines), due, m);
  }

  /** When a payout's row is built, its dictionary entry holds exactly the codes of its view. */
  lemma PayoutMarksMeaning(st: ReportStates, recs: Records, i: nat, c: ExceptionCode)
    requires Ordered(recs) && i < |recs.payouts|
    ensures var p := recs.payouts[i];
      ((p.payoutId, c) in FlatMap(AllocationMarks(st, recs), AllocatedMovements(recs)) ||
       (p.payoutId, c) in FlatMap(PayoutMarks(st, recs), recs.payouts[..i + 1])) <==>
      PayoutRaises(st, ViewPayout(recs)(p), c)
  {
    var p := recs.payouts[i];
    AllocationMeaning(st, recs, p, c);
    VisitedPayoutMarks(st, recs, i, (p.payoutId, c));
    HeaderMarkMeaning(st, ViewPayout(recs)(p), (p.payoutId, c));
    assert ViewPayout(recs)(p).payout == p;
  }

  lemma VisitedPayoutMarks(st: ReportStates, recs: Records, i: nat, m: Mark)
    requires Ordered(recs) && i < |recs.payouts| && m.0 == recs.payouts[i].payoutId
    ensures m in FlatMap(PayoutMarks(st, recs), recs.payouts[..i + 1]) <==>
      m in HeaderMarks(st, ViewPayout(recs)(recs.payouts[i]))
  {
    var p, visited := recs.payouts[i], recs.payouts[..i + 1];
    FlatMapMember(PayoutMarks(st, recs), visited, m);
    if q :| q in visited && m in PayoutMarks(st, recs)(q) {
      HeaderMarkMeaning(st, ViewPayout(recs)(q), m);
      assert ViewPayout(recs)(q).payout == q && q in recs.payouts && p in recs.payouts;
    }
    assert p == visited[i];
    assert PayoutMarks(st, recs)(p) == HeaderMarks(st, ViewPayout(recs)(p));
  }
}
