/** What a RECONCILED row promises: exact meanings for orders and payouts, stated on the canonical records. */
module Meaning {
  import opened Sequences
  import opened Contracts
  import opened Money
  import opened Rules
  import opened Ledger
  import opened Reconciliation
  import opened Publication
  import Marks
  import Canonicalize

  // ---- Orders ----

  /** Everything attached to the capture adds up. */
  predicate Settled(c: CaptureView) {
    CaptureReportedFee(c) == CaptureExpectedFee(c) && CaptureRefunded(c) <= c.payment.amount
  }

  /** What the order itself asks of its captures. */
  predicate Collected(v: OrderView) {
    match v.order.status
    case Paid => |v.captures| == 1 && v.captures[0].payment.amount == v.order.orderTotal
    case Cancelled => v.captures == []
    case PaymentPending => true
  }

  /** One currency throughout, and a scheduled fee above zero, as the source contract gives. */
  ghost predicate Uniform(v: OrderView) {
    forall c :: c in v.captures ==> CaptureExpectedFee(c) > 0 && forall r :: r in c.refunds ==>
      r.currency == c.payment.currency
  }

  lemma OneCaptureTotal(v: OrderView)
    requires |v.captures| == 1
    ensures CapturedTotal(v) == v.captures[0].payment.amount
  {
    assert v.captures[..0] == [];
    assert Sum(CaptureAmount, v.captures[..0]) == 0;
  }

  lemma FeeCodes(st: ReportStates, v: OrderView)
    requires AllComplete(st, TRANSACTION_REPORTS) && Uniform(v)
    ensures OrderRaises(st, v, MissingFee) || OrderRaises(st, v, FeeMismatch) <==>
      exists c :: c in v.captures && CaptureReportedFee(c) != CaptureExpectedFee(c)
  {
    forall c | c in v.captures && c.fees == []
      ensures CaptureReportedFee(c) != CaptureExpectedFee(c)
    {
    }
  }

  lemma CollectionCodes(st: ReportStates, v: OrderView)
    requires AllComplete(st, TRANSACTION_REPORTS)
    ensures Collected(v) <==>
      !(OrderRaises(st, v, CaptureForNonPayableOrder) || OrderRaises(st, v, MissingPayment) ||
        OrderRaises(st, v, PaymentAmountMismatch) || OrderRaises(st, v, MultipleCapture))
  {
    if |v.captures| == 1 {
      OneCaptureTotal(v);
    }
  }

  lemma NoOrderCodes(st: ReportStates, v: OrderView)
    requires AllComplete(st, TRANSACTION_REPORTS) && Uniform(v)
    ensures OrderCodes(st, v) == {} <==> Collected(v) && forall c :: c in v.captures ==> Settled(c)
  {
    FeeCodes(st, v);
    CollectionCodes(st, v);
    var codes := OrderCodes(st, v);
    assert codes == {} <==> forall x :: !OrderRaises(st, v, x) by {
      assert forall x :: x in codes <==> OrderRaises(st, v, x);
    }
    assert !OrderRaises(st, v, RefundCurrencyMismatch);
    assert OrderRaises(st, v, ExcessRefund) <==> exists c :: c in v.captures && CaptureRefunded(c) > c.payment.amount;
    OnlyTheseCodes(st, v);
  }

  lemma OnlyTheseCodes(st: ReportStates, v: OrderView)
    ensures (forall x :: !OrderRaises(st, v, x)) <==>
      !OrderRaises(st, v, CaptureForNonPayableOrder) && !OrderRaises(st, v, RefundCurrencyMismatch) &&
      !OrderRaises(st, v, ExcessRefund) &&
      !OrderRaises(st, v, MissingFee) && !OrderRaises(st, v, FeeMismatch) && !OrderRaises(st, v, MissingPayment) &&
      !OrderRaises(st, v, PaymentAmountMismatch) && !OrderRaises(st, v, MultipleCapture)
  {
  }

  /** For every status: the row is RECONCILED exactly when the reports are complete, the captures are what the
      status asks for, and every capture's fees and refunds are in order. */
  lemma ReconciledOrderView(run: Run, st: ReportStates, v: OrderView)
    requires Uniform(v)
    ensures TransactionFor(run, st, v).state == Reconciled <==>
      AllComplete(st, TRANSACTION_REPORTS) && Collected(v) && forall c :: c in v.captures ==> Settled(c)
  {
    if AllComplete(st, TRANSACTION_REPORTS) {
      NoOrderCodes(st, v);
    }
  }

  ghost predicate AllValid(records: seq<FinancialRecord>) {
    forall r :: r in records ==> ValidRecord(r)
  }

  lemma CaptureUniform(records: seq<FinancialRecord>, p: Payment)
    requires AllValid(records) && p in CapturedPayments(Split(records))
    ensures PaymentFee(p) > 0
    ensures forall r :: r in RefundsOf(Split(records), p.paymentId) ==> r.currency == p.currency
  {
    var recs := Split(records);
    FilterMember(IsCaptured, recs.payments, p);
    SplitContains(records, PaymentRecord(p));
    assert ValidRecord(PaymentRecord(p));
    forall r | r in RefundsOf(recs, p.paymentId)
      ensures r.currency == p.currency
    {
      Marks.RefundsOfMember(recs, p.paymentId, r);
      FilterMember(IsSucceeded, recs.refunds, r);
      SplitContains(records, RefundRecord(r));
      assert ValidRecord(RefundRecord(r));
    }
  }

  lemma OrderUniform(records: seq<FinancialRecord>, o: Order)
    requires AllValid(records)
    ensures Uniform(ViewOrder(Split(records))(o))
  {
    var recs := Split(records);
    var v := ViewOrder(recs)(o);
    forall c | c in v.captures
      ensures CaptureExpectedFee(c) > 0 && forall r :: r in c.refunds ==> r.currency == c.payment.currency
    {
      Marks.ViewedCapture(recs, o, c);
      CaptureUniform(records, c.payment);
    }
  }

  /** The capture pays the order in full, its reported fees are the scheduled fee, and its refunds fit in it. */
  predicate PaysInFull(recs: Records, o: Order, p: Payment) {
    p.amount == o.orderTotal && Sum(FeeAmount, FeesOf(recs, p.paymentId)) == ScheduledFee(p.paymentMethod, p.amount) &&
    Sum(RefundAmount, RefundsOf(recs, p.paymentId)) <= p.amount
  }

  /** A PAID order is RECONCILED if and only if its four reports are complete and its only capture pays it in full. */
  lemma ReconciledPaidOrder(run: Run, st: ReportStates, records: seq<FinancialRecord>, o: Order)
    requires AllValid(records) && o.status == Paid
    ensures TransactionRule(run, st, Split(records))(o).state == Reconciled <==>
      AllComplete(st, TRANSACTION_REPORTS) && |CapturesOf(Split(records), o.orderId)| == 1 &&
      PaysInFull(Split(records), o, CapturesOf(Split(records), o.orderId)[0])
  {
    var recs := Split(records);
    var v := ViewOrder(recs)(o);
    OrderUniform(records, o);
    ReconciledOrderView(run, st, v);
    assert TransactionRule(run, st, recs)(o) == TransactionFor(run, st, v);
    PaidView(recs, o);
  }

  lemma PaidView(recs: Records, o: Order)
    requires o.status == Paid
    ensures var v := ViewOrder(recs)(o);
      (Collected(v) && forall c :: c in v.captures ==> Settled(c)) <==>
      |CapturesOf(recs, o.orderId)| == 1 && PaysInFull(recs, o, CapturesOf(recs, o.orderId)[0])
  {
    var v, ps := ViewOrder(recs)(o), CapturesOf(recs, o.orderId);
    assert v.order == o && v.captures == Map(ViewCapture(recs), ps);
    if |ps| == 1 {
      var c := ViewCapture(recs)(ps[0]);
      assert v.captures == [c] && forall x :: x in v.captures <==> x == c;
      assert c.payment == ps[0] && c.fees == FeesOf(recs, ps[0].paymentId) &&
        c.refunds == RefundsOf(recs, ps[0].paymentId);
      assert Settled(c) <==> CaptureReportedFee(c) == PaymentFee(ps[0]) && CaptureRefunded(c) <= ps[0].amount;
      assert (forall x :: x in v.captures ==> Settled(x)) <==> Settled(c);
    }
  }

  /** The order has received payments, and each of them is in conflict. */
  ghost predicate OnlyConflictedPayments(u: set<Canonicalize.Envelope>, c: Canonicalize.CanonicalizationResult,
                                         orderId: string) {
    (exists e :: e in u && e.record.PaymentRecord? && e.record.payment.orderId == orderId) &&
    forall e :: e in u && e.record.PaymentRecord? && e.record.payment.orderId == orderId ==>
      Canonicalize.HasConflict(c.conflicts, KeyOf(e.record))
  }

  /** A PAID order whose every payment is in conflict. No conflicted payload is trusted, so the order has no capture:
      it is never RECONCILED, it is INCOMPLETE if and only if one of its four reports is, and with complete reports it
      is an exception for the missing payment. */
  lemma ConflictedPaymentState(u: set<Canonicalize.Envelope>, c: Canonicalize.CanonicalizationResult, run: Run,
                               st: ReportStates, o: Order)
    requires Canonicalize.ReceiptsAgree(u) && Canonicalize.IsCanonicalization(u, c)
    requires OnlyConflictedPayments(u, c, o.orderId) && o.status == Paid
    ensures var row := TransactionRule(run, st, Split(c.records))(o);
      (row.state == StateIncomplete <==> exists r :: r in TRANSACTION_REPORTS && st.Of(r) == Incomplete) &&
      (row.state == Exception <==> AllComplete(st, TRANSACTION_REPORTS)) && row.state != Reconciled &&
      (MissingPayment in row.codes <==> AllComplete(st, {Orders, Payments}))
  {
    var recs := Split(c.records);
    var v := ViewOrder(recs)(o);
    NoTrustedCapture(u, c, o.orderId);
    assert TransactionRule(run, st, recs)(o) == TransactionFor(run, st, v);
    assert v.captures == [];
    UnpaidState(run, st, v);
  }

  lemma UnpaidState(run: Run, st: ReportStates, v: OrderView)
    requires v.order.status == Paid && v.captures == []
    ensures var row := TransactionFor(run, st, v);
      (row.state == StateIncomplete <==> exists r :: r in TRANSACTION_REPORTS && st.Of(r) == Incomplete) &&
      (row.state == Exception <==> AllComplete(st, TRANSACTION_REPORTS)) && row.state != Reconciled &&
      (MissingPayment in row.codes <==> AllComplete(st, {Orders, Payments}))
  {
    assert MissingPayment in OrderCodes(st, v) <==> AllComplete(st, {Orders, Payments});
    assert AllComplete(st, TRANSACTION_REPORTS) ==> AllComplete(st, {Orders, Payments});
  }

  lemma NoTrustedCapture(u: set<Canonicalize.Envelope>, c: Canonicalize.CanonicalizationResult, orderId: string)
    requires Canonicalize.ReceiptsAgree(u) && Canonicalize.IsCanonicalization(u, c)
    requires forall e :: e in u && e.record.PaymentRecord? && e.record.payment.orderId == orderId ==>
      Canonicalize.HasConflict(c.conflicts, KeyOf(e.record))
    ensures CapturesOf(Split(c.records), orderId) == []
  {
    Canonicalize.AtMostOneOutcome(u, c);
    var ps := CapturesOf(Split(c.records), orderId);
    if ps != [] {
      CaptureReceived(u, c, orderId, ps[0]);
      assert false;
    }
  }

  lemma CaptureReceived(u: set<Canonicalize.Envelope>, c: Canonicalize.CanonicalizationResult, orderId: string,
                        p: Payment)
    requires Canonicalize.IsCanonicalization(u, c) && p in CapturesOf(Split(c.records), orderId)
    ensures PaymentRecord(p) in c.records && p.orderId == orderId && exists e :: e in u && e.record == PaymentRecord(p)
  {
    var recs := Split(c.records);
    Marks.CapturesOfMember(recs, orderId, p);
    FilterMember(IsCaptured, recs.payments, p);
    SplitContains(c.records, PaymentRecord(p));
    assert Canonicalize.AcceptedRecord(u, PaymentRecord(p));
  }

  // ---- Payouts ----

  /** The movement is carried by exactly one line of the whole run, and this payout has that line. */
  ghost predicate CarriedHere(recs: Records, payoutId: string, m: ExpectedMovement) {
    exists l :: LinesCarrying(recs, MovementName(m)) == [l] && l.payoutId == payoutId
  }

  function NamedFee(recs: Records, m: ExpectedMovement): Option<Fee> {
    if m.kind == FeeMovement then Lookup(FeeId, recs.fees, m.id) else None
  }

  /** Reported minus expected, for a fee movement named after a fee record. */
  function FeeDifference(recs: Records): ExpectedMovement -> int {
    (m: ExpectedMovement) => if NamedFee(recs, m).Some? then NamedFee(recs, m).value.amount + m.amount else 0
  }

  function CarriedAmount(recs: Records): ExpectedMovement -> int {
    (m: ExpectedMovement) => if NamedFee(recs, m).Some? then -NamedFee(recs, m).value.amount else m.amount
  }

  function MovementNames(due: seq<ExpectedMovement>): set<MovementRef> {
    set m | m in due :: MovementName(m)
  }

  /** Lines naming no movement expected on the payout's date. */
  function UnmatchedLines(lines: seq<SettlementLine>, due: seq<ExpectedMovement>): seq<SettlementLine> {
    Filter(Not(InKeys(LineMovement, MovementNames(due))), lines)
  }

  lemma CarriersInPayout(recs: Records, payoutId: string, m: ExpectedMovement)
    ensures forall l :: l in Carriers(LinesOf(recs, payoutId), m) <==>
      l in LinesCarrying(recs, MovementName(m)) && l.payoutId == payoutId
  {
    forall l
      ensures l in Carriers(LinesOf(recs, payoutId), m) <==>
        l in LinesCarrying(recs, MovementName(m)) && l.payoutId == payoutId
    {
      FilterMember(KeyIs(LineMovement, MovementName(m)), LinesOf(recs, payoutId), l);
      assert KeyIs(LineMovement, MovementName(m))(l) == (LineMovement(l) == MovementName(m));
      FilterMember(KeyIs(LinePayoutId, payoutId), recs.lines, l);
      assert KeyIs(LinePayoutId, payoutId)(l) == (LinePayoutId(l) == payoutId);
      Marks.CarryingMember(recs, MovementName(m), l);
    }
  }

  lemma {:induction false} FilterLength<T>(p: T -> bool, s: seq<T>)
    ensures |Filter(p, s)| <= |s|
  {
    if s != [] {
      FilterLength(p, s[..|s| - 1]);
    }
  }

  /** Filtering by payout and by movement in either order gives the same lines. */
  lemma CarriersSwap(recs: Records, payoutId: string, m: ExpectedMovement)
    ensures Carriers(LinesOf(recs, payoutId), m)
      == Filter(KeyIs(LinePayoutId, payoutId), LinesCarrying(recs, MovementName(m)))
  {
    var both := (l: SettlementLine) => KeyIs(LineMovement, MovementName(m))(l) && KeyIs(LinePayoutId, payoutId)(l);
    FilterTwice(KeyIs(LineMovement, MovementName(m)), KeyIs(LinePayoutId, payoutId), both, recs.lines);
    FilterTwice(KeyIs(LinePayoutId, payoutId), KeyIs(LineMovement, MovementName(m)), both, recs.lines);
  }

  /** Carried in the payout and unshared, a movement has one line in the whole run. */
  lemma SoleCarrier(recs: Records, payoutId: string, m: ExpectedMovement)
    requires Carriers(LinesOf(recs, payoutId), m) != []
    requires forall l :: l in LinesOf(recs, payoutId) ==> Sharers(recs)(l) <= 1
    ensures CarriedHere(recs, payoutId, m) &&
      Carriers(LinesOf(recs, payoutId), m) == LinesCarrying(recs, MovementName(m))
  {
    var carriers, all := Carriers(LinesOf(recs, payoutId), m), LinesCarrying(recs, MovementName(m));
    CarriersInPayout(recs, payoutId, m);
    var l := carriers[0];
    assert l in carriers && l in all;
    FilterMember(KeyIs(LineMovement, MovementName(m)), LinesOf(recs, payoutId), l);
    assert KeyIs(LineMovement, MovementName(m))(l) == (LineMovement(l) == MovementName(m));
    assert Sharers(recs)(l) == |all|;
    assert all == [l];
    CarriersSwap(recs, payoutId, m);
    FilterLength(KeyIs(LinePayoutId, payoutId), all);
    assert carriers == [l];
  }

  /** The payout's exact meaning in terms of its own view. */
  lemma ReconciledPayoutView(run: Run, st: ReportStates, v: PayoutView)
    ensures PayoutFor(run, st, v).state == Reconciled <==>
      AllComplete(st, PAYOUT_REPORTS) && v.payout.reportedNet == LineTotal(v) == ExpectedPayout(v) &&
      (forall n :: n in v.sharers ==> n <= 1) &&
      (forall d :: d in v.due ==> Carriers(v.lines, d.movement) != [] && !WrongAmount(v.lines, d))
  {
    if AllComplete(st, PAYOUT_REPORTS) {
      assert AllComplete(st, MOVEMENT_REPORTS) && AllComplete(st, {SettlementLines, Payouts}) && st.lines == Complete;
      var codes := PayoutCodes(st, v);
      assert forall x :: x in codes <==> PayoutRaises(st, v, x);
      OnlyThesePayoutCodes(st, v);
      assert codes == {} <==> forall x :: !PayoutRaises(st, v, x);
    }
  }

  lemma OnlyThesePayoutCodes(st: ReportStates, v: PayoutView)
    ensures (forall x :: !PayoutRaises(st, v, x)) <==>
      !PayoutRaises(st, v, DuplicateSettlementMovement) && !PayoutRaises(st, v, MissingSettlementLine) &&
      !PayoutRaises(st, v, SettlementLineAmountMismatch) && !PayoutRaises(st, v, PayoutTotalMismatch)
  {
  }

  /** The conditions under which a payout is RECONCILED, on the records. */
  ghost predicate FullyMatched(recs: Records, p: Payout) {
    var lines, due := LinesOf(recs, p.payoutId), DueOn(recs, p.payoutDate);
    p.reportedNet == Sum(LineAmount, lines) == Sum(MovementAmount, due) &&
    (forall l :: l in lines ==> LinesCarrying(recs, LineMovement(l)) == [l]) &&
    (forall m :: m in due ==>
     CarriedHere(recs, p.payoutId, m) && LinesCarrying(recs, MovementName(m))[0].signedAmount == CarriedAmount(recs)(m))
  }

  lemma UnsharedLines(recs: Records, payoutId: string)
    ensures (forall n :: n in Map(Sharers(recs), LinesOf(recs, payoutId)) ==> n <= 1) <==>
      forall l :: l in LinesOf(recs, payoutId) ==> LinesCarrying(recs, LineMovement(l)) == [l]
  {
    var lines := LinesOf(recs, payoutId);
    var counts := Map(Sharers(recs), lines);
    forall l | l in lines
      ensures Sharers(recs)(l) in counts
      ensures Sharers(recs)(l) <= 1 <==> LinesCarrying(recs, LineMovement(l)) == [l]
    {
      var i :| 0 <= i < |lines| && lines[i] == l;
      assert counts[i] == Sharers(recs)(l);
      FilterMember(KeyIs(LinePayoutId, payoutId), recs.lines, l);
      Marks.CarryingMember(recs, LineMovement(l), l);
      assert Sharers(recs)(l) == |LinesCarrying(recs, LineMovement(l))|;
    }
    if forall n :: n in counts ==> n <= 1 {
      assert forall l :: l in lines ==> Sharers(recs)(l) <= 1;
    }
    if forall l :: l in lines ==> LinesCarrying(recs, LineMovement(l)) == [l] {
      forall n | n in counts
        ensures n <= 1
      {
        var i :| 0 <= i < |counts| && counts[i] == n;
        assert lines[i] in lines && counts[i] == Sharers(recs)(lines[i]);
      }
    }
  }

  lemma DueViewOf(recs: Records, p: Payout, m: ExpectedMovement)
    ensures var d := ViewDue(recs, LinesOf(recs, p.payoutId))(m);
      d.movement == m && (Carriers(LinesOf(recs, p.payoutId), m) != [] ==>
                          ExpectedLineAmount(d) == CarriedAmount(recs)(m))
  {
  }

  /** For one movement due on the date, carried and right in the view is carried here, alone, for its amount. */
  lemma DueMatched(recs: Records, p: Payout, m: ExpectedMovement)
    requires forall l :: l in LinesOf(recs, p.payoutId) ==> LinesCarrying(recs, LineMovement(l)) == [l]
    ensures var d := ViewDue(recs, LinesOf(recs, p.payoutId))(m);
      (Carriers(LinesOf(recs, p.payoutId), d.movement) != [] && !WrongAmount(LinesOf(recs, p.payoutId), d)) <==>
      CarriedHere(recs, p.payoutId, m) && LinesCarrying(recs, MovementName(m))[0].signedAmount == CarriedAmount(recs)(m)
  {
    var lines := LinesOf(recs, p.payoutId);
    DueViewOf(recs, p, m);
    CarriersInPayout(recs, p.payoutId, m);
    if Carriers(lines, m) != [] {
      forall l | l in lines
        ensures Sharers(recs)(l) <= 1
      {
        assert Sharers(recs)(l) == |LinesCarrying(recs, LineMovement(l))|;
      }
      SoleCarrier(recs, p.payoutId, m);
    }
    if CarriedHere(recs, p.payoutId, m) {
      var l :| LinesCarrying(recs, MovementName(m)) == [l] && l.payoutId == p.payoutId;
      assert l in LinesCarrying(recs, MovementName(m)) && l in Carriers(lines, m);
    }
  }

  lemma DueAllMatched(recs: Records, p: Payout)
    requires forall l :: l in LinesOf(recs, p.payoutId) ==> LinesCarrying(recs, LineMovement(l)) == [l]
    ensures var v := ViewPayout(recs)(p);
      (forall d :: d in v.due ==> Carriers(v.lines, d.movement) != [] && !WrongAmount(v.lines, d)) <==>
      (forall m :: m in DueOn(recs, p.payoutDate) ==>
        CarriedHere(recs, p.payoutId, m) &&
        LinesCarrying(recs, MovementName(m))[0].signedAmount == CarriedAmount(recs)(m))
  {
    var v, due, view := ViewPayout(recs)(p), DueOn(recs, p.payoutDate), ViewDue(recs, LinesOf(recs, p.payoutId));
    assert v.due == Map(view, due) && v.lines == LinesOf(recs, p.payoutId);
    forall d | d in v.due
      ensures d.movement in due && d == view(d.movement)
    {
      MapMember(view, due, d);
    }
    forall m | m in due
      ensures view(m) in v.due
    {
      MapMember(view, due, view(m));
    }
    forall m | m in due
      ensures (Carriers(v.lines, view(m).movement) != [] && !WrongAmount(v.lines, view(m))) <==>
        CarriedHere(recs, p.payoutId, m) &&
        LinesCarrying(recs, MovementName(m))[0].signedAmount == CarriedAmount(recs)(m)
    {
      DueMatched(recs, p, m);
    }
  }

  /** A payout is RECONCILED if and only if its five reports are complete and it is fully matched. */
  lemma ReconciledPayout(run: Run, st: ReportStates, recs: Records, p: Payout)
    ensures PayoutRowRule(run, st, recs)(p).state == Reconciled <==>
      AllComplete(st, PAYOUT_REPORTS) && FullyMatched(recs, p)
  {
    var v, lines := ViewPayout(recs)(p), LinesOf(recs, p.payoutId);
    assert PayoutRowRule(run, st, recs)(p) == PayoutFor(run, st, v);
    ReconciledPayoutView(run, st, v);
    ViewTotals(recs, p);
    UnsharedLines(recs, p.payoutId);
    if forall l :: l in lines ==> LinesCarrying(recs, LineMovement(l)) == [l] {
      DueAllMatched(recs, p);
    }
  }

  lemma ViewTotals(recs: Records, p: Payout)
    ensures var v := ViewPayout(recs)(p);
      v.payout == p && v.lines == LinesOf(recs, p.payoutId) &&
      v.sharers == Map(Sharers(recs), LinesOf(recs, p.payoutId)) &&
      LineTotal(v) == Sum(LineAmount, LinesOf(recs, p.payoutId)) &&
      ExpectedPayout(v) == Sum(MovementAmount, DueOn(recs, p.payoutDate))
  {
    var v, due := ViewPayout(recs)(p), DueOn(recs, p.payoutDate);
    assert Map(DueMovement, v.due) == due;
  }

  // ---- Decomposition ----

  /** The lines that carry one of the movements add up to what those movements are carried for. */
  lemma {:induction false} MatchedLinesSum(recs: Records, lines: seq<SettlementLine>, due: seq<ExpectedMovement>)
    requires DistinctBy(MovementName, due)
    requires forall m :: m in due ==>
      |Carriers(lines, m)| == 1 && Carriers(lines, m)[0].signedAmount == CarriedAmount(recs)(m)
    ensures Sum(LineAmount, Filter(InKeys(LineMovement, MovementNames(due)), lines)) == Sum(CarriedAmount(recs), due)
  {
    if due == [] {
      assert MovementNames(due) == {};
      NoKeys(LineMovement, lines);
    } else {
      var init, last := due[..|due| - 1], due[|due| - 1];
      assert due == init + [last];
      NamesAppend(init, last);
      assert forall m :: m in init ==> m in due;
      MatchedLinesSum(recs, lines, init);
      SumOneMoreKey(LineAmount, LineMovement, MovementNames(init), MovementName(last), lines);
      OneLineSum(Carriers(lines, last));
      assert last in due;
    }
  }

  lemma OneLineSum(s: seq<SettlementLine>)
    requires |s| == 1
    ensures Sum(LineAmount, s) == s[0].signedAmount
  {
    assert s[..0] == [] && Sum(LineAmount, s[..0]) == 0;
  }

  lemma NamesAppend(init: seq<ExpectedMovement>, last: ExpectedMovement)
    requires DistinctBy(MovementName, init + [last])
    ensures MovementNames(init + [last]) == MovementNames(init) + {MovementName(last)} &&
      MovementName(last) !in MovementNames(init)
    ensures DistinctBy(MovementName, init)
  {
    var due := init + [last];
    forall m | m in init
      ensures MovementName(m) != MovementName(last)
    {
      var i :| 0 <= i < |init| && init[i] == m;
      assert MovementName(due[i]) != MovementName(due[|init|]);
    }
    forall i, j | 0 <= i < j < |init|
      ensures MovementName(init[i]) != MovementName(init[j])
    {
      assert due[i] == init[i] && due[j] == init[j];
    }
  }

  lemma {:induction false} CarriedIsExpectedLessDifference(recs: Records, due: seq<ExpectedMovement>)
    ensures Sum(CarriedAmount(recs), due) == Sum(MovementAmount, due) - Sum(FeeDifference(recs), due)
  {
    if due != [] {
      CarriedIsExpectedLessDifference(recs, due[..|due| - 1]);
    }
  }

  lemma {:induction false} FilterDistinct<T(!new), K>(id: T -> K, p: T -> bool, s: seq<T>)
    requires DistinctBy(id, s)
    ensures DistinctBy(id, Filter(p, s))
  {
    if s != [] {
      var init, last := s[..|s| - 1], s[|s| - 1];
      assert forall i :: 0 <= i < |init| ==> init[i] == s[i];
      FilterDistinct(id, p, init);
      var f := Filter(p, init);
      forall x | x in f
        ensures id(x) != id(last)
      {
        FilterMember(p, init, x);
        var i :| 0 <= i < |init| && init[i] == x;
        assert id(s[i]) != id(s[|s| - 1]);
      }
      if p(last) {
        DistinctAppend(id, f, last);
      }
    }
  }

  /** A RECONCILED payout decomposes exactly: its header, its lines and its expected movements agree; every
      movement of its date has one line in the whole run, here; and its other lines add up to the differences
      between reported and scheduled fees. */
  lemma ReconciledPayoutDecomposes(run: Run, st: ReportStates, recs: Records, p: Payout)
    requires Ordered(recs) && !SyntheticCollision(recs) && PayoutRowRule(run, st, recs)(p).state == Reconciled
    ensures p.reportedNet == Sum(LineAmount, LinesOf(recs, p.payoutId))
      == Sum(MovementAmount, DueOn(recs, p.payoutDate))
    ensures forall m :: m in DueOn(recs, p.payoutDate) ==> CarriedHere(recs, p.payoutId, m)
    ensures Sum(LineAmount, UnmatchedLines(LinesOf(recs, p.payoutId), DueOn(recs, p.payoutDate)))
      == Sum(FeeDifference(recs), DueOn(recs, p.payoutDate))
  {
    var lines, due := LinesOf(recs, p.payoutId), DueOn(recs, p.payoutDate);
    ReconciledPayout(run, st, recs, p);
    MovementsDistinct(recs);
    FilterDistinct(MovementName, KeyIs(MovementDay, p.payoutDate), Movements(recs));
    forall m | m in due
      ensures |Carriers(lines, m)| == 1 && Carriers(lines, m)[0].signedAmount == CarriedAmount(recs)(m)
    {
      CarrierOf(recs, p, m);
    }
    MatchedLinesSum(recs, lines, due);
    SumPartition(LineAmount, InKeys(LineMovement, MovementNames(due)), lines);
    CarriedIsExpectedLessDifference(recs, due);
  }

  lemma CarrierOf(recs: Records, p: Payout, m: ExpectedMovement)
    requires FullyMatched(recs, p) && m in DueOn(recs, p.payoutDate)
    ensures Carriers(LinesOf(recs, p.payoutId), m) == LinesCarrying(recs, MovementName(m)) &&
      |LinesCarrying(recs, MovementName(m))| == 1
    ensures LinesCarrying(recs, MovementName(m))[0].signedAmount == CarriedAmount(recs)(m)
  {
    var l :| LinesCarrying(recs, MovementName(m)) == [l] && l.payoutId == p.payoutId;
    CarriersSwap(recs, p.payoutId, m);
    assert LinePayoutId(l) == p.payoutId;
    assert [l][..0] == [] && Filter(KeyIs(LinePayoutId, p.payoutId), [l][..0]) == [];
  }
}
