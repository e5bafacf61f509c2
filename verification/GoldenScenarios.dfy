/** Concrete inputs: a documented scenario that the code answers differently, and a ledger whose result is refused. */
module GoldenScenarios {
  import opened Sequences
  import opened Contracts
  import opened Money
  import opened Rules
  import opened Ledger
  import opened Reconciliation
  import opened Canonicalize
  import Meaning
  import opened Publication
  import AW = AffectedWindows
  import Incremental
  import Refresh

  // ---- G07: conflicting records at the same version ----

  /** One uncontested receipt, and two receipts of one other identity and version with different payloads. */
  ghost predicate OneConflict(o: Envelope, a: Envelope, b: Envelope) {
    IdentityOf(a) == IdentityOf(b) != IdentityOf(o) && SourceVersion(a) == SourceVersion(b) &&
    a.payloadHash != b.payloadHash
  }

  lemma OneConflictDispositions(o: Envelope, a: Envelope, b: Envelope)
    requires OneConflict(o, a, b)
    ensures DispositionIn({o, a, b}, o) == Accepted
    ensures DispositionIn({o, a, b}, a) == Conflicted && DispositionIn({o, a, b}, b) == Conflicted
  {
    assert Contested({o, a, b}, a) && Contested({o, a, b}, b);
  }

  lemma OneConflictOutcome(o: Envelope, a: Envelope, b: Envelope, c: CanonicalizationResult)
    requires OneConflict(o, a, b) && IsCanonicalization({o, a, b}, c)
    ensures HasConflict(c.conflicts, IdentityOf(a)) && c.records == [o.record]
  {
    OneConflictDispositions(o, a, b);
    assert WinsConflict({o, a, b}, IdentityOf(a), a);
    forall x
      ensures x in c.records <==> x in [o.record]
    {
      assert AcceptedRecord({o, a, b}, x) <==> x == o.record;
    }
    StrictlySortedUnique(RecordIdentityKey, c.records, [o.record]);
  }

  const ORDER_007 := Order("ORD-007", 0, Paid, EUR, 10000, 1)

  function Payment007(amount: int): Payment {
    Payment("PAY-007", "ORD-007", 1, Card, Captured, amount, EUR, 0, Some(2), 1)
  }

  const ORDER_RECEIPT := Envelope("1", OrderRecord(ORDER_007), "order")
  const PAYLOAD_A := Envelope("2", PaymentRecord(Payment007(10000)), "A")
  const PAYLOAD_B := Envelope("3", PaymentRecord(Payment007(9000)), "B")

  lemma Receipts007()
    ensures OneConflict(ORDER_RECEIPT, PAYLOAD_A, PAYLOAD_B)
    ensures FaithfulHashes({ORDER_RECEIPT, PAYLOAD_A, PAYLOAD_B}) &&
      ReceiptsAgree({ORDER_RECEIPT, PAYLOAD_A, PAYLOAD_B})
  {
  }

  lemma Outcome007(c: CanonicalizationResult)
    requires IsCanonicalization({ORDER_RECEIPT, PAYLOAD_A, PAYLOAD_B}, c)
    ensures HasConflict(c.conflicts, RecordKey(PaymentType, "PAY-007")) && c.records == [OrderRecord(ORDER_007)]
    ensures Meaning.OnlyConflictedPayments({ORDER_RECEIPT, PAYLOAD_A, PAYLOAD_B}, c, "ORD-007")
  {
    Receipts007();
    OneConflictOutcome(ORDER_RECEIPT, PAYLOAD_A, PAYLOAD_B, c);
    assert PAYLOAD_A.record.PaymentRecord? && PAYLOAD_A.record.payment.orderId == "ORD-007";
  }

  /** The row an order of the ledger gets. */
  lemma RowOfOrder(run: Run, st: ReportStates, records: seq<FinancialRecord>, o: Order)
    requires OrderRecord(o) in records
    ensures TransactionRule(run, st, Split(records))(o) in Transactions(run, st, Split(records))
  {
    SplitContains(records, OrderRecord(o));
    MapMember(TransactionRule(run, st, Split(records)), Split(records).orders,
              TransactionRule(run, st, Split(records))(o));
  }

  /** Golden scenario G07, in either order of arrival: PAY-007 is in conflict, neither payload is a current record, and
      the row of ORD-007 is INCOMPLETE only by an incomplete report. */
  method GoldenScenario007(run: Run, st: ReportStates, reversed: bool)
    returns (c: CanonicalizationResult, row: TransactionRow)
    ensures HasConflict(c.conflicts, RecordKey(PaymentType, "PAY-007")) && c.records == [OrderRecord(ORDER_007)]
    ensures row in Transactions(run, st, Split(c.records)) && row.orderId == "ORD-007"
    ensures row.state == StateIncomplete <==> exists r :: r in TRANSACTION_REPORTS && st.Of(r) == Incomplete
    ensures row.state == Exception <==> AllComplete(st, TRANSACTION_REPORTS)
    ensures MissingPayment in row.codes <==> AllComplete(st, {Orders, Payments})
  {
    var es := if reversed then [PAYLOAD_B, PAYLOAD_A, ORDER_RECEIPT] else [ORDER_RECEIPT, PAYLOAD_A, PAYLOAD_B];
    assert Elements(es) == {ORDER_RECEIPT, PAYLOAD_A, PAYLOAD_B};
    Receipts007();
    var r := Canonicalize.Canonicalize(es);
    c := r.value;
    Outcome007(c);
    RowOfOrder(run, st, c.records, ORDER_007);
    TransactionRuleId(run, st, Split(c.records), ORDER_007);
    Meaning.ConflictedPaymentState({ORDER_RECEIPT, PAYLOAD_A, PAYLOAD_B}, c, run, st, ORDER_007);
    row := TransactionRule(run, st, Split(c.records))(ORDER_007);
  }

  // ---- A reported fee with a synthetic id ----

  const CAPTURE_P := Payment("P", "ORD-1", 1, Card, Captured, 10000, EUR, 0, Some(2), 1)
  const CAPTURE_Q := Payment("Q", "ORD-2", 1, Card, Captured, 20000, EUR, 0, Some(2), 1)
  const FEE_OF_Q := Fee("expected-fee:P", "Q", 330, EUR, 0, 2, 1)

  const COLLIDING_RECORDS := [PaymentRecord(CAPTURE_P), PaymentRecord(CAPTURE_Q), FeeRecord(FEE_OF_Q)]

  lemma CollidingRecordsValid()
    ensures UniqueIdentities(COLLIDING_RECORDS) && forall r :: r in COLLIDING_RECORDS ==> ValidRecord(r)
  {
    assert KeyOf(COLLIDING_RECORDS[0]) == RecordKey(PaymentType, "P") &&
      KeyOf(COLLIDING_RECORDS[1]) == RecordKey(PaymentType, "Q");
    assert KeyOf(COLLIDING_RECORDS[2]) == RecordKey(FeeType, "expected-fee:P");
    assert "P"[0] != "Q"[0];
  }

  ghost predicate JustThese(rs: seq<FinancialRecord>, p: Payment, q: Payment, f: Fee) {
    forall r :: r in rs <==> r == PaymentRecord(p) || r == PaymentRecord(q) || r == FeeRecord(f)
  }

  lemma TheseMembers(rs: seq<FinancialRecord>, p: Payment, q: Payment, f: Fee)
    requires JustThese(rs, p, q, f)
    ensures forall x :: x in Split(rs).payments <==> x == p || x == q
    ensures forall x :: x in Split(rs).fees <==> x == f
  {
    forall x: Payment
      ensures x in Split(rs).payments <==> x == p || x == q
    {
      SplitContains(rs, PaymentRecord(x));
    }
    forall x: Fee
      ensures x in Split(rs).fees <==> x == f
    {
      SplitContains(rs, FeeRecord(x));
    }
  }

  lemma TwoCapturesOneFee(rs: seq<FinancialRecord>, p: Payment, q: Payment, f: Fee)
    requires UniqueIdentities(rs) && JustThese(rs, p, q, f)
    requires KeyLess(PaymentKey(p), PaymentKey(q)) && p.status == q.status == Captured
    ensures var recs := Split(rs);
      CapturedPayments(recs) == [p, q] && recs.fees == [f] && recs.refunds == [] && recs.payouts == []
  {
    SplitOrdered(rs);
    TheseMembers(rs, p, q, f);
    NothingElse(rs, p, q, f);
    OneFee(Split(rs).fees, f);
    TwoPayments(Split(rs).payments, p, q);
    FilterUniform(IsCaptured, Split(rs).payments, true);
  }

  lemma OneFee(fees: seq<Fee>, f: Fee)
    requires StrictlySorted(FeeKey, fees) && forall x :: x in fees <==> x == f
    ensures fees == [f]
  {
    StrictlySortedUnique(FeeKey, fees, [f]);
  }

  lemma TwoPayments(payments: seq<Payment>, p: Payment, q: Payment)
    requires StrictlySorted(PaymentKey, payments) && KeyLess(PaymentKey(p), PaymentKey(q)) &&
      forall x :: x in payments <==> x == p || x == q
    ensures payments == [p, q]
  {
    StrictlySortedUnique(PaymentKey, payments, [p, q]);
  }

  lemma NothingElse(rs: seq<FinancialRecord>, p: Payment, q: Payment, f: Fee)
    requires JustThese(rs, p, q, f)
    ensures Split(rs).refunds == [] && Split(rs).payouts == []
  {
    var recs := Split(rs);
    if recs.refunds != [] {
      SplitContains(rs, RefundRecord(recs.refunds[0]));
    }
    if recs.payouts != [] {
      SplitContains(rs, PayoutRecord(recs.payouts[0]));
    }
  }

  /** A capture without fees, and a capture whose only fee has the first one's synthetic id. */
  lemma FeesCollide(recs: Records, p: Payment, q: Payment, f: Fee)
    requires CapturedPayments(recs) == [p, q] && recs.fees == [f] && f.paymentId == q.paymentId != p.paymentId
    requires f.feeId == SyntheticFeeId(p.paymentId)
    ensures SyntheticCollision(recs)
  {
    assert FeePaymentId(f) == q.paymentId;
    FilterUniform(KeyIs(FeePaymentId, p.paymentId), recs.fees, false);
    FilterUniform(KeyIs(FeePaymentId, q.paymentId), recs.fees, true);
    assert p in CapturedPayments(recs) && q in CapturedPayments(recs);
    assert CollidingFees(recs, p, q);
  }

  lemma AcceptedLedger(recs: Records, p: Payment, q: Payment)
    requires CapturedPayments(recs) == [p, q] && recs.refunds == [] && recs.payouts == []
    requires FeeCalculable(p) && FeeCalculable(q) && p.availableOn.Some? && q.availableOn.Some?
    ensures RecordRejection(recs).None?
  {
    assert SuccessfulRefunds(recs) == [];
  }

  lemma SuccessOf(run: Run, rs: seq<FinancialRecord>, conflicts: seq<Conflict>, completeness: seq<CompletenessResult>)
    requires InputRejection(run, Sort(StatusKey, completeness)).None? && RecordRejection(Split(rs)).None?
    ensures ResultFor(run, rs, conflicts, completeness).Success?
  {
  }

  /** What makes such a ledger: the records are accepted, and the fee's id is synthetic. */
  ghost predicate Colliding(rs: seq<FinancialRecord>, p: Payment, q: Payment, f: Fee) {
    UniqueIdentities(rs) && JustThese(rs, p, q, f) && KeyLess(PaymentKey(p), PaymentKey(q)) &&
    p.status == q.status == Captured &&
    FeeCalculable(p) && FeeCalculable(q) && p.availableOn.Some? && q.availableOn.Some? &&
    f.paymentId == q.paymentId != p.paymentId && f.feeId == SyntheticFeeId(p.paymentId)
  }

  lemma CollidingRecords()
    ensures Colliding(COLLIDING_RECORDS, CAPTURE_P, CAPTURE_Q, FEE_OF_Q)
  {
    CollidingRecordsValid();
    assert KeyLess(PaymentKey(CAPTURE_P), PaymentKey(CAPTURE_Q));
    FeeAccepted(Card, 10000, EUR);
    FeeAccepted(Card, 20000, EUR);
  }

  lemma CollidingLedger(rs: seq<FinancialRecord>, p: Payment, q: Payment, f: Fee)
    requires Colliding(rs, p, q, f)
    ensures RecordRejection(Split(rs)).None? && SyntheticCollision(Split(rs))
  {
    TwoCapturesOneFee(rs, p, q, f);
    AcceptedLedger(Split(rs), p, q);
    FeesCollide(Split(rs), p, q, f);
  }

  /** Three valid records that every run with accepted inputs reconciles, into a result that publication refuses. */
  lemma SyntheticIdRefused(run: Run, conflicts: seq<Conflict>, completeness: seq<CompletenessResult>)
    requires InputRejection(run, Sort(StatusKey, completeness)).None?
    ensures ResultFor(run, COLLIDING_RECORDS, conflicts, completeness).Success?
    ensures !Publishable(ResultFor(run, COLLIDING_RECORDS, conflicts, completeness).value)
  {
    CollidingRecords();
    CollidingLedger(COLLIDING_RECORDS, CAPTURE_P, CAPTURE_Q, FEE_OF_Q);
    SuccessOf(run, COLLIDING_RECORDS, conflicts, completeness);
    ReconcilerOutputPublishable(run, COLLIDING_RECORDS, conflicts, completeness);
  }

  // ---- A change with a window plan ----

  /** The plan of one order alone. */
  function PlanOf(id: string): AW.Plan {
    AW.Plan(AW.ScopeWindows, [id], [], [], [], [RecordKey(OrderType, id)], {})
  }

  /** Evidence about one order only: the closure of its key is the key, and nothing is unresolved. */
  lemma LoneOrderReach(facts: set<AW.Fact>, k: RecordKey)
    requires facts != {} && forall f :: f in facts ==> AW.FactKey(f) == k && f.kind == OrderType
    ensures AW.Reach(facts, {k}) == {k} && AW.ReasonsOf(facts, {k}) == {} && AW.DatesOf(facts, {k}) == {}
  {
    assert AW.Closed(facts, {k});
    AW.ReachIsLeastClosed(facts, {k});
    var f :| f in facts;
    assert AW.Known(facts, k);
  }

  lemma CorrectionEvidence(x: FinancialRecord, y: FinancialRecord)
    ensures Incremental.Evidence([x], [y], [x, y]) == {AW.FactOf(x), AW.FactOf(y)}
    ensures AW.Seeds(Map(AW.FactOf, [x, y])) == {AW.FactKey(AW.FactOf(x)), AW.FactKey(AW.FactOf(y))}
  {
    var f, g := AW.FactOf(x), AW.FactOf(y);
    assert Map(AW.FactOf, [x]) == [f] && Map(AW.FactOf, [y]) == [g] && Map(AW.FactOf, [x, y]) == [f, g];
    assert [f] + [g] + [f, g] == [f, g, f, g];
  }

  lemma LoneOrderPlan(facts: set<AW.Fact>, id: string)
    requires facts != {} && forall f :: f in facts ==> AW.FactKey(f) == RecordKey(OrderType, id) && f.kind == OrderType
    ensures AW.IsPlan(facts, {RecordKey(OrderType, id)}, PlanOf(id))
  {
    LoneOrderReach(facts, RecordKey(OrderType, id));
  }

  /** Any corrected order without other records gives a window plan of that order alone. */
  lemma CorrectedOrderPlan(x: Order, y: Order)
    requires x.orderId == y.orderId != "" && x != y
    ensures Refresh.WindowPlan([OrderRecord(x)], [OrderRecord(y)], [OrderRecord(x), OrderRecord(y)], PlanOf(x.orderId))
  {
    var b, a, changed := [OrderRecord(x)], [OrderRecord(y)], [OrderRecord(x), OrderRecord(y)];
    CorrectionEvidence(OrderRecord(x), OrderRecord(y));
    assert UniqueIdentities(b) && UniqueIdentities(a);
    assert Incremental.Named(b, a, changed);
    assert forall r :: (r in b) != (r in a) ==> r in changed;
    assert AW.FactKey(AW.FactOf(OrderRecord(x))) == RecordKey(OrderType, x.orderId)
      == AW.FactKey(AW.FactOf(OrderRecord(y)));
    assert AW.Seeds(Map(AW.FactOf, changed)) == {RecordKey(OrderType, x.orderId)};
    assert Incremental.Evidence(b, a, changed) == {AW.FactOf(OrderRecord(x)), AW.FactOf(OrderRecord(y))};
    LoneOrderPlan({AW.FactOf(OrderRecord(x)), AW.FactOf(OrderRecord(y))}, x.orderId);
  }

  lemma OnlyOrders(rs: seq<FinancialRecord>)
    requires forall r :: r in rs ==> r.OrderRecord?
    ensures RecordRejection(Split(rs)).None?
  {
    var recs := Split(rs);
    forall p: Payment
      ensures p !in recs.payments
    {
      SplitContains(rs, PaymentRecord(p));
    }
    forall f: Refund
      ensures f !in recs.refunds
    {
      SplitContains(rs, RefundRecord(f));
    }
    forall p: Payout
      ensures p !in recs.payouts
    {
      SplitContains(rs, PayoutRecord(p));
    }
    FilterMembers(IsCaptured, recs.payments);
    FilterMembers(IsSucceeded, recs.refunds);
  }

  lemma LoneOrderPlanned(y: Order)
    ensures Refresh.PlannedRecords(PlanOf(y.orderId), [OrderRecord(y)]) == [OrderRecord(y)]
  {
    FilterUniform(Refresh.Planned(PlanOf(y.orderId)), [OrderRecord(y)], true);
  }

  const ORDER_V1 := Order("A", 0, Cancelled, EUR, 10000, 1)
  const ORDER_V2 := Order("A", 0, Paid, EUR, 10000, 2)

  /** The incremental theorem at one order, cancelled at version 1 and paid at version 2, in every run with accepted
      inputs. */
  lemma CorrectedOrderRefreshed(run: Run, completeness: seq<CompletenessResult>)
    requires InputRejection(run, Sort(StatusKey, completeness)).None?
    ensures Refresh.WindowPlan([OrderRecord(ORDER_V1)], [OrderRecord(ORDER_V2)],
                               [OrderRecord(ORDER_V1), OrderRecord(ORDER_V2)], PlanOf("A"))
    ensures ResultFor(run, [OrderRecord(ORDER_V1)], [], completeness).Success?
    ensures ResultFor(run, [OrderRecord(ORDER_V2)], [], completeness).Success?
    ensures var o, n := ResultFor(run, [OrderRecord(ORDER_V1)], [], completeness).value,
                        ResultFor(run, [OrderRecord(ORDER_V2)], [], completeness).value;
      Refresh.Refreshed(PlanOf("A"), o, n).transactions == n.transactions
  {
    CorrectedOrderPlan(ORDER_V1, ORDER_V2);
    OnlyOrders([OrderRecord(ORDER_V1)]);
    OnlyOrders([OrderRecord(ORDER_V2)]);
    SuccessOf(run, [OrderRecord(ORDER_V1)], [], completeness);
    SuccessOf(run, [OrderRecord(ORDER_V2)], [], completeness);
    LoneOrderPlanned(ORDER_V2);
    Refresh.IncrementalEqualsFullRebuild(run, [OrderRecord(ORDER_V1)], [OrderRecord(ORDER_V2)],
                                         [OrderRecord(ORDER_V1), OrderRecord(ORDER_V2)], PlanOf("A"), [], [],
                                         completeness);
  }
}
