/** The canonical records of a run, split by entity and sorted, and the view of each entity in them. */
module Ledger {
  import opened Sequences
  import opened Contracts
  import opened Rules

  datatype Records = Records(orders: seq<Order>, payments: seq<Payment>, refunds: seq<Refund>, fees: seq<Fee>,
                             lines: seq<SettlementLine>, payouts: seq<Payout>)

  // ---- Sort keys and projections ----

  function OrderKey(o: Order): Key { [S(o.orderId)] }

  function PaymentKey(p: Payment): Key { [S(p.paymentId)] }

  function RefundKey(r: Refund): Key { [S(r.refundId)] }

  function FeeKey(f: Fee): Key { [S(f.feeId)] }

  function LineKey(l: SettlementLine): Key { [S(l.lineId)] }

  function PayoutKey(p: Payout): Key { [N(p.payoutDate), S(p.payoutId)] }

  function KindOrder(t: MovementType): int {
    match t
    case CaptureMovement => 0
    case FeeMovement => 1
    case RefundMovement => 2
  }

  function MovementKey(m: ExpectedMovement): Key { [N(m.availableOn), N(KindOrder(m.kind)), S(m.id)] }

  function AllocationKey(k: MovementRef): Key { [N(KindOrder(k.kind)), S(k.id)] }

  lemma AllocationKeyInjective(j: MovementRef, k: MovementRef)
    requires AllocationKey(j) == AllocationKey(k)
    ensures j == k
  {
    assert AllocationKey(j)[0] == AllocationKey(k)[0] && AllocationKey(j)[1] == AllocationKey(k)[1];
  }

  function OrderId(o: Order): string { o.orderId }

  function PaymentId(p: Payment): string { p.paymentId }

  function PaymentOrderId(p: Payment): string { p.orderId }

  function RefundPaymentId(r: Refund): string { r.paymentId }

  function FeeId(f: Fee): string { f.feeId }

  function FeePaymentId(f: Fee): string { f.paymentId }

  function LinePayoutId(l: SettlementLine): string { l.payoutId }

  function PayoutId(p: Payout): string { p.payoutId }

  function PayoutDate(p: Payout): int { p.payoutDate }

  function MovementDay(m: ExpectedMovement): int { m.availableOn }

  function IsCaptured(p: Payment): bool { p.status == Captured }

  function IsSucceeded(r: Refund): bool { r.status == Succeeded }

  // ---- Splitting ----

  function AsOrder(r: FinancialRecord): seq<Order> { if r.OrderRecord? then [r.order] else [] }

  function AsPayment(r: FinancialRecord): seq<Payment> { if r.PaymentRecord? then [r.payment] else [] }

  function AsRefund(r: FinancialRecord): seq<Refund> { if r.RefundRecord? then [r.refund] else [] }

  function AsFee(r: FinancialRecord): seq<Fee> { if r.FeeRecord? then [r.fee] else [] }

  function AsLine(r: FinancialRecord): seq<SettlementLine> { if r.LineRecord? then [r.line] else [] }

  function AsPayout(r: FinancialRecord): seq<Payout> { if r.PayoutRecord? then [r.payout] else [] }

  function Split(rs: seq<FinancialRecord>): Records {
    Records(Sort(OrderKey, FlatMap(AsOrder, rs)), Sort(PaymentKey, FlatMap(AsPayment, rs)),
            Sort(RefundKey, FlatMap(AsRefund, rs)),
            Sort(FeeKey, FlatMap(AsFee, rs)), Sort(LineKey, FlatMap(AsLine, rs)),
            Sort(PayoutKey, FlatMap(AsPayout, rs)))
  }

  ghost predicate Contains(recs: Records, r: FinancialRecord) {
    match r
    case OrderRecord(o) => o in recs.orders
    case PaymentRecord(p) => p in recs.payments
    case RefundRecord(f) => f in recs.refunds
    case FeeRecord(f) => f in recs.fees
    case LineRecord(l) => l in recs.lines
    case PayoutRecord(p) => p in recs.payouts
  }

  ghost predicate Ordered(recs: Records) {
    StrictlySorted(OrderKey, recs.orders) && StrictlySorted(PaymentKey, recs.payments) &&
    StrictlySorted(RefundKey, recs.refunds) &&
    StrictlySorted(FeeKey, recs.fees) && StrictlySorted(LineKey, recs.lines) &&
    StrictlySorted(PayoutKey, recs.payouts) &&
    DistinctPayoutIds(recs.payouts)
  }

  ghost predicate DistinctPayoutIds(ps: seq<Payout>) {
    forall p, q :: p in ps && q in ps && p.payoutId == q.payoutId ==> p == q
  }

  /** `pick` selects the one kind of record that `wrap` builds. */
  ghost predicate Selects<U(!new)>(pick: FinancialRecord -> seq<U>, wrap: U -> FinancialRecord) {
    forall r :: pick(r) == [] || (|pick(r)| == 1 && wrap(pick(r)[0]) == r)
  }

  lemma {:induction false} PickDistinct<U(!new)>(pick: FinancialRecord -> seq<U>, wrap: U -> FinancialRecord,
                                                 key: U -> Key, rs: seq<FinancialRecord>)
    requires UniqueIdentities(rs) && Selects(pick, wrap)
    requires forall x, y :: key(x) == key(y) ==> KeyOf(wrap(x)) == KeyOf(wrap(y))
    ensures DistinctKeys(key, FlatMap(pick, rs))
    ensures forall x :: x in FlatMap(pick, rs) ==> wrap(x) in rs
  {
    if rs != [] {
      var init, last := rs[..|rs| - 1], rs[|rs| - 1];
      assert rs == init + [last];
      PickDistinct(pick, wrap, key, init);
      var f := FlatMap(pick, init);
      if pick(last) != [] {
        var y := pick(last)[0];
        assert pick(last) == [y] && wrap(y) == last;
        forall i | 0 <= i < |f|
          ensures key(f[i]) != key(y)
        {
          assert f[i] in f && wrap(f[i]) in init;
          var k :| 0 <= k < |init| && init[k] == wrap(f[i]);
          assert KeyOf(rs[k]) != KeyOf(rs[|init|]);
        }
      }
    }
  }

  lemma PickContains<U>(pick: FinancialRecord -> seq<U>, key: U -> Key, rs: seq<FinancialRecord>, r: FinancialRecord,
                        y: U)
    requires forall q :: y in pick(q) <==> q == r
    ensures y in Sort(key, FlatMap(pick, rs)) <==> r in rs
  {
    SortMembers(key, FlatMap(pick, rs));
    FlatMapMember(pick, rs, y);
  }

  lemma PickOrdered<U(!new)>(pick: FinancialRecord -> seq<U>, wrap: U -> FinancialRecord, key: U -> Key,
                             rs: seq<FinancialRecord>)
    requires UniqueIdentities(rs) && Selects(pick, wrap)
    requires forall x, y :: key(x) == key(y) ==> KeyOf(wrap(x)) == KeyOf(wrap(y))
    ensures StrictlySorted(key, Sort(key, FlatMap(pick, rs)))
  {
    PickDistinct(pick, wrap, key, rs);
    SortStrict(key, FlatMap(pick, rs));
  }

  /** Splitting loses nothing and invents nothing. */
  lemma SplitContains(rs: seq<FinancialRecord>, r: FinancialRecord)
    ensures Contains(Split(rs), r) <==> r in rs
  {
    match r
    case OrderRecord(o) => PickContains(AsOrder, OrderKey, rs, r, o);
    case PaymentRecord(p) => PickContains(AsPayment, PaymentKey, rs, r, p);
    case RefundRecord(f) => PickContains(AsRefund, RefundKey, rs, r, f);
    case FeeRecord(f) => PickContains(AsFee, FeeKey, rs, r, f);
    case LineRecord(l) => PickContains(AsLine, LineKey, rs, r, l);
    case PayoutRecord(p) => PickContains(AsPayout, PayoutKey, rs, r, p);
  }

  lemma SplitOrderedShopSide(rs: seq<FinancialRecord>)
    requires UniqueIdentities(rs)
    ensures StrictlySorted(OrderKey, Split(rs).orders)
    ensures StrictlySorted(PaymentKey, Split(rs).payments)
    ensures StrictlySorted(RefundKey, Split(rs).refunds)
  {
    PickOrdered(AsOrder, (o: Order) => OrderRecord(o), OrderKey, rs);
    PickOrdered(AsPayment, (p: Payment) => PaymentRecord(p), PaymentKey, rs);
    PickOrdered(AsRefund, (r: Refund) => RefundRecord(r), RefundKey, rs);
  }

  lemma SplitOrderedSettlementSide(rs: seq<FinancialRecord>)
    requires UniqueIdentities(rs)
    ensures StrictlySorted(FeeKey, Split(rs).fees) && StrictlySorted(LineKey, Split(rs).lines) &&
      StrictlySorted(PayoutKey, Split(rs).payouts)
  {
    PickOrdered(AsFee, (f: Fee) => FeeRecord(f), FeeKey, rs);
    PickOrdered(AsLine, (l: SettlementLine) => LineRecord(l), LineKey, rs);
    PickOrdered(AsPayout, (p: Payout) => PayoutRecord(p), PayoutKey, rs);
  }

  /** Unique identities make every list strictly sorted. */
  lemma SplitOrdered(rs: seq<FinancialRecord>)
    requires UniqueIdentities(rs)
    ensures Ordered(Split(rs))
  {
    SplitOrderedShopSide(rs);
    SplitOrderedSettlementSide(rs);
    SplitPayoutIds(rs, Split(rs).payouts);
  }

  lemma SplitPayoutIds(rs: seq<FinancialRecord>, ps: seq<Payout>)
    requires UniqueIdentities(rs) && ps == Split(rs).payouts
    ensures DistinctPayoutIds(ps)
  {
    forall p, q | p in ps && q in ps && p.payoutId == q.payoutId
      ensures p == q
    {
      SplitContains(rs, PayoutRecord(p));
      SplitContains(rs, PayoutRecord(q));
      SameIdentitySameRecord(rs, PayoutRecord(p), PayoutRecord(q));
    }
  }

  lemma SameIdentitySameRecord(rs: seq<FinancialRecord>, r: FinancialRecord, s: FinancialRecord)
    requires UniqueIdentities(rs) && r in rs && s in rs && KeyOf(r) == KeyOf(s)
    ensures r == s
  {
    var i :| 0 <= i < |rs| && rs[i] == r;
    var j :| 0 <= j < |rs| && rs[j] == s;
  }

  // ---- Views ----

  /** The dictionary lookup: the last entry under the key. */
  function Lookup<T, K(==)>(key: T -> K, s: seq<T>, k: K): Option<T> {
    var found := Filter(KeyIs(key, k), s);
    if found == [] then None else Some(found[|found| - 1])
  }

  function CapturedPayments(recs: Records): seq<Payment> { Filter(IsCaptured, recs.payments) }

  function SuccessfulRefunds(recs: Records): seq<Refund> { Filter(IsSucceeded, recs.refunds) }

  function CapturesOf(recs: Records, orderId: string): seq<Payment> {
    Filter(KeyIs(PaymentOrderId, orderId), CapturedPayments(recs))
  }

  function RefundsOf(recs: Records, paymentId: string): seq<Refund> {
    Filter(KeyIs(RefundPaymentId, paymentId), SuccessfulRefunds(recs))
  }

  function FeesOf(recs: Records, paymentId: string): seq<Fee> { Filter(KeyIs(FeePaymentId, paymentId), recs.fees) }

  function LinesOf(recs: Records, payoutId: string): seq<SettlementLine> {
    Filter(KeyIs(LinePayoutId, payoutId), recs.lines)
  }

  function LinesCarrying(recs: Records, k: MovementRef): seq<SettlementLine> {
    Filter(KeyIs(LineMovement, k), recs.lines)
  }

  function ViewCapture(recs: Records): Payment -> CaptureView {
    (p: Payment) => CaptureView(p, Lookup(OrderId, recs.orders, p.orderId), RefundsOf(recs, p.paymentId),
                                FeesOf(recs, p.paymentId))
  }

  function ViewOrder(recs: Records): Order -> OrderView {
    (o: Order) => OrderView(o, Map(ViewCapture(recs), CapturesOf(recs, o.orderId)))
  }

  function ViewRefund(recs: Records): Refund -> RefundView {
    (r: Refund) => RefundView(r, Lookup(PaymentId, recs.payments, r.paymentId))
  }

  function ViewFee(recs: Records): Fee -> FeeView {
    (f: Fee) => FeeView(f, Lookup(PaymentId, recs.payments, f.paymentId))
  }

  function ViewAllocation(recs: Records): MovementRef -> AllocationView {
    (k: MovementRef) => AllocationView(k.kind, k.id, LinesCarrying(recs, k))
  }

  function MovementsOfCapture(recs: Records): Payment -> seq<ExpectedMovement> {
    (p: Payment) => CaptureMovements(ViewCapture(recs)(p))
  }

  function Movements(recs: Records): seq<ExpectedMovement> {
    Sort(MovementKey, FlatMap(MovementsOfCapture(recs), CapturedPayments(recs))
         + Map(RefundMovementOf, SuccessfulRefunds(recs)))
  }

  function DueOn(recs: Records, day: int): seq<ExpectedMovement> { Filter(KeyIs(MovementDay, day), Movements(recs)) }

  /** A fee record is consulted only for a fee movement that some line of the payout carries. */
  function ViewDue(recs: Records, lines: seq<SettlementLine>): ExpectedMovement -> DueView {
    (m: ExpectedMovement) =>
      DueView(m, if m.kind == FeeMovement && Carriers(lines, m) != [] then Lookup(FeeId, recs.fees, m.id) else None)
  }

  function Sharers(recs: Records): SettlementLine -> nat {
    (l: SettlementLine) => |LinesCarrying(recs, LineMovement(l))|
  }

  function ViewPayout(recs: Records): Payout -> PayoutView {
    (p: Payout) =>
      var lines := LinesOf(recs, p.payoutId);
      PayoutView(p, Map(ViewDue(recs, lines), DueOn(recs, p.payoutDate)), lines, Map(Sharers(recs), lines))
  }

  lemma LookupMember<T(!new), K>(key: T -> K, s: seq<T>, k: K)
    ensures Lookup(key, s, k).Some? ==> Lookup(key, s, k).value in s && key(Lookup(key, s, k).value) == k
    ensures Lookup(key, s, k).None? ==> forall x :: x in s ==> key(x) != k
  {
    FilterMembers(KeyIs(key, k), s);
    if Lookup(key, s, k).Some? {
      var f := Filter(KeyIs(key, k), s);
      assert f[|f| - 1] in f;
    } else {
      forall x | x in s
        ensures key(x) != k
      {
        assert KeyIs(key, k)(x) ==> x in Filter(KeyIs(key, k), s);
      }
    }
  }
}
