/** The checks a candidate run must pass before it replaces the published one, and when the reconciler's
    own results pass them. */
module Publication {
  import opened Sequences
  import opened Contracts
  import opened Rules
  import opened Ledger
  import opened Reconciliation
  import opened Exceptions

  function TransactionOrder(t: TransactionRow): string { t.orderId }

  function RowPayout(p: PayoutRow): string { p.payoutId }

  function CompletenessId(s: ReportStatus): (ReportType, int) { (s.report, s.day) }

  predicate SoundTransaction(run: Run, t: TransactionRow) {
    t.runId == run.runId && t.contractVersion == CONTRACT_VERSION && SoundTransactionAmounts(t) &&
    (t.state == Reconciled ==> t.codes == {})
  }

  predicate SoundTransactionAmounts(t: TransactionRow) {
    t.collectionVariance == t.capturedTotal - t.expectedCollection &&
    t.lifetimeNet == t.capturedTotal - t.refundTotal - t.expectedFeeTotal
  }

  predicate SoundPayout(run: Run, p: PayoutRow) {
    p.runId == run.runId && SoundPayoutAmounts(p) &&
    (p.state == Reconciled ==> p.codes == {} && p.providerVariance == 0 && p.endToEndVariance == 0)
  }

  predicate SoundPayoutAmounts(p: PayoutRow) {
    p.providerVariance == p.reportedNet - p.lineTotal && p.endToEndVariance == p.reportedNet - p.expectedPayout
  }

  predicate SoundException(run: Run, e: FinancialException) {
    e.runId == run.runId && VarianceHolds(e)
  }

  ghost predicate SoundRows(r: ReconciliationResult) {
    (forall t :: t in r.transactions ==> SoundTransaction(r.run, t)) &&
    (forall p :: p in r.payouts ==> SoundPayout(r.run, p)) &&
    (forall e :: e in r.exceptions ==> SoundException(r.run, e))
  }

  ghost predicate Publishable(r: ReconciliationResult) {
    TrimmedRunId(r.run.runId) && r.contractVersion == CONTRACT_VERSION &&
    DistinctBy(TransactionOrder, r.transactions) && DistinctBy(RowPayout, r.payouts) &&
    DistinctBy(MovementName, r.movements) &&
    DistinctBy(ExceptionId, r.exceptions) && DistinctBy(CompletenessId, r.completeness) && SoundRows(r)
  }

  /** The recovery worker's additional check on the serialized result. */
  ghost predicate ArithmeticHolds(r: ReconciliationResult) {
    DistinctBy(TransactionOrder, r.transactions) && DistinctBy(RowPayout, r.payouts) &&
    (forall t :: t in r.transactions ==> SoundTransactionAmounts(t)) &&
    (forall p :: p in r.payouts ==> SoundPayoutAmounts(p))
  }

  /** No two rows of a kind share their identity. */
  predicate NothingTwice(r: ReconciliationResult) {
    (forall i, j :: 0 <= i < j < |r.transactions| ==> r.transactions[i].orderId != r.transactions[j].orderId) &&
    (forall i, j :: 0 <= i < j < |r.payouts| ==> r.payouts[i].payoutId != r.payouts[j].payoutId) &&
    (forall i, j :: 0 <= i < j < |r.movements| ==>
       r.movements[i].kind != r.movements[j].kind || r.movements[i].id != r.movements[j].id) &&
    (forall i, j :: 0 <= i < j < |r.exceptions| ==>
       r.exceptions[i].rule != r.exceptions[j].rule || r.exceptions[i].code != r.exceptions[j].code ||
       r.exceptions[i].subject != r.exceptions[j].subject) &&
    (forall i, j :: 0 <= i < j < |r.completeness| ==>
       r.completeness[i].report != r.completeness[j].report || r.completeness[i].day != r.completeness[j].day)
  }

  /** Every order's row belongs to the run and adds up, and a reconciled one has no exceptions. */
  predicate OrderRowsHold(r: ReconciliationResult) {
    forall t :: t in r.transactions ==>
      t.runId == r.run.runId && t.contractVersion == "threadline_financial_contract_v1" &&
      t.collectionVariance == t.capturedTotal - t.expectedCollection &&
      t.lifetimeNet == t.capturedTotal - t.refundTotal - t.expectedFeeTotal && (t.state == Reconciled ==> t.codes == {})
  }

  predicate PayoutRowsHold(r: ReconciliationResult) {
    forall p :: p in r.payouts ==>
      p.runId == r.run.runId && p.providerVariance == p.reportedNet - p.lineTotal &&
      p.endToEndVariance == p.reportedNet - p.expectedPayout &&
      (p.state == Reconciled ==> p.codes == {} && p.reportedNet == p.lineTotal == p.expectedPayout)
  }

  predicate ExceptionsHold(r: ReconciliationResult) {
    forall e :: e in r.exceptions ==>
      e.runId == r.run.runId &&
      e.variance == if e.expected.Some? && e.actual.Some? then Some(e.actual.value - e.expected.value) else None
  }

  /** What a publishable result is, on its fields. */
  lemma PublishableInFull(r: ReconciliationResult)
    ensures Publishable(r) <==>
      r.run.runId != "" && !Blank(r.run.runId[0]) && !Blank(r.run.runId[|r.run.runId| - 1]) &&
      r.contractVersion == "threadline_financial_contract_v1" &&
      NothingTwice(r) && OrderRowsHold(r) && PayoutRowsHold(r) && ExceptionsHold(r)
  {
    TwiceRead(r);
    RowsRead(r);
  }

  lemma TwiceRead(r: ReconciliationResult)
    ensures NothingTwice(r) <==>
      DistinctBy(TransactionOrder, r.transactions) && DistinctBy(RowPayout, r.payouts) &&
      DistinctBy(MovementName, r.movements) && DistinctBy(ExceptionId, r.exceptions) &&
      DistinctBy(CompletenessId, r.completeness)
  {
  }

  lemma RowsRead(r: ReconciliationResult)
    ensures SoundRows(r) && r.contractVersion == CONTRACT_VERSION <==>
      OrderRowsHold(r) && PayoutRowsHold(r) && ExceptionsHold(r) && r.contractVersion == CONTRACT_VERSION
  {
    forall t | t in r.transactions
      ensures SoundTransaction(r.run, t) <==>
        t.runId == r.run.runId && t.contractVersion == "threadline_financial_contract_v1" &&
        t.collectionVariance == t.capturedTotal - t.expectedCollection &&
        t.lifetimeNet == t.capturedTotal - t.refundTotal - t.expectedFeeTotal &&
        (t.state == Reconciled ==> t.codes == {})
    {
    }
  }

  /** What the recovery worker checks once more on the serialized result: its rows and their sums. */
  lemma ArithmeticInFull(r: ReconciliationResult)
    ensures ArithmeticHolds(r) <==>
      (forall i, j :: 0 <= i < j < |r.transactions| ==> r.transactions[i].orderId != r.transactions[j].orderId) &&
      (forall i, j :: 0 <= i < j < |r.payouts| ==> r.payouts[i].payoutId != r.payouts[j].payoutId) &&
      (forall t :: t in r.transactions ==>
         t.capturedTotal == t.collectionVariance + t.expectedCollection &&
         t.capturedTotal == t.lifetimeNet + t.refundTotal + t.expectedFeeTotal) &&
      (forall p :: p in r.payouts ==>
         p.reportedNet == p.providerVariance + p.lineTotal && p.reportedNet == p.endToEndVariance + p.expectedPayout)
  {
  }

  // ---- The checking loops ----

  method RequireUnique<T, K(==)>(key: T -> K, s: seq<T>) returns (unique: bool)
    ensures unique <==> DistinctBy(key, s)
  {
    var seen: set<K> := {};
    for i := 0 to |s|
      invariant seen == set j | 0 <= j < i :: key(s[j])
      invariant DistinctBy(key, s[..i])
    {
      if key(s[i]) in seen {
        return false;
      }
      seen := seen + {key(s[i])};
    }
    assert s[..|s|] == s;
    unique := true;
  }

  method CheckEach<T>(check: T -> bool, s: seq<T>) returns (ok: bool)
    ensures ok <==> forall x :: x in s ==> check(x)
  {
    for i := 0 to |s|
      invariant forall j :: 0 <= j < i ==> check(s[j])
    {
      if !check(s[i]) {
        assert s[i] in s;
        return false;
      }
    }
    ok := true;
  }

  method ValidateForPublication(r: ReconciliationResult) returns (ok: bool)
    ensures ok <==> Publishable(r)
  {
    if !TrimmedRunId(r.run.runId) || r.contractVersion != CONTRACT_VERSION {
      return false;
    }
    ok := RequireUnique(TransactionOrder, r.transactions);
    if !ok { return; }
    ok := RequireUnique(RowPayout, r.payouts);
    if !ok { return; }
    ok := RequireUnique(MovementName, r.movements);
    if !ok { return; }
    ok := RequireUnique(ExceptionId, r.exceptions);
    if !ok { return; }
    ok := RequireUnique(CompletenessId, r.completeness);
    if !ok { return; }
    ok := CheckRows(r);
  }

  method CheckRows(r: ReconciliationResult) returns (ok: bool)
    ensures ok <==> SoundRows(r)
  {
    var run := r.run;
    var transactions := CheckEach((t: TransactionRow) => SoundTransaction(run, t), r.transactions);
    var payouts := CheckEach((p: PayoutRow) => SoundPayout(run, p), r.payouts);
    var exceptions := CheckEach((e: FinancialException) => SoundException(run, e), r.exceptions);
    ok := transactions && payouts && exceptions;
  }

  method ValidateArithmetic(r: ReconciliationResult) returns (ok: bool)
    ensures ok <==> ArithmeticHolds(r)
  {
    ok := RequireUnique(TransactionOrder, r.transactions);
    if !ok { return; }
    ok := RequireUnique(RowPayout, r.payouts);
    if !ok { return; }
    var transactions := CheckEach(t => SoundTransactionAmounts(t), r.transactions);
    var payouts := CheckEach(p => SoundPayoutAmounts(p), r.payouts);
    ok := transactions && payouts;
  }

  /** Publication is all or nothing: a rejected candidate or a failing hook leaves the current result in place. */
  class InMemoryPublicationStore {
    var current: Option<ReconciliationResult>

    constructor ()
      ensures current == None
    {
      current := None;
    }

    method Publish(candidate: ReconciliationResult, hookFails: bool) returns (published: bool)
      modifies this
      ensures published <==> Publishable(candidate) && !hookFails
      ensures current == if published then Some(candidate) else old(current)
    {
      var valid := ValidateForPublication(candidate);
      if !valid || hookFails {
        return false;
      }
      current := Some(candidate);
      published := true;
    }
  }

  // ---- Reconciled results pass ----

  lemma DistinctTransactions(run: Run, st: ReportStates, recs: Records)
    requires Ordered(recs)
    ensures DistinctBy(TransactionOrder, Transactions(run, st, recs))
    ensures forall t :: t in Transactions(run, st, recs) ==> SoundTransaction(run, t)
  {
    var ts := Transactions(run, st, recs);
    StrictNoRepeats(OrderKey, recs.orders);
    forall i, j | 0 <= i < j < |ts|
      ensures TransactionOrder(ts[i]) != TransactionOrder(ts[j])
    {
      TransactionRuleId(run, st, recs, recs.orders[i]);
      TransactionRuleId(run, st, recs, recs.orders[j]);
      assert OrderKey(recs.orders[i]) != OrderKey(recs.orders[j]);
    }
    forall t | t in ts
      ensures SoundTransaction(run, t)
    {
      var i :| 0 <= i < |ts| && ts[i] == t;
      TransactionSound(run, st, ViewOrder(recs)(recs.orders[i]));
    }
  }

  lemma TransactionSound(run: Run, st: ReportStates, v: OrderView)
    ensures SoundTransaction(run, TransactionFor(run, st, v))
  {
  }

  /** A reconciled payout is never short of one of the reports its rules need. */
  lemma PayoutSound(run: Run, st: ReportStates, v: PayoutView)
    ensures SoundPayout(run, PayoutFor(run, st, v))
  {
    var row := PayoutFor(run, st, v);
    if row.state == Reconciled {
      assert AllComplete(st, PAYOUT_REPORTS);
      assert AllComplete(st, {SettlementLines, Payouts});
      assert row.codes == {};
      assert PayoutTotalMismatch !in row.codes;
    }
  }

  lemma DistinctPayouts(run: Run, st: ReportStates, recs: Records)
    requires Ordered(recs)
    ensures DistinctBy(RowPayout, PayoutRows(run, st, recs))
    ensures forall p :: p in PayoutRows(run, st, recs) ==> SoundPayout(run, p)
  {
    var ps := PayoutRows(run, st, recs);
    StrictNoRepeats(PayoutKey, recs.payouts);
    forall i, j | 0 <= i < j < |ps|
      ensures RowPayout(ps[i]) != RowPayout(ps[j])
    {
      PayoutRowRuleId(run, st, recs, recs.payouts[i]);
      PayoutRowRuleId(run, st, recs, recs.payouts[j]);
      assert recs.payouts[i] in recs.payouts && recs.payouts[j] in recs.payouts;
      assert recs.payouts[i] != recs.payouts[j];
    }
    forall p | p in ps
      ensures SoundPayout(run, p)
    {
      var i :| 0 <= i < |ps| && ps[i] == p;
      PayoutSound(run, st, ViewPayout(recs)(recs.payouts[i]));
    }
  }

  lemma PublishedSound(run: Run, raw: seq<FinancialException>)
    requires forall e :: e in raw ==> SoundException(run, e)
    ensures DistinctBy(ExceptionId, Published(raw))
    ensures forall e :: e in Published(raw) ==> SoundException(run, e)
  {
    var kept := KeepLast(ExceptionId, raw);
    KeepLastEntries(ExceptionId, raw);
    SortMembers(ExceptionKey, kept);
    SortDistinctBy(ExceptionKey, ExceptionId, kept);
    forall e | e in Published(raw)
      ensures SoundException(run, e)
    {
      assert e in kept;
    }
  }

  lemma SortDistinctBy<T(!new), K>(key: T -> Key, id: T -> K, s: seq<T>)
    ensures DistinctBy(id, s) <==> DistinctBy(id, Sort(key, s))
  {
    SortElements(key, s);
    if DistinctBy(id, s) {
      PermutedDistinct(id, s, Sort(key, s));
    }
    if DistinctBy(id, Sort(key, s)) {
      PermutedDistinct(id, Sort(key, s), s);
    }
  }

  lemma PermutedDistinct<T(!new), K>(id: T -> K, s: seq<T>, r: seq<T>)
    requires DistinctBy(id, s) && multiset(s) == multiset(r)
    ensures DistinctBy(id, r)
  {
    forall i, j | 0 <= i < j < |r|
      ensures id(r[i]) != id(r[j])
    {
      assert r[i] in multiset(r) && r[j] in multiset(r);
      assert r[i] in s && r[j] in s;
      if id(r[i]) == id(r[j]) {
        SameIdSameElement(id, s, r[i], r[j]);
        TwiceInMultiset(r, i, j);
        OnceInMultiset(id, s, r[i]);
      }
    }
  }

  lemma SameIdSameElement<T, K>(id: T -> K, s: seq<T>, x: T, y: T)
    requires DistinctBy(id, s) && x in s && y in s && id(x) == id(y)
    ensures x == y
  {
    var i :| 0 <= i < |s| && s[i] == x;
    var j :| 0 <= j < |s| && s[j] == y;
  }

  lemma TwiceInMultiset<T>(s: seq<T>, i: nat, j: nat)
    requires i < j < |s| && s[i] == s[j]
    ensures multiset(s)[s[i]] >= 2
  {
    assert s == s[..i] + [s[i]] + s[i + 1..j] + [s[j]] + s[j + 1..];
  }

  lemma OnceInMultiset<T, K>(id: T -> K, s: seq<T>, x: T)
    requires DistinctBy(id, s) && x in s
    ensures multiset(s)[x] == 1
  {
    var i :| 0 <= i < |s| && s[i] == x;
    assert s == s[..i] + [x] + s[i + 1..];
    assert forall j :: 0 <= j < |s| && j != i ==> s[j] != x;
    assert x !in s[..i] && x !in s[i + 1..];
  }

  // ---- Movement names ----

  /** A capture whose fee movement takes its id from the payment, and a reported fee that has that very id
      and is the only fee of its own capture. */
  ghost predicate SyntheticCollision(recs: Records) {
    exists p, q :: CollidingFees(recs, p, q)
  }

  ghost predicate CollidingFees(recs: Records, p: Payment, q: Payment) {
    p in CapturedPayments(recs) && q in CapturedPayments(recs) && |FeesOf(recs, p.paymentId)| != 1 &&
    |FeesOf(recs, q.paymentId)| == 1 &&
    FeesOf(recs, q.paymentId)[0].feeId == SyntheticFeeId(p.paymentId)
  }

  lemma SyntheticIdInjective(p: string, q: string)
    requires SyntheticFeeId(p) == SyntheticFeeId(q)
    ensures p == q
  {
    assert SyntheticFeeId(p)[13..] == p && SyntheticFeeId(q)[13..] == q;
  }

  lemma FeesOfMember(recs: Records, paymentId: string)
    ensures forall f :: f in FeesOf(recs, paymentId) ==> f in recs.fees && f.paymentId == paymentId
  {
    FilterMembers(KeyIs(FeePaymentId, paymentId), recs.fees);
    forall f | f in FeesOf(recs, paymentId)
      ensures f.paymentId == paymentId
    {
      assert FeePaymentId(f) == paymentId;
    }
  }

  lemma SameFeeRecord(recs: Records, f: Fee, g: Fee)
    requires Ordered(recs) && f in recs.fees && g in recs.fees && f.feeId == g.feeId
    ensures f == g
  {
    StrictNoRepeats(FeeKey, recs.fees);
    var i :| 0 <= i < |recs.fees| && recs.fees[i] == f;
    var j :| 0 <= j < |recs.fees| && recs.fees[j] == g;
    assert FeeKey(recs.fees[i]) == FeeKey(recs.fees[j]);
  }

  function FeeName(recs: Records, p: Payment): string { FeeMovementId(ViewCapture(recs)(p)) }

  lemma FeeNameIs(recs: Records, p: Payment)
    ensures FeeName(recs, p) == if |FeesOf(recs, p.paymentId)| == 1 then FeesOf(recs, p.paymentId)[0].feeId
      else SyntheticFeeId(p.paymentId)
  {
    assert ViewCapture(recs)(p).fees == FeesOf(recs, p.paymentId) && ViewCapture(recs)(p).payment == p;
  }

  /** Two captures give their fee movements one id only by a synthetic collision. */
  lemma SharedFeeName(recs: Records, p: Payment, q: Payment)
    requires Ordered(recs) && p in CapturedPayments(recs) && q in CapturedPayments(recs) && p.paymentId != q.paymentId
    ensures FeeName(recs, p) == FeeName(recs, q) <==> CollidingFees(recs, p, q) || CollidingFees(recs, q, p)
  {
    FeeNameIs(recs, p);
    FeeNameIs(recs, q);
    FeesOfMember(recs, p.paymentId);
    FeesOfMember(recs, q.paymentId);
    var fs, gs := FeesOf(recs, p.paymentId), FeesOf(recs, q.paymentId);
    if |fs| == 1 && |gs| == 1 {
      assert fs[0] in fs && gs[0] in gs;
      if fs[0].feeId == gs[0].feeId {
        SameFeeRecord(recs, fs[0], gs[0]);
      }
    }
    if SyntheticFeeId(p.paymentId) == SyntheticFeeId(q.paymentId) {
      SyntheticIdInjective(p.paymentId, q.paymentId);
    }
  }

  lemma {:induction false} FlatMapDistinct<T(!new), U(!new), K>(f: T -> seq<U>, key: U -> K, s: seq<T>)
    requires forall x :: x in s ==> DistinctBy(key, f(x))
    requires forall i, j, a, b :: 0 <= i < j < |s| && a in f(s[i]) && b in f(s[j]) ==> key(a) != key(b)
    ensures DistinctBy(key, FlatMap(f, s))
  {
    if s != [] {
      var init, last := s[..|s| - 1], s[|s| - 1];
      assert forall i :: 0 <= i < |init| ==> init[i] == s[i];
      FlatMapDistinct(f, key, init);
      forall a, b | a in FlatMap(f, init) && b in f(last)
        ensures key(a) != key(b)
      {
        FlatMapMember(f, init, a);
        var x :| x in init && a in f(x);
        var i :| 0 <= i < |init| && init[i] == x;
        assert a in f(s[i]) && b in f(s[|s| - 1]);
      }
      DistinctJoin(key, FlatMap(f, init), f(last));
    }
  }

  lemma CaptureMovementNames(recs: Records, p: Payment, m: ExpectedMovement)
    requires m in MovementsOfCapture(recs)(p)
    ensures MovementName(m) == MovementRef(CaptureMovement, p.paymentId) ||
      MovementName(m) == MovementRef(FeeMovement, FeeName(recs, p))
  {
    assert ViewCapture(recs)(p).payment == p;
    assert MovementsOfCapture(recs)(p) == CaptureMovements(ViewCapture(recs)(p));
  }

  lemma CaptureMovementsDistinct(recs: Records)
    requires Ordered(recs) && !SyntheticCollision(recs)
    ensures DistinctBy(MovementName, FlatMap(MovementsOfCapture(recs), CapturedPayments(recs)))
  {
    var ps, f := CapturedPayments(recs), MovementsOfCapture(recs);
    FilterStrict(PaymentKey, IsCaptured, recs.payments);
    StrictNoRepeats(PaymentKey, ps);
    forall i, j, a, b | 0 <= i < j < |ps| && a in f(ps[i]) && b in f(ps[j])
      ensures MovementName(a) != MovementName(b)
    {
      assert ps[i] in ps && ps[j] in ps && PaymentKey(ps[i]) != PaymentKey(ps[j]);
      CaptureMovementNames(recs, ps[i], a);
      CaptureMovementNames(recs, ps[j], b);
      SharedFeeName(recs, ps[i], ps[j]);
    }
    forall p | p in ps
      ensures DistinctBy(MovementName, f(p))
    {
      assert f(p) == CaptureMovements(ViewCapture(recs)(p));
    }
    FlatMapDistinct(f, MovementName, ps);
  }

  lemma RefundMovementsDistinct(recs: Records)
    requires Ordered(recs)
    ensures DistinctBy(MovementName, Map(RefundMovementOf, SuccessfulRefunds(recs)))
  {
    var rs := SuccessfulRefunds(recs);
    FilterStrict(RefundKey, IsSucceeded, recs.refunds);
    StrictNoRepeats(RefundKey, rs);
    forall i, j | 0 <= i < j < |rs|
      ensures MovementName(Map(RefundMovementOf, rs)[i]) != MovementName(Map(RefundMovementOf, rs)[j])
    {
      assert RefundKey(rs[i]) != RefundKey(rs[j]);
    }
  }

  lemma RawMovementsDistinct(recs: Records)
    requires Ordered(recs) && !SyntheticCollision(recs)
    ensures DistinctBy(MovementName,
                       FlatMap(MovementsOfCapture(recs), CapturedPayments(recs))
                       + Map(RefundMovementOf, SuccessfulRefunds(recs)))
  {
    var a, b := FlatMap(MovementsOfCapture(recs), CapturedPayments(recs)),
      Map(RefundMovementOf, SuccessfulRefunds(recs));
    CaptureMovementsDistinct(recs);
    RefundMovementsDistinct(recs);
    forall x, y | x in a && y in b
      ensures MovementName(x) != MovementName(y)
    {
      FlatMapMember(MovementsOfCapture(recs), CapturedPayments(recs), x);
      var p :| p in CapturedPayments(recs) && x in MovementsOfCapture(recs)(p);
      CaptureMovementNames(recs, p, x);
      MapMember(RefundMovementOf, SuccessfulRefunds(recs), y);
    }
    DistinctJoin(MovementName, a, b);
  }

  lemma FeeMovementPresent(recs: Records, p: Payment) returns (m: ExpectedMovement)
    requires p in CapturedPayments(recs)
    ensures m in FlatMap(MovementsOfCapture(recs), CapturedPayments(recs))
    ensures MovementName(m) == MovementRef(FeeMovement, FeeName(recs, p)) && |m.support| > 0 &&
      m.support[0] == PaymentRef(p)
  {
    assert ViewCapture(recs)(p).payment == p;
    m := CaptureMovements(ViewCapture(recs)(p))[1];
    assert m in MovementsOfCapture(recs)(p);
    FlatMapMember(MovementsOfCapture(recs), CapturedPayments(recs), m);
    assert m.support[0] == PaymentRef(p);
  }

  lemma CollisionRepeats(recs: Records, p: Payment, q: Payment)
    requires Ordered(recs) && CollidingFees(recs, p, q)
    ensures !DistinctBy(MovementName,
                        FlatMap(MovementsOfCapture(recs), CapturedPayments(recs))
                        + Map(RefundMovementOf, SuccessfulRefunds(recs)))
  {
    SharedFeeName(recs, p, q);
    var m := FeeMovementPresent(recs, p);
    var n := FeeMovementPresent(recs, q);
    assert m != n;
    TwoOfOneName(FlatMap(MovementsOfCapture(recs), CapturedPayments(recs)),
                 Map(RefundMovementOf, SuccessfulRefunds(recs)), m, n);
  }

  lemma TwoOfOneName(a: seq<ExpectedMovement>, b: seq<ExpectedMovement>, m: ExpectedMovement, n: ExpectedMovement)
    requires m in a && n in a && m != n && MovementName(m) == MovementName(n)
    ensures !DistinctBy(MovementName, a + b)
  {
    var i :| 0 <= i < |a| && a[i] == m;
    var j :| 0 <= j < |a| && a[j] == n;
    assert (a + b)[i] == m && (a + b)[j] == n;
    assert i < j || j < i;
  }

  /** Movement keys are unique exactly when no reported fee takes a synthetic id. */
  lemma MovementsDistinct(recs: Records)
    requires Ordered(recs)
    ensures DistinctBy(MovementName, Movements(recs)) <==> !SyntheticCollision(recs)
  {
    var raw := FlatMap(MovementsOfCapture(recs), CapturedPayments(recs))
      + Map(RefundMovementOf, SuccessfulRefunds(recs));
    SortDistinctBy(MovementKey, MovementName, raw);
    if !SyntheticCollision(recs) {
      RawMovementsDistinct(recs);
    }
    if p, q :| CollidingFees(recs, p, q) {
      CollisionRepeats(recs, p, q);
    }
  }

  // ---- The theorem ----

  lemma ExceptionsSound(run: Run, st: ReportStates, recs: Records, conflictExceptions: seq<FinancialException>,
                        sorted: seq<CompletenessResult>)
    requires forall e :: e in conflictExceptions ==> SoundException(run, e)
    ensures var raw := FlatMap(CompletenessExceptions(run), sorted) + conflictExceptions
      + RecordExceptions(run, st, recs);
      forall e :: e in raw ==> SoundException(run, e)
  {
    CompletenessFromRules(run, sorted);
    RecordExceptionsFromRules(run, st, recs);
  }

  lemma CompletenessDistinct(sorted: seq<CompletenessResult>)
    requires DistinctBy(ReportOf, sorted)
    ensures DistinctBy(CompletenessId, Map(StatusOf, sorted))
  {
    forall i, j | 0 <= i < j < |sorted|
      ensures CompletenessId(Map(StatusOf, sorted)[i]) != CompletenessId(Map(StatusOf, sorted)[j])
    {
      assert ReportOf(sorted[i]) != ReportOf(sorted[j]);
    }
  }

  /** `result` carries the run's rows and these exceptions about source conflicts. */
  ghost predicate Assembled(result: ReconciliationResult, run: Run, st: ReportStates, recs: Records,
                            conflictExceptions: seq<FinancialException>, sorted: seq<CompletenessResult>)
  {
    result == ReconciliationResult(
      run, CONTRACT_VERSION, Transactions(run, st, recs), Movements(recs), PayoutRows(run, st, recs),
      Published(FlatMap(CompletenessExceptions(run), sorted) + conflictExceptions + RecordExceptions(run, st, recs)),
      Map(StatusOf, sorted))
  }

  lemma AssembledSound(result: ReconciliationResult, run: Run, st: ReportStates, recs: Records,
                       conflictExceptions: seq<FinancialException>, sorted: seq<CompletenessResult>)
    requires Ordered(recs) && InputRejection(run, sorted).None? &&
      Assembled(result, run, st, recs, conflictExceptions, sorted)
    requires forall e :: e in conflictExceptions ==> SoundException(run, e)
    ensures Publishable(result) <==> !SyntheticCollision(recs)
    ensures ArithmeticHolds(result)
  {
    DistinctTransactions(run, st, recs);
    DistinctPayouts(run, st, recs);
    MovementsDistinct(recs);
    CompletenessDistinct(sorted);
    ExceptionsSound(run, st, recs, conflictExceptions, sorted);
    PublishedSound(run,
                   FlatMap(CompletenessExceptions(run), sorted) + conflictExceptions + RecordExceptions(run, st, recs));
  }

  lemma ConflictExceptionsSound(run: Run, conflicts: seq<Conflict>)
    ensures forall e :: e in FlatMap(ConflictExceptions(run), conflicts) ==> SoundException(run, e)
  {
    forall e | e in FlatMap(ConflictExceptions(run), conflicts)
      ensures SoundException(run, e)
    {
      FlatMapMember(ConflictExceptions(run), conflicts, e);
    }
  }

  /** Whatever the reconciler returns passes the arithmetic check, and passes the publication check exactly when
      no reported fee id collides with a synthetic one. */
  lemma ReconcilerOutputPublishable(run: Run, records: seq<FinancialRecord>, conflicts: seq<Conflict>,
                                    completeness: seq<CompletenessResult>)
    requires UniqueIdentities(records) && ResultFor(run, records, conflicts, completeness).Success?
    ensures var r := ResultFor(run, records, conflicts, completeness).value;
      (Publishable(r) <==> !SyntheticCollision(Split(records))) && ArithmeticHolds(r)
  {
    SplitOrdered(records);
    var sorted := Sort(StatusKey, completeness);
    ConflictExceptionsSound(run, conflicts);
    AssembledSound(ResultFor(run, records, conflicts, completeness).value, run, StatesOf(sorted), Split(records),
                   FlatMap(ConflictExceptions(run), conflicts), sorted);
  }
}
