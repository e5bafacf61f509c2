/** Incremental reconciliation: reconcile only the records a window plan names, and keep every other published row.
    The frame of the plan is used twice, between the old and the new ledger outside the plan, and between the
    planned records and the whole new ledger inside it. */
module Refresh {
  import opened Sequences
  import opened Contracts
  import opened Rules
  import opened Ledger
  import opened Reconciliation
  import opened Exceptions
  import opened Incremental
  import Marks
  import Publication
  import RB = Rebuild
  import Canonicalize
  import AW = AffectedWindows

  function KeysOf(plan: AW.Plan): set<RecordKey> { set k | k in plan.sourceKeys }

  function DaysOf(plan: AW.Plan): set<int> { set d | d in plan.payoutDates }

  function Planned(plan: AW.Plan): FinancialRecord -> bool {
    (r: FinancialRecord) => KeyOf(r) in plan.sourceKeys
  }

  /** The only records an incremental run looks at. */
  function PlannedRecords(plan: AW.Plan, records: seq<FinancialRecord>): seq<FinancialRecord> {
    Filter(Planned(plan), records)
  }

  // ---- The planned records as a ledger of their own ----

  /** What lies beyond the plan: every other record and everything such a record names. */
  function Beyond(records: seq<FinancialRecord>, keys: set<RecordKey>): set<RecordKey> {
    (set r | r in records && KeyOf(r) !in keys :: KeyOf(r)) +
    (set r, p | r in records && KeyOf(r) !in keys && p in References(r) :: p)
  }

  function DaysBeyond(records: seq<FinancialRecord>, keys: set<RecordKey>): set<int> {
    set r | r in records && KeyOf(r) !in keys && AW.FactDay(AW.FactOf(r)).Some? :: AW.FactDay(AW.FactOf(r)).value
  }

  /** `i` holds the records of `a` inside `keys`. */
  ghost predicate InsideOf(i: Records, a: Records, keys: set<RecordKey>) {
    Ordered(i) && forall r :: Contains(i, r) <==> Contains(a, r) && KeyOf(r) in keys
  }

  lemma BeyondDisjoint(records: seq<FinancialRecord>, keys: set<RecordKey>, days: set<int>)
    requires Frames(Split(records), Split(records), keys, days)
    ensures Beyond(records, keys) !! keys && DaysBeyond(records, keys) !! days
  {
    forall r | r in records
      ensures Contains(Split(records), r) && FramedRecord(r, keys, days)
    {
      SplitContains(records, r);
    }
  }

  /** A record inside the plan names nothing beyond it and shares no day with it; a record outside lies beyond. */
  lemma BeyondFrames(records: seq<FinancialRecord>, keys: set<RecordKey>, days: set<int>, r: FinancialRecord)
    requires Frames(Split(records), Split(records), keys, days) && r in records
    ensures KeyOf(r) in Beyond(records, keys) <==> KeyOf(r) !in keys
    ensures forall p :: p in References(r) ==> (p in Beyond(records, keys) <==> p !in keys)
    ensures FramedRecord(r, Beyond(records, keys), DaysBeyond(records, keys))
  {
    BeyondDisjoint(records, keys, days);
    SplitContains(records, r);
    assert Contains(Split(records), r) && FramedRecord(r, keys, days);
    if KeyOf(r) !in keys && AW.FactDay(AW.FactOf(r)).Some? {
      assert AW.FactDay(AW.FactOf(r)).value in DaysBeyond(records, keys);
    }
  }

  /** The planned records and the whole ledger are framed by what lies beyond. */
  lemma PlannedFrames(records: seq<FinancialRecord>, i: Records, keys: set<RecordKey>, days: set<int>)
    requires Frames(Split(records), Split(records), keys, days) && InsideOf(i, Split(records), keys)
    ensures Frames(i, Split(records), Beyond(records, keys), DaysBeyond(records, keys))
  {
    forall r | Contains(i, r) || Contains(Split(records), r)
      ensures Contains(i, r) != Contains(Split(records), r) ==> KeyOf(r) in Beyond(records, keys)
      ensures FramedRecord(r, Beyond(records, keys), DaysBeyond(records, keys))
    {
      SplitContains(records, r);
      BeyondFrames(records, keys, days, r);
    }
  }

  lemma {:induction false} FilterUnique(p: FinancialRecord -> bool, rs: seq<FinancialRecord>)
    requires UniqueIdentities(rs)
    ensures UniqueIdentities(Filter(p, rs))
  {
    if rs != [] {
      var init, last := rs[..|rs| - 1], rs[|rs| - 1];
      FilterUnique(p, init);
      FilterMembers(p, init);
      forall x | x in Filter(p, init)
        ensures KeyOf(x) != KeyOf(last)
      {
        var j :| 0 <= j < |init| && init[j] == x;
        assert rs[j] == x;
      }
    }
  }

  lemma PlannedInside(plan: AW.Plan, records: seq<FinancialRecord>, keys: set<RecordKey>)
    requires UniqueIdentities(records) && keys == KeysOf(plan)
    ensures InsideOf(Split(PlannedRecords(plan, records)), Split(records), keys)
    ensures forall r :: r in PlannedRecords(plan, records) ==> r in records
  {
    FilterUnique(Planned(plan), records);
    SplitOrdered(PlannedRecords(plan, records));
    FilterMembers(Planned(plan), records);
    forall r
      ensures Contains(Split(PlannedRecords(plan, records)), r) <==> Contains(Split(records), r) && KeyOf(r) in keys
    {
      SplitContains(PlannedRecords(plan, records), r);
      SplitContains(records, r);
      assert r in PlannedRecords(plan, records) <==> r in records && Planned(plan)(r);
    }
  }

  // ---- An incremental run succeeds ----

  lemma InsideMembers(i: Records, a: Records, keys: set<RecordKey>)
    requires InsideOf(i, a, keys)
    ensures forall o :: o in i.orders <==> o in a.orders && RecordKey(OrderType, o.orderId) in keys
    ensures forall p :: p in i.payments <==> p in a.payments && RecordKey(PaymentType, p.paymentId) in keys
    ensures forall f :: f in i.refunds <==> f in a.refunds && RecordKey(RefundType, f.refundId) in keys
    ensures forall p :: p in i.payouts <==> p in a.payouts && RecordKey(PayoutType, p.payoutId) in keys
  {
    forall o: Order
      ensures o in i.orders <==> o in a.orders && RecordKey(OrderType, o.orderId) in keys
    {
      assert Contains(i, OrderRecord(o)) <==> Contains(a, OrderRecord(o)) && KeyOf(OrderRecord(o)) in keys;
    }
    forall p: Payment
      ensures p in i.payments <==> p in a.payments && RecordKey(PaymentType, p.paymentId) in keys
    {
      assert Contains(i, PaymentRecord(p)) <==> Contains(a, PaymentRecord(p)) && KeyOf(PaymentRecord(p)) in keys;
    }
    forall f: Refund
      ensures f in i.refunds <==> f in a.refunds && RecordKey(RefundType, f.refundId) in keys
    {
      assert Contains(i, RefundRecord(f)) <==> Contains(a, RefundRecord(f)) && KeyOf(RefundRecord(f)) in keys;
    }
    forall p: Payout
      ensures p in i.payouts <==> p in a.payouts && RecordKey(PayoutType, p.payoutId) in keys
    {
      assert Contains(i, PayoutRecord(p)) <==> Contains(a, PayoutRecord(p)) && KeyOf(PayoutRecord(p)) in keys;
    }
  }

  lemma InsideAccepted(i: Records, a: Records, keys: set<RecordKey>)
    requires InsideOf(i, a, keys) && RecordRejection(a).None?
    ensures RecordRejection(i).None?
  {
    InsideMembers(i, a, keys);
    FilterMembers(IsCaptured, i.payments);
    FilterMembers(IsCaptured, a.payments);
    FilterMembers(IsSucceeded, i.refunds);
    FilterMembers(IsSucceeded, a.refunds);
  }

  // ---- Its rows are the rebuilt rows inside the plan ----

  lemma PlannedTransactions(i: Records, a: Records, co: set<RecordKey>, cd: set<int>, keys: set<RecordKey>, run: Run,
                            st: ReportStates,
                            orderIds: seq<string>)
    requires Frames(i, a, co, cd) && InsideOf(i, a, keys) && co !! keys
    requires forall id :: id in orderIds <==> RecordKey(OrderType, id) in keys
    ensures Transactions(run, st, i) == Filter(Not(TransactionOutside(orderIds)), Transactions(run, st, a))
  {
    var p, row, rule := Not(OrdersOutside(keys)), Not(TransactionOutside(orderIds)), TransactionRule(run, st, a);
    InsideMembers(i, a, keys);
    FilterMembers(p, a.orders);
    FilterStrict(OrderKey, p, a.orders);
    StrictlySortedUnique(OrderKey, i.orders, Filter(p, a.orders));
    forall o | o in a.orders
      ensures row(rule(o)) == p(o)
    {
      TransactionRuleId(run, st, a, o);
    }
    FilterMap(row, p, rule, a.orders);
    forall o | o in i.orders
      ensures TransactionRule(run, st, i)(o) == rule(o)
    {
      SameTransaction(i, a, co, cd, run, st, o);
    }
    MapAgree(TransactionRule(run, st, i), rule, i.orders);
  }

  lemma PlannedPayouts(i: Records, a: Records, co: set<RecordKey>, cd: set<int>, keys: set<RecordKey>, run: Run,
                       st: ReportStates,
                       payoutIds: seq<string>)
    requires Frames(i, a, co, cd) && InsideOf(i, a, keys) && co !! keys && Datable(i) && Datable(a)
    requires forall id :: id in payoutIds <==> RecordKey(PayoutType, id) in keys
    ensures PayoutRows(run, st, i) == Filter(Not(PayoutOutside(payoutIds)), PayoutRows(run, st, a))
  {
    var p, row, rule := Not(PayoutsOutside(keys)), Not(PayoutOutside(payoutIds)), PayoutRowRule(run, st, a);
    InsideMembers(i, a, keys);
    FilterMembers(p, a.payouts);
    FilterStrict(PayoutKey, p, a.payouts);
    StrictlySortedUnique(PayoutKey, i.payouts, Filter(p, a.payouts));
    forall o | o in a.payouts
      ensures row(rule(o)) == p(o)
    {
      PayoutRowRuleId(run, st, a, o);
    }
    FilterMap(row, p, rule, a.payouts);
    forall o | o in i.payouts
      ensures PayoutRowRule(run, st, i)(o) == rule(o)
    {
      SamePayoutRow(i, a, co, cd, run, st, o);
    }
    MapAgree(PayoutRowRule(run, st, i), rule, i.payouts);
  }

  ghost predicate DatedIn(recs: Records, day: int) {
    exists r :: Contains(recs, r) && AW.FactDay(AW.FactOf(r)) == Some(day)
  }

  lemma CaptureDated(recs: Records, p: Payment, m: ExpectedMovement)
    requires Datable(recs) && p in CapturedPayments(recs) && m in MovementsOfCapture(recs)(p)
    ensures DatedIn(recs, m.availableOn)
  {
    FilterMember(IsCaptured, recs.payments, p);
    CaptureMovementsDay(ViewCapture(recs)(p), m);
    assert Contains(recs, PaymentRecord(p)) && AW.FactDay(AW.FactOf(PaymentRecord(p))) == p.availableOn;
  }

  lemma RefundDated(recs: Records, f: Refund)
    requires Datable(recs) && f in SuccessfulRefunds(recs)
    ensures DatedIn(recs, RefundMovementOf(f).availableOn)
  {
    FilterMember(IsSucceeded, recs.refunds, f);
    assert Contains(recs, RefundRecord(f)) && AW.FactDay(AW.FactOf(RefundRecord(f))) == f.availableOn;
  }

  /** A movement is expected on the day of the capture or refund it comes from. */
  lemma MovementSource(recs: Records, m: ExpectedMovement)
    requires Datable(recs) && m in Movements(recs)
    ensures DatedIn(recs, m.availableOn)
  {
    SortMembers(MovementKey,
                FlatMap(MovementsOfCapture(recs), CapturedPayments(recs))
                + Map(RefundMovementOf, SuccessfulRefunds(recs)));
    FlatMapMember(MovementsOfCapture(recs), CapturedPayments(recs), m);
    MapMember(RefundMovementOf, SuccessfulRefunds(recs), m);
    if p :| p in CapturedPayments(recs) && m in MovementsOfCapture(recs)(p) {
      CaptureDated(recs, p, m);
    } else {
      var f :| f in SuccessfulRefunds(recs) && RefundMovementOf(f) == m;
      RefundDated(recs, f);
    }
  }

  lemma PlannedMovements(records: seq<FinancialRecord>, i: Records, keys: set<RecordKey>, days: set<int>)
    requires Frames(Split(records), Split(records), keys, days) && InsideOf(i, Split(records), keys)
    requires Datable(i) && Datable(Split(records))
    ensures Movements(i) == Filter(Not(OffDays(days)), Movements(Split(records)))
    ensures forall m :: m in Movements(Split(records)) ==>
      (m.availableOn in DaysBeyond(records, keys) <==> m.availableOn !in days)
  {
    var a, co, cd := Split(records), Beyond(records, keys), DaysBeyond(records, keys);
    PlannedFrames(records, i, keys, days);
    BeyondDisjoint(records, keys, days);
    SameMovementsOffDays(i, a, co, cd);
    forall m | m in Movements(a)
      ensures m.availableOn in cd <==> m.availableOn !in days
    {
      MovementSource(a, m);
      var r :| Contains(a, r) && AW.FactDay(AW.FactOf(r)) == Some(m.availableOn);
      SplitContains(records, r);
      BeyondFrames(records, keys, days, r);
      assert FramedRecord(r, keys, days);
    }
    FilterAgree(OffDays(cd), Not(OffDays(days)), Movements(a));
    forall m | m in Movements(i)
      ensures OffDays(cd)(m)
    {
      MovementSource(i, m);
      var r :| Contains(i, r) && AW.FactDay(AW.FactOf(r)) == Some(m.availableOn);
      SplitContains(records, r);
      BeyondFrames(records, keys, days, r);
    }
    FilterUniform(OffDays(cd), Movements(i), true);
  }

  // ---- Whose examination an exception comes from ----

  /** Read off the identity of an exception raised by a record rule: it concerns nothing in `keys`, and no movement
      in `names`. */
  function ExceptionOutside(keys: set<RecordKey>, names: set<MovementRef>): FinancialException -> bool {
    (e: FinancialException) =>
      !IsConflictException(e) &&
      match e.subject
      case RecordSubject(k) => k !in keys
      case SettlementMovementSubject(kind, id) => RecordKey(MovementEntity(kind), id) !in keys
      case ExpectedMovementSubject(kind, id) => MovementRef(kind, id) !in names
      case SourceReportSubject(_, _) => false
  }

  /** `names` are the movements expected on `days`. */
  ghost predicate NamesDays(recs: Records, names: set<MovementRef>, days: set<int>) {
    forall m :: m in Movements(recs) ==> (MovementName(m) in names <==> m.availableOn in days)
  }

  lemma Examiner<T(!new)>(rule: T -> seq<FinancialException>, id: T -> string, s: seq<T>, k: string,
                          e: FinancialException) returns (x: T)
    requires e in FlatMap(rule, Filter(KeyIs(id, k), s))
    ensures x in s && id(x) == k && e in rule(x)
  {
    FlatMapMember(rule, Filter(KeyIs(id, k), s), e);
    x :| x in Filter(KeyIs(id, k), s) && e in rule(x);
    FilterMember(KeyIs(id, k), s, x);
  }

  ghost predicate Framed(recs: Records, keys: set<RecordKey>, days: set<int>) {
    Frames(recs, recs, keys, days)
  }

  lemma OrderSide(recs: Records, keys: set<RecordKey>, names: set<MovementRef>, run: Run, st: ReportStates, id: string,
                  e: FinancialException)
    requires e in RaisedBy(run, st, recs, RecordKey(OrderType, id))
    ensures ExceptionOutside(keys, names)(e) <==> RecordKey(OrderType, id) !in keys
    ensures exists o :: o in recs.orders && o.orderId == id
  {
    var o := Examiner(OrderRule(run, st, recs), OrderId, recs.orders, id, e);
    OrderSubject(run, st, ViewOrder(recs)(o), e);
  }

  lemma OrderSubject(run: Run, st: ReportStates, v: OrderView, e: FinancialException)
    requires e in OrderExceptions(run, st, v)
    ensures e.subject == RecordSubject(RecordKey(OrderType, v.order.orderId)) && !IsConflictException(e)
  {
  }

  lemma PaymentLinkSide(recs: Records, keys: set<RecordKey>, days: set<int>, names: set<MovementRef>, run: Run,
                        st: ReportStates, p: Payment,
                        e: FinancialException)
    requires Framed(recs, keys, days) && p in recs.payments && e in PaymentLinkRule(run, st, recs)(p)
    ensures ExceptionOutside(keys, names)(e) <==> RecordKey(PaymentType, p.paymentId) !in keys
  {
    PaymentFrame(recs, recs, keys, days, p);
    LookupMember(OrderId, recs.orders, p.orderId);
    assert PaymentLinkRule(run, st, recs)(p) == PaymentLinkExceptions(run, st, ViewCapture(recs)(p));
  }

  lemma CaptureSide(recs: Records, keys: set<RecordKey>, names: set<MovementRef>, run: Run, st: ReportStates,
                    p: Payment, e: FinancialException)
    requires e in ExcessRefundRule(run, st, recs)(p) || e in FeeAmountRule(run, st, recs)(p)
    ensures ExceptionOutside(keys, names)(e) <==> RecordKey(PaymentType, p.paymentId) !in keys
  {
    assert ExcessRefundRule(run, st, recs)(p) == ExcessRefundExceptions(run, st, ViewCapture(recs)(p));
    assert FeeAmountRule(run, st, recs)(p) == FeeAmountExceptions(run, st, ViewCapture(recs)(p));
  }

  lemma AllocationSide(recs: Records, keys: set<RecordKey>, names: set<MovementRef>, run: Run, st: ReportStates,
                       k: MovementRef, e: FinancialException)
    requires e in AllocationRule(run, st, recs)(k)
    ensures ExceptionOutside(keys, names)(e) <==> RecordKey(MovementEntity(k.kind), k.id) !in keys
    ensures exists l :: l in recs.lines && LineMovement(l) == k
  {
    assert AllocationRule(run, st, recs)(k) == AllocationExceptions(run, st, ViewAllocation(recs)(k));
    assert ViewAllocation(recs)(k).lines == LinesCarrying(recs, k);
    var l := LinesCarrying(recs, k)[0];
    FilterMember(KeyIs(LineMovement, k), recs.lines, l);
    assert LineMovement(l) == k;
  }

  lemma PaymentSide(recs: Records, keys: set<RecordKey>, days: set<int>, names: set<MovementRef>, run: Run,
                    st: ReportStates, id: string,
                    e: FinancialException)
    requires Framed(recs, keys, days) && e in RaisedBy(run, st, recs, RecordKey(PaymentType, id))
    ensures ExceptionOutside(keys, names)(e) <==> RecordKey(PaymentType, id) !in keys
    ensures (exists p :: p in recs.payments && p.paymentId == id) ||
      (exists l :: l in recs.lines && LineMovement(l) == MovementRef(CaptureMovement, id))
  {
    var ps := CapturedPayments(recs);
    FilterMembers(IsCaptured, recs.payments);
    if e in FlatMap(PaymentLinkRule(run, st, recs), Filter(KeyIs(PaymentId, id), ps)) {
      var p := Examiner(PaymentLinkRule(run, st, recs), PaymentId, ps, id, e);
      PaymentLinkSide(recs, keys, days, names, run, st, p, e);
    } else if e in FlatMap(ExcessRefundRule(run, st, recs), Filter(KeyIs(PaymentId, id), ps)) {
      var p := Examiner(ExcessRefundRule(run, st, recs), PaymentId, ps, id, e);
      CaptureSide(recs, keys, names, run, st, p, e);
    } else if e in FlatMap(FeeAmountRule(run, st, recs), Filter(KeyIs(PaymentId, id), ps)) {
      var p := Examiner(FeeAmountRule(run, st, recs), PaymentId, ps, id, e);
      CaptureSide(recs, keys, names, run, st, p, e);
    } else {
      AllocationSide(recs, keys, names, run, st, MovementRef(CaptureMovement, id), e);
    }
  }

  lemma RefundSubject(run: Run, st: ReportStates, v: RefundView, e: FinancialException)
    requires e in RefundLinkExceptions(run, st, v)
    ensures e.subject == RecordSubject(RecordKey(RefundType, v.refund.refundId)) && !IsConflictException(e)
  {
  }

  lemma RefundSide(recs: Records, keys: set<RecordKey>, names: set<MovementRef>, run: Run, st: ReportStates, id: string,
                   e: FinancialException)
    requires e in RaisedBy(run, st, recs, RecordKey(RefundType, id))
    ensures ExceptionOutside(keys, names)(e) <==> RecordKey(RefundType, id) !in keys
    ensures (exists f :: f in recs.refunds && f.refundId == id) ||
      (exists l :: l in recs.lines && LineMovement(l) == MovementRef(RefundMovement, id))
  {
    FilterMembers(IsSucceeded, recs.refunds);
    if e in FlatMap(RefundLinkRule(run, st, recs), Filter(KeyIs(RefundIdOf, id), SuccessfulRefunds(recs))) {
      var f := Examiner(RefundLinkRule(run, st, recs), RefundIdOf, SuccessfulRefunds(recs), id, e);
      RefundSubject(run, st, ViewRefund(recs)(f), e);
    } else {
      AllocationSide(recs, keys, names, run, st, MovementRef(RefundMovement, id), e);
    }
  }

  lemma FeeSide(recs: Records, keys: set<RecordKey>, names: set<MovementRef>, run: Run, st: ReportStates, id: string,
                e: FinancialException)
    requires e in RaisedBy(run, st, recs, RecordKey(FeeType, id))
    ensures ExceptionOutside(keys, names)(e) <==> RecordKey(FeeType, id) !in keys
    ensures (exists f :: f in recs.fees && f.feeId == id) ||
      (exists l :: l in recs.lines && LineMovement(l) == MovementRef(FeeMovement, id))
  {
    if e in FlatMap(FeeLinkRule(run, st, recs), Filter(KeyIs(FeeId, id), recs.fees)) {
      var f := Examiner(FeeLinkRule(run, st, recs), FeeId, recs.fees, id, e);
      assert FeeLinkRule(run, st, recs)(f) == FeeLinkExceptions(run, st, ViewFee(recs)(f));
    } else {
      AllocationSide(recs, keys, names, run, st, MovementRef(FeeMovement, id), e);
    }
  }

  /** What is raised for a movement due on the payout's date concerns that movement or a line of the payout. */
  lemma DueSide(recs: Records, keys: set<RecordKey>, days: set<int>, names: set<MovementRef>, run: Run, p: Payout,
                m: ExpectedMovement,
                e: FinancialException)
    requires Framed(recs, keys, days) && NamesDays(recs, names, days) && p in recs.payouts
    requires m in DueOn(recs, p.payoutDate)
    requires e in DueExceptions(run, LinesOf(recs, p.payoutId), ViewDue(recs, LinesOf(recs, p.payoutId))(m))
    ensures ExceptionOutside(keys, names)(e) <==> RecordKey(PayoutType, p.payoutId) !in keys
  {
    var lines := LinesOf(recs, p.payoutId);
    PayoutFrame(recs, recs, keys, days, p);
    FilterMember(KeyIs(MovementDay, p.payoutDate), Movements(recs), m);
    assert MovementDay(m) == p.payoutDate;
    var carriers := Carriers(lines, m);
    if carriers != [] {
      var l := carriers[0];
      FilterMember(KeyIs(LineMovement, MovementName(m)), lines, l);
      FilterMember(KeyIs(LinePayoutId, p.payoutId), recs.lines, l);
      assert LinePayoutId(l) == p.payoutId;
      LineFrame(recs, recs, keys, days, l);
    }
  }

  lemma PayoutSide(recs: Records, keys: set<RecordKey>, days: set<int>, names: set<MovementRef>, run: Run,
                   st: ReportStates, id: string,
                   e: FinancialException)
    requires Framed(recs, keys, days) && NamesDays(recs, names, days) &&
      e in RaisedBy(run, st, recs, RecordKey(PayoutType, id))
    ensures ExceptionOutside(keys, names)(e) <==> RecordKey(PayoutType, id) !in keys
    ensures exists p :: p in recs.payouts && p.payoutId == id
  {
    var p := Examiner(PayoutRule(run, st, recs), PayoutId, recs.payouts, id, e);
    assert PayoutRule(run, st, recs)(p) == PayoutExceptions(run, st, ViewPayout(recs)(p));
    ExaminedSide(recs, keys, days, names, run, st, p, e);
  }

  lemma ExaminedSide(recs: Records, keys: set<RecordKey>, days: set<int>, names: set<MovementRef>, run: Run,
                     st: ReportStates, p: Payout, e: FinancialException)
    requires Framed(recs, keys, days) && NamesDays(recs, names, days) && p in recs.payouts
    requires e in PayoutExceptions(run, st, ViewPayout(recs)(p))
    ensures ExceptionOutside(keys, names)(e) <==> RecordKey(PayoutType, p.payoutId) !in keys
  {
    if e in FlatMap(DueRule(run, LinesOf(recs, p.payoutId)), ViewPayout(recs)(p).due) {
      var m := DueExaminer(recs, run, p, e);
      DueSide(recs, keys, days, names, run, p, m, e);
    } else {
      HeaderSubject(run, st, ViewPayout(recs)(p), e);
    }
  }

  lemma DueExaminer(recs: Records, run: Run, p: Payout, e: FinancialException) returns (m: ExpectedMovement)
    requires e in FlatMap(DueRule(run, LinesOf(recs, p.payoutId)), ViewPayout(recs)(p).due)
    ensures m in DueOn(recs, p.payoutDate)
    ensures e in DueExceptions(run, LinesOf(recs, p.payoutId), ViewDue(recs, LinesOf(recs, p.payoutId))(m))
  {
    var v, lines := ViewPayout(recs)(p), LinesOf(recs, p.payoutId);
    assert v.due == Map(ViewDue(recs, lines), DueOn(recs, p.payoutDate));
    FlatMapMember(DueRule(run, lines), v.due, e);
    var d :| d in v.due && e in DueRule(run, lines)(d);
    MapMember(ViewDue(recs, lines), DueOn(recs, p.payoutDate), d);
    m :| m in DueOn(recs, p.payoutDate) && ViewDue(recs, lines)(m) == d;
  }

  lemma HeaderSubject(run: Run, st: ReportStates, v: PayoutView, e: FinancialException)
    requires e in PayoutExceptions(run, st, v) && e !in FlatMap(DueRule(run, v.lines), v.due)
    ensures e.subject == RecordSubject(RecordKey(PayoutType, v.payout.payoutId)) && !IsConflictException(e)
  {
  }

  /** `k` is a record of the ledger or named by a line of it. */
  ghost predicate Mentioned(recs: Records, k: RecordKey) {
    exists r :: Contains(recs, r) && (KeyOf(r) == k || k in References(r))
  }

  lemma MentionedByLine(recs: Records, l: SettlementLine)
    requires l in recs.lines
    ensures Mentioned(recs, RecordKey(MovementEntity(l.kind), l.movementId))
  {
    assert Contains(recs, LineRecord(l)) &&
      RecordKey(MovementEntity(l.kind), l.movementId) in References(LineRecord(l));
  }

  lemma MentionedRecord(recs: Records, r: FinancialRecord)
    requires Contains(recs, r)
    ensures Mentioned(recs, KeyOf(r))
  {
  }

  /** An exception is outside the plan exactly when the examination that raised it is. */
  lemma RaisedSide(recs: Records, keys: set<RecordKey>, days: set<int>, names: set<MovementRef>, run: Run,
                   st: ReportStates, k: RecordKey,
                   e: FinancialException)
    requires Framed(recs, keys, days) && NamesDays(recs, names, days) && e in RaisedBy(run, st, recs, k)
    ensures ExceptionOutside(keys, names)(e) <==> k !in keys
    ensures Mentioned(recs, k)
  {
    match k.kind
    case OrderType =>
      OrderSide(recs, keys, names, run, st, k.id, e);
      var o :| o in recs.orders && o.orderId == k.id;
      MentionedRecord(recs, OrderRecord(o));
    case PaymentType =>
      PaymentSide(recs, keys, days, names, run, st, k.id, e);
      if p :| p in recs.payments && p.paymentId == k.id {
        MentionedRecord(recs, PaymentRecord(p));
      } else {
        var l :| l in recs.lines && LineMovement(l) == MovementRef(CaptureMovement, k.id);
        MentionedByLine(recs, l);
      }
    case RefundType =>
      RefundSide(recs, keys, names, run, st, k.id, e);
      if f :| f in recs.refunds && f.refundId == k.id {
        MentionedRecord(recs, RefundRecord(f));
      } else {
        var l :| l in recs.lines && LineMovement(l) == MovementRef(RefundMovement, k.id);
        MentionedByLine(recs, l);
      }
    case FeeType =>
      FeeSide(recs, keys, names, run, st, k.id, e);
      if f :| f in recs.fees && f.feeId == k.id {
        MentionedRecord(recs, FeeRecord(f));
      } else {
        var l :| l in recs.lines && LineMovement(l) == MovementRef(FeeMovement, k.id);
        MentionedByLine(recs, l);
      }
    case PayoutType =>
      PayoutSide(recs, keys, days, names, run, st, k.id, e);
      var p :| p in recs.payouts && p.payoutId == k.id;
      MentionedRecord(recs, PayoutRecord(p));
    case SettlementLineType =>
  }

  // ---- The exceptions raised outside the plan, as a list ----

  function PaymentsOutside(keys: set<RecordKey>): Payment -> bool {
    (p: Payment) => RecordKey(PaymentType, p.paymentId) !in keys
  }

  function RefundsOutside(keys: set<RecordKey>): Refund -> bool {
    (f: Refund) => RecordKey(RefundType, f.refundId) !in keys
  }

  function FeesOutside(keys: set<RecordKey>): Fee -> bool {
    (f: Fee) => RecordKey(FeeType, f.feeId) !in keys
  }

  function AllocationsOutside(keys: set<RecordKey>): MovementRef -> bool {
    (k: MovementRef) => RecordKey(MovementEntity(k.kind), k.id) !in keys
  }

  /** The rule's exceptions about an entity are outside exactly when the entity is. */
  ghost predicate Sided<T(!new)>(rule: T -> seq<FinancialException>, s: seq<T>, q: T -> bool,
                                 out: FinancialException -> bool) {
    forall x, e :: x in s && e in rule(x) ==> out(e) == q(x)
  }

  /** One pass of the reconciler over two lists that agree outside. */
  lemma SameStage<T(!new)>(order: T -> Key, q: T -> bool, out: FinancialException -> bool, s: seq<T>, t: seq<T>,
                           f: T -> seq<FinancialException>, g: T -> seq<FinancialException>)
    requires StrictlySorted(order, s) && StrictlySorted(order, t) && Sided(f, s, q, out) && Sided(g, t, q, out)
    requires forall x :: q(x) ==> (x in s <==> x in t)
    requires forall x :: x in s && q(x) ==> f(x) == g(x)
    ensures Filter(out, FlatMap(f, s)) == Filter(out, FlatMap(g, t))
  {
    FilterFlatMap(out, q, f, s);
    FilterFlatMap(out, q, g, t);
    FilterFrame(order, q, s, t);
    FilterMembers(q, s);
    FlatMapAgree(f, g, Filter(q, s));
  }

  /** Everything the passes need to know about two ledgers that agree outside `keys`. */
  ghost predicate Alike(b: Records, a: Records, keys: set<RecordKey>, days: set<int>, names: set<MovementRef>) {
    Frames(b, a, keys, days) && Datable(b) && Datable(a) && NamesDays(b, names, days) && NamesDays(a, names, days)
  }

  ghost predicate Placed(recs: Records, keys: set<RecordKey>, days: set<int>, names: set<MovementRef>) {
    Framed(recs, keys, days) && NamesDays(recs, names, days)
  }

  lemma AlikePlaced(b: Records, a: Records, keys: set<RecordKey>, days: set<int>, names: set<MovementRef>)
    requires Alike(b, a, keys, days, names)
    ensures Placed(b, keys, days, names) && Placed(a, keys, days, names)
  {
  }

  lemma PaymentStagesSided(recs: Records, keys: set<RecordKey>, days: set<int>, names: set<MovementRef>, run: Run,
                           st: ReportStates)
    requires Placed(recs, keys, days, names)
    ensures var s, q, out := CapturedPayments(recs), PaymentsOutside(keys), ExceptionOutside(keys, names);
      Sided(PaymentLinkRule(run, st, recs), s, q, out) && Sided(ExcessRefundRule(run, st, recs), s, q, out) &&
      Sided(FeeAmountRule(run, st, recs), s, q, out)
  {
    FilterMembers(IsCaptured, recs.payments);
    forall p, e | p in CapturedPayments(recs) && e in PaymentLinkRule(run, st, recs)(p)
      ensures ExceptionOutside(keys, names)(e) == PaymentsOutside(keys)(p)
    {
      PaymentLinkSide(recs, keys, days, names, run, st, p, e);
    }
    forall p, e | p in CapturedPayments(recs) &&
      (e in ExcessRefundRule(run, st, recs)(p) || e in FeeAmountRule(run, st, recs)(p))
      ensures ExceptionOutside(keys, names)(e) == PaymentsOutside(keys)(p)
    {
      CaptureSide(recs, keys, names, run, st, p, e);
    }
  }

  lemma AttachmentStagesSided(recs: Records, keys: set<RecordKey>, days: set<int>, names: set<MovementRef>, run: Run,
                              st: ReportStates)
    requires Placed(recs, keys, days, names)
    ensures Sided(RefundLinkRule(run, st, recs), SuccessfulRefunds(recs), RefundsOutside(keys),
                  ExceptionOutside(keys, names))
    ensures Sided(FeeLinkRule(run, st, recs), recs.fees, FeesOutside(keys), ExceptionOutside(keys, names))
    ensures Sided(AllocationRule(run, st, recs), AllocatedMovements(recs), AllocationsOutside(keys),
                  ExceptionOutside(keys, names))
  {
    forall f, e | f in SuccessfulRefunds(recs) && e in RefundLinkRule(run, st, recs)(f)
      ensures ExceptionOutside(keys, names)(e) == RefundsOutside(keys)(f)
    {
      Examined(RefundLinkRule(run, st, recs), RefundIdOf, SuccessfulRefunds(recs), f, e);
      RefundSide(recs, keys, names, run, st, f.refundId, e);
    }
    forall f, e | f in recs.fees && e in FeeLinkRule(run, st, recs)(f)
      ensures ExceptionOutside(keys, names)(e) == FeesOutside(keys)(f)
    {
      Examined(FeeLinkRule(run, st, recs), FeeId, recs.fees, f, e);
      FeeSide(recs, keys, names, run, st, f.feeId, e);
    }
    forall k, e | k in AllocatedMovements(recs) && e in AllocationRule(run, st, recs)(k)
      ensures ExceptionOutside(keys, names)(e) == AllocationsOutside(keys)(k)
    {
      AllocationSide(recs, keys, names, run, st, k, e);
    }
  }

  lemma RowStagesSided(recs: Records, keys: set<RecordKey>, days: set<int>, names: set<MovementRef>, run: Run,
                       st: ReportStates)
    requires Placed(recs, keys, days, names)
    ensures Sided(OrderRule(run, st, recs), recs.orders, OrdersOutside(keys), ExceptionOutside(keys, names))
    ensures Sided(PayoutRule(run, st, recs), recs.payouts, PayoutsOutside(keys), ExceptionOutside(keys, names))
  {
    forall o, e | o in recs.orders && e in OrderRule(run, st, recs)(o)
      ensures ExceptionOutside(keys, names)(e) == OrdersOutside(keys)(o)
    {
      Examined(OrderRule(run, st, recs), OrderId, recs.orders, o, e);
      OrderSide(recs, keys, names, run, st, o.orderId, e);
    }
    forall p, e | p in recs.payouts && e in PayoutRule(run, st, recs)(p)
      ensures ExceptionOutside(keys, names)(e) == PayoutsOutside(keys)(p)
    {
      Examined(PayoutRule(run, st, recs), PayoutId, recs.payouts, p, e);
      PayoutSide(recs, keys, days, names, run, st, p.payoutId, e);
    }
  }

  lemma AllocatedSorted(recs: Records)
    ensures StrictlySorted(AllocationKey, AllocatedMovements(recs))
    ensures forall k :: k in AllocatedMovements(recs) <==> LinesCarrying(recs, k) != []
  {
    var names := Map(LineMovement, recs.lines);
    KeepLastEntries(Identity, names);
    var kept := KeepLast(Identity, names);
    forall i, j | 0 <= i < j < |kept|
      ensures AllocationKey(kept[i]) != AllocationKey(kept[j])
    {
      assert Identity(kept[i]) != Identity(kept[j]);
      if AllocationKey(kept[i]) == AllocationKey(kept[j]) {
        AllocationKeyInjective(kept[i], kept[j]);
      }
    }
    SortStrict(AllocationKey, kept);
    SortMembers(AllocationKey, kept);
    forall k
      ensures k in AllocatedMovements(recs) <==> LinesCarrying(recs, k) != []
    {
      Marks.KeepLastHas(names, k);
      MapMember(LineMovement, recs.lines, k);
      CarriedSomewhere(recs, k);
    }
  }

  lemma CarriedSomewhere(recs: Records, k: MovementRef)
    ensures LinesCarrying(recs, k) != [] <==> exists l :: l in recs.lines && LineMovement(l) == k
  {
    var carrying := LinesCarrying(recs, k);
    FilterMembers(KeyIs(LineMovement, k), recs.lines);
    if carrying != [] {
      assert carrying[0] in carrying && KeyIs(LineMovement, k)(carrying[0]);
    }
    if l :| l in recs.lines && LineMovement(l) == k {
      assert KeyIs(LineMovement, k)(l) && l in carrying;
    }
  }

  lemma SamePaymentStages(b: Records, a: Records, keys: set<RecordKey>, days: set<int>, names: set<MovementRef>,
                          run: Run, st: ReportStates)
    requires Alike(b, a, keys, days, names)
    ensures var out := ExceptionOutside(keys, names);
      Filter(out, FlatMap(PaymentLinkRule(run, st, b), CapturedPayments(b)))
      == Filter(out, FlatMap(PaymentLinkRule(run, st, a), CapturedPayments(a))) &&
      Filter(out, FlatMap(ExcessRefundRule(run, st, b), CapturedPayments(b)))
      == Filter(out, FlatMap(ExcessRefundRule(run, st, a), CapturedPayments(a))) &&
      Filter(out, FlatMap(FeeAmountRule(run, st, b), CapturedPayments(b)))
      == Filter(out, FlatMap(FeeAmountRule(run, st, a), CapturedPayments(a)))
  {
    var q, out, s, t := PaymentsOutside(keys), ExceptionOutside(keys, names), CapturedPayments(b), CapturedPayments(a);
    CapturedOrdered(b);
    CapturedOrdered(a);
    forall p | q(p)
      ensures p in s <==> p in t
      ensures p in s ==> ViewCapture(b)(p) == ViewCapture(a)(p)
    {
      PaymentFrame(b, a, keys, days, p);
      if p in s {
        SameCaptureView(b, a, keys, days, p);
      }
    }
    AlikePlaced(b, a, keys, days, names);
    PaymentStagesSided(b, keys, days, names, run, st);
    PaymentStagesSided(a, keys, days, names, run, st);
    SameStage(PaymentKey, q, out, s, t, PaymentLinkRule(run, st, b), PaymentLinkRule(run, st, a));
    SameStage(PaymentKey, q, out, s, t, ExcessRefundRule(run, st, b), ExcessRefundRule(run, st, a));
    SameStage(PaymentKey, q, out, s, t, FeeAmountRule(run, st, b), FeeAmountRule(run, st, a));
  }

  lemma SameRefundStage(b: Records, a: Records, keys: set<RecordKey>, days: set<int>, names: set<MovementRef>, run: Run,
                        st: ReportStates)
    requires Alike(b, a, keys, days, names)
    ensures var out := ExceptionOutside(keys, names);
      Filter(out, FlatMap(RefundLinkRule(run, st, b), SuccessfulRefunds(b)))
      == Filter(out, FlatMap(RefundLinkRule(run, st, a), SuccessfulRefunds(a)))
  {
    var q, out, s, t := RefundsOutside(keys), ExceptionOutside(keys, names), SuccessfulRefunds(b), SuccessfulRefunds(a);
    CapturedOrdered(b);
    CapturedOrdered(a);
    forall f | q(f)
      ensures f in s <==> f in t
      ensures f in s ==> RefundLinkRule(run, st, b)(f) == RefundLinkRule(run, st, a)(f)
    {
      RefundFrame(b, a, keys, days, f);
      if f in s {
        SameRefundView(b, a, keys, days, f);
      }
    }
    AlikePlaced(b, a, keys, days, names);
    AttachmentStagesSided(b, keys, days, names, run, st);
    AttachmentStagesSided(a, keys, days, names, run, st);
    SameStage(RefundKey, q, out, s, t, RefundLinkRule(run, st, b), RefundLinkRule(run, st, a));
  }

  lemma SameFeeStage(b: Records, a: Records, keys: set<RecordKey>, days: set<int>, names: set<MovementRef>, run: Run,
                     st: ReportStates)
    requires Alike(b, a, keys, days, names)
    ensures var out := ExceptionOutside(keys, names);
      Filter(out, FlatMap(FeeLinkRule(run, st, b), b.fees)) == Filter(out, FlatMap(FeeLinkRule(run, st, a), a.fees))
  {
    var q, out := FeesOutside(keys), ExceptionOutside(keys, names);
    forall f | q(f)
      ensures f in b.fees <==> f in a.fees
      ensures f in b.fees ==> FeeLinkRule(run, st, b)(f) == FeeLinkRule(run, st, a)(f)
    {
      FeeFrame(b, a, keys, days, f);
      if f in b.fees {
        SameFeeView(b, a, keys, days, f);
      }
    }
    AlikePlaced(b, a, keys, days, names);
    AttachmentStagesSided(b, keys, days, names, run, st);
    AttachmentStagesSided(a, keys, days, names, run, st);
    SameStage(FeeKey, q, out, b.fees, a.fees, FeeLinkRule(run, st, b), FeeLinkRule(run, st, a));
  }

  lemma SameAllocationStage(b: Records, a: Records, keys: set<RecordKey>, days: set<int>, names: set<MovementRef>,
                            run: Run, st: ReportStates)
    requires Alike(b, a, keys, days, names)
    ensures var out := ExceptionOutside(keys, names);
      Filter(out, FlatMap(AllocationRule(run, st, b), AllocatedMovements(b)))
      == Filter(out, FlatMap(AllocationRule(run, st, a), AllocatedMovements(a)))
  {
    var q, out := AllocationsOutside(keys), ExceptionOutside(keys, names);
    AllocatedSorted(b);
    AllocatedSorted(a);
    forall k | q(k)
      ensures k in AllocatedMovements(b) <==> k in AllocatedMovements(a)
      ensures AllocationRule(run, st, b)(k) == AllocationRule(run, st, a)(k)
    {
      SameAllocation(b, a, keys, days, k);
      SameAllocationRule(b, a, keys, days, run, st, k);
    }
    AlikePlaced(b, a, keys, days, names);
    AttachmentStagesSided(b, keys, days, names, run, st);
    AttachmentStagesSided(a, keys, days, names, run, st);
    SameStage(AllocationKey, q, out, AllocatedMovements(b), AllocatedMovements(a), AllocationRule(run, st, b),
              AllocationRule(run, st, a));
  }

  lemma SameOrderStage(b: Records, a: Records, keys: set<RecordKey>, days: set<int>, names: set<MovementRef>, run: Run,
                       st: ReportStates)
    requires Alike(b, a, keys, days, names)
    ensures var out := ExceptionOutside(keys, names);
      Filter(out, FlatMap(OrderRule(run, st, b), b.orders)) == Filter(out, FlatMap(OrderRule(run, st, a), a.orders))
  {
    var q, out := OrdersOutside(keys), ExceptionOutside(keys, names);
    forall o | q(o)
      ensures o in b.orders <==> o in a.orders
      ensures OrderRule(run, st, b)(o) == OrderRule(run, st, a)(o)
    {
      OrderFrame(b, a, keys, days, o);
      SameOrderView(b, a, keys, days, o);
    }
    AlikePlaced(b, a, keys, days, names);
    RowStagesSided(b, keys, days, names, run, st);
    RowStagesSided(a, keys, days, names, run, st);
    SameStage(OrderKey, q, out, b.orders, a.orders, OrderRule(run, st, b), OrderRule(run, st, a));
  }

  lemma SamePayoutStage(b: Records, a: Records, keys: set<RecordKey>, days: set<int>, names: set<MovementRef>, run: Run,
                        st: ReportStates)
    requires Alike(b, a, keys, days, names)
    ensures var out := ExceptionOutside(keys, names);
      Filter(out, FlatMap(PayoutRule(run, st, b), b.payouts)) == Filter(out, FlatMap(PayoutRule(run, st, a), a.payouts))
  {
    var q, out := PayoutsOutside(keys), ExceptionOutside(keys, names);
    forall p | q(p)
      ensures p in b.payouts <==> p in a.payouts
      ensures p in b.payouts ==> PayoutRule(run, st, b)(p) == PayoutRule(run, st, a)(p)
    {
      PayoutFrame(b, a, keys, days, p);
      if p in b.payouts {
        SamePayoutView(b, a, keys, days, p);
      }
    }
    AlikePlaced(b, a, keys, days, names);
    RowStagesSided(b, keys, days, names, run, st);
    RowStagesSided(a, keys, days, names, run, st);
    SameStage(PayoutKey, q, out, b.payouts, a.payouts, PayoutRule(run, st, b), PayoutRule(run, st, a));
  }

  lemma FilterEight<T>(p: T -> bool, a: seq<T>, b: seq<T>, c: seq<T>, d: seq<T>, e: seq<T>, f: seq<T>, g: seq<T>,
                       h: seq<T>)
    ensures Filter(p, a + b + c + d + e + f + g + h) ==
      Filter(p, a) + Filter(p, b) + Filter(p, c) + Filter(p, d) + Filter(p, e) + Filter(p, f) + Filter(p, g)
      + Filter(p, h)
  {
    FilterConcat(p, a, b);
    FilterConcat(p, a + b, c);
    FilterConcat(p, a + b + c, d);
    FilterConcat(p, a + b + c + d, e);
    FilterConcat(p, a + b + c + d + e, f);
    FilterConcat(p, a + b + c + d + e + f, g);
    FilterConcat(p, a + b + c + d + e + f + g, h);
  }

  lemma FilterRecordExceptions(p: FinancialException -> bool, run: Run, st: ReportStates, recs: Records)
    ensures Filter(p, RecordExceptions(run, st, recs)) ==
      Filter(p, FlatMap(PaymentLinkRule(run, st, recs), CapturedPayments(recs)))
      + Filter(p, FlatMap(RefundLinkRule(run, st, recs), SuccessfulRefunds(recs)))
      + Filter(p, FlatMap(ExcessRefundRule(run, st, recs), CapturedPayments(recs)))
      + Filter(p, FlatMap(FeeAmountRule(run, st, recs), CapturedPayments(recs)))
      + Filter(p, FlatMap(FeeLinkRule(run, st, recs), recs.fees))
      + Filter(p, FlatMap(OrderRule(run, st, recs), recs.orders))
      + Filter(p, FlatMap(AllocationRule(run, st, recs), AllocatedMovements(recs)))
      + Filter(p, FlatMap(PayoutRule(run, st, recs), recs.payouts))
  {
    FilterEight(p, FlatMap(PaymentLinkRule(run, st, recs), CapturedPayments(recs)),
                FlatMap(RefundLinkRule(run, st, recs), SuccessfulRefunds(recs)),
                FlatMap(ExcessRefundRule(run, st, recs), CapturedPayments(recs)),
                FlatMap(FeeAmountRule(run, st, recs), CapturedPayments(recs)),
                FlatMap(FeeLinkRule(run, st, recs), recs.fees), FlatMap(OrderRule(run, st, recs), recs.orders),
                FlatMap(AllocationRule(run, st, recs), AllocatedMovements(recs)),
                FlatMap(PayoutRule(run, st, recs), recs.payouts));
  }

  /** Two ledgers that agree outside the plan raise the same exceptions there, in the same order. */
  lemma SameRecordExceptions(b: Records, a: Records, keys: set<RecordKey>, days: set<int>, names: set<MovementRef>,
                             run: Run, st: ReportStates)
    requires Alike(b, a, keys, days, names)
    ensures Filter(ExceptionOutside(keys, names), RecordExceptions(run, st, b))
      == Filter(ExceptionOutside(keys, names), RecordExceptions(run, st, a))
  {
    FilterRecordExceptions(ExceptionOutside(keys, names), run, st, b);
    FilterRecordExceptions(ExceptionOutside(keys, names), run, st, a);
    SamePaymentStages(b, a, keys, days, names, run, st);
    SameRefundStage(b, a, keys, days, names, run, st);
    SameFeeStage(b, a, keys, days, names, run, st);
    SameOrderStage(b, a, keys, days, names, run, st);
    SameAllocationStage(b, a, keys, days, names, run, st);
    SamePayoutStage(b, a, keys, days, names, run, st);
  }

  // ---- The published exceptions ----

  lemma PublishedFilter(p: FinancialException -> bool, raw: seq<FinancialException>)
    requires forall e, f :: ExceptionId(e) == ExceptionId(f) ==> p(e) == p(f)
    ensures Filter(p, Published(raw)) == Published(Filter(p, raw))
  {
    FilterSort(ExceptionKey, p, KeepLast(ExceptionId, raw));
    FilterKeepLast(ExceptionId, p, raw);
  }

  /** The sort key of an exception determines its identity. */
  lemma ExceptionKeyIdentifies(e: FinancialException, f: FinancialException)
    requires ExceptionKey(e) == ExceptionKey(f)
    ensures ExceptionId(e) == ExceptionId(f)
  {
    var k, l := ExceptionKey(e), ExceptionKey(f);
    var s, t := SubjectKey(e.subject), SubjectKey(f.subject);
    assert k[0] == N(CodeRank(e.code)) && l[0] == N(CodeRank(f.code));
    assert k[|k| - 1] == N(RuleRank(e.rule)) && l[|l| - 1] == N(RuleRank(f.rule));
    assert k[1..|k| - 1] == s && l[1..|l| - 1] == t;
    SubjectKeyInjective(e.subject, f.subject);
  }

  lemma SubjectKeyInjective(s: Subject, t: Subject)
    requires SubjectKey(s) == SubjectKey(t)
    ensures s == t
  {
    var k, l := SubjectKey(s), SubjectKey(t);
    assert k[0] == l[0] && k[1] == l[1];
    assert |k| > 2 ==> k[2] == l[2];
    assert |k| > 3 ==> k[3] == l[3];
  }

  lemma OutsideByIdentity(keys: set<RecordKey>, names: set<MovementRef>)
    ensures forall e, f :: ExceptionId(e) == ExceptionId(f) ==>
      ExceptionOutside(keys, names)(e) == ExceptionOutside(keys, names)(f)
    ensures forall e, f :: ExceptionKey(e) == ExceptionKey(f) ==>
      ExceptionOutside(keys, names)(e) == ExceptionOutside(keys, names)(f)
  {
    forall e, f | ExceptionKey(e) == ExceptionKey(f)
      ensures ExceptionOutside(keys, names)(e) == ExceptionOutside(keys, names)(f)
    {
      ExceptionKeyIdentifies(e, f);
    }
  }

  /** How conflicts are reported: by the receipts that show them, or by the variants. */
  ghost predicate CitesConflicts(cite: Conflict -> seq<FinancialException>) {
    forall c, e :: e in cite(c) ==> IsConflictException(e)
  }

  /** Report and conflict exceptions belong to no examination. */
  lemma ReportsAndConflictsInside(keys: set<RecordKey>, names: set<MovementRef>, run: Run,
                                  cite: Conflict -> seq<FinancialException>, sorted: seq<CompletenessResult>,
                                  conflicts: seq<Conflict>)
    requires CitesConflicts(cite)
    ensures var out, given := ExceptionOutside(keys, names), Given(run, cite, sorted, conflicts);
      Filter(out, given) == [] && Filter(Not(out), given) == given
  {
    var given := Given(run, cite, sorted, conflicts);
    forall e | e in given
      ensures !ExceptionOutside(keys, names)(e)
    {
      FlatMapMember(CompletenessExceptions(run), sorted, e);
      FlatMapMember(cite, conflicts, e);
    }
    FilterUniform(ExceptionOutside(keys, names), given, false);
    FilterUniform(Not(ExceptionOutside(keys, names)), given, true);
  }

  lemma PublishedSplit(out: FinancialException -> bool, given: seq<FinancialException>, raw: seq<FinancialException>)
    requires forall e, f :: ExceptionId(e) == ExceptionId(f) ==> out(e) == out(f)
    requires Filter(out, given) == [] && Filter(Not(out), given) == given
    ensures Filter(out, Published(given + raw)) == Published(Filter(out, raw))
    ensures Filter(Not(out), Published(given + raw)) == Published(given + Filter(Not(out), raw))
  {
    PublishedFilter(out, given + raw);
    FilterConcat(out, given, raw);
    assert [] + Filter(out, raw) == Filter(out, raw);
    PublishedFilter(Not(out), given + raw);
    FilterConcat(Not(out), given, raw);
  }

  function Given(run: Run, cite: Conflict -> seq<FinancialException>, sorted: seq<CompletenessResult>,
                 conflicts: seq<Conflict>): seq<FinancialException> {
    FlatMap(CompletenessExceptions(run), sorted) + FlatMap(cite, conflicts)
  }

  /** The exceptions a run publishes, with its conflicts cited by `cite`. */
  function ExceptionsFor(run: Run, cite: Conflict -> seq<FinancialException>, records: seq<FinancialRecord>,
                         conflicts: seq<Conflict>, completeness: seq<CompletenessResult>): seq<FinancialException> {
    var sorted := Sort(StatusKey, completeness);
    Published(Given(run, cite, sorted, conflicts) + RecordExceptions(run, StatesOf(sorted), Split(records)))
  }

  lemma PublishedSides(keys: set<RecordKey>, names: set<MovementRef>, run: Run,
                       cite: Conflict -> seq<FinancialException>,
                       records: seq<FinancialRecord>, conflicts: seq<Conflict>, completeness: seq<CompletenessResult>)
    requires CitesConflicts(cite)
    ensures var out, all, sorted := ExceptionOutside(keys, names),
      ExceptionsFor(run, cite, records, conflicts, completeness),
                                    Sort(StatusKey, completeness);
      var raw := RecordExceptions(run, StatesOf(sorted), Split(records));
      Filter(out, all) == Published(Filter(out, raw)) &&
      Filter(Not(out), all) == Published(Given(run, cite, sorted, conflicts) + Filter(Not(out), raw))
  {
    var sorted := Sort(StatusKey, completeness);
    OutsideByIdentity(keys, names);
    ReportsAndConflictsInside(keys, names, run, cite, sorted, conflicts);
    PublishedSplit(ExceptionOutside(keys, names), Given(run, cite, sorted, conflicts),
                   RecordExceptions(run, StatesOf(sorted), Split(records)));
  }

  // ---- Movement names ----

  function NamesOn(ms: seq<ExpectedMovement>, days: set<int>): set<MovementRef> {
    set m | m in ms && m.availableOn in days :: MovementName(m)
  }

  lemma SameName(ms: seq<ExpectedMovement>, m: ExpectedMovement, n: ExpectedMovement)
    requires DistinctBy(MovementName, ms) && m in ms && n in ms && MovementName(m) == MovementName(n)
    ensures m == n
  {
    var i :| 0 <= i < |ms| && ms[i] == m;
    var j :| 0 <= j < |ms| && ms[j] == n;
  }

  /** Names that do not collide within a ledger do not collide across two ledgers that agree outside `days`. */
  lemma NamesTell(b: Records, a: Records, keys: set<RecordKey>, days: set<int>)
    requires Frames(b, a, keys, days) && Datable(b) && Datable(a)
    requires DistinctBy(MovementName, Movements(b)) && DistinctBy(MovementName, Movements(a))
    ensures Alike(b, a, keys, days, NamesOn(Movements(b) + Movements(a), days))
  {
    var bs, ms := Movements(b), Movements(a);
    SameMovementsOffDays(b, a, keys, days);
    FilterMembers(OffDays(days), bs);
    FilterMembers(OffDays(days), ms);
    forall m, n | m in bs + ms && n in bs + ms && MovementName(m) == MovementName(n) && n.availableOn in days
      ensures m.availableOn in days
    {
      if m.availableOn !in days {
        assert OffDays(days)(m) && m in bs && m in ms;
        if n in bs {
          SameName(bs, m, n);
        } else {
          SameName(ms, m, n);
        }
      }
    }
  }

  lemma NamesTellAlone(recs: Records, days: set<int>)
    requires DistinctBy(MovementName, Movements(recs))
    ensures NamesDays(recs, NamesOn(Movements(recs), days), days)
  {
    var ms := Movements(recs);
    forall m, n | m in ms && n in ms && MovementName(m) == MovementName(n) && n.availableOn in days
      ensures m.availableOn in days
    {
      SameName(ms, m, n);
    }
  }

  // ---- The exceptions of an incremental run ----

  /** Examining a planned record against the planned records alone raises what the whole ledger raises. */
  lemma PlannedExceptions(records: seq<FinancialRecord>, i: Records, keys: set<RecordKey>, days: set<int>,
                          names: set<MovementRef>,
                          run: Run, st: ReportStates)
    requires Frames(Split(records), Split(records), keys, days) && InsideOf(i, Split(records), keys)
    requires Datable(i) && Datable(Split(records)) && NamesDays(Split(records), names, days)
    requires DistinctBy(MovementName, Movements(Split(records)))
    ensures RecordExceptions(run, st, i)
      == Filter(Not(ExceptionOutside(keys, names)), RecordExceptions(run, st, Split(records)))
  {
    var a, co, cd := Split(records), Beyond(records, keys), DaysBeyond(records, keys);
    var beyond := NamesOn(Movements(a), cd);
    PlannedFrames(records, i, keys, days);
    NamesTellAlone(a, cd);
    PlannedMovements(records, i, keys, days);
    FilterMembers(Not(OffDays(days)), Movements(a));
    assert Alike(i, a, co, cd, beyond);
    SameRecordExceptions(i, a, co, cd, beyond, run, st);
    forall e | e in RecordExceptions(run, st, a)
      ensures ExceptionOutside(co, beyond)(e) == Not(ExceptionOutside(keys, names))(e)
    {
      OneSide(records, i, keys, days, names, beyond, run, st, e);
    }
    FilterAgree(ExceptionOutside(co, beyond), Not(ExceptionOutside(keys, names)), RecordExceptions(run, st, a));
    forall e | e in RecordExceptions(run, st, i)
      ensures ExceptionOutside(co, beyond)(e)
    {
      PlannedSide(records, i, keys, days, beyond, run, st, e);
    }
    FilterUniform(ExceptionOutside(co, beyond), RecordExceptions(run, st, i), true);
  }

  /** Every exception of the ledger is either outside the plan or not beyond it. */
  lemma OneSide(records: seq<FinancialRecord>, i: Records, keys: set<RecordKey>, days: set<int>,
                names: set<MovementRef>, beyond: set<MovementRef>,
                run: Run, st: ReportStates, e: FinancialException)
    requires Frames(Split(records), Split(records), keys, days) &&
      Frames(i, Split(records), Beyond(records, keys), DaysBeyond(records, keys))
    requires NamesDays(Split(records), names, days) && NamesDays(Split(records), beyond, DaysBeyond(records, keys))
    requires e in RecordExceptions(run, st, Split(records))
    ensures ExceptionOutside(Beyond(records, keys), beyond)(e) == Not(ExceptionOutside(keys, names))(e)
  {
    var a, co, cd := Split(records), Beyond(records, keys), DaysBeyond(records, keys);
    RaisedByComplete(run, st, a, e);
    var k :| e in RaisedBy(run, st, a, k);
    RaisedSide(a, keys, days, names, run, st, k, e);
    RaisedSide(a, co, cd, beyond, run, st, k, e);
    var r :| Contains(a, r) && (KeyOf(r) == k || k in References(r));
    SplitContains(records, r);
    BeyondFrames(records, keys, days, r);
  }

  lemma PlannedSide(records: seq<FinancialRecord>, i: Records, keys: set<RecordKey>, days: set<int>,
                    beyond: set<MovementRef>,
                    run: Run, st: ReportStates, e: FinancialException)
    requires Frames(Split(records), Split(records), keys, days) &&
      Frames(i, Split(records), Beyond(records, keys), DaysBeyond(records, keys))
    requires InsideOf(i, Split(records), keys) && NamesDays(i, beyond, DaysBeyond(records, keys)) &&
      e in RecordExceptions(run, st, i)
    ensures ExceptionOutside(Beyond(records, keys), beyond)(e)
  {
    var co, cd := Beyond(records, keys), DaysBeyond(records, keys);
    RaisedByComplete(run, st, i, e);
    var k :| e in RaisedBy(run, st, i, k);
    RaisedSide(i, co, cd, beyond, run, st, k, e);
    var r :| Contains(i, r) && (KeyOf(r) == k || k in References(r));
    SplitContains(records, r);
    BeyondFrames(records, keys, days, r);
    assert FramedRecord(r, keys, days);
  }

  // ---- The claim ----

  /** The published result after an incremental run: its rows, and the old rows the plan does not name. */
  function Refreshed(plan: AW.Plan, old': ReconciliationResult, computed: ReconciliationResult): ReconciliationResult {
    var keys, days := KeysOf(plan), DaysOf(plan);
    ReconciliationResult(
      computed.run, computed.contractVersion,
      Merge(RowKey, TransactionOutside(plan.orderIds), old'.transactions, computed.transactions),
      Merge(MovementKey, MovementOutside(plan.payoutDates), old'.movements, computed.movements),
      Merge(PayoutRowKey, PayoutOutside(plan.payoutIds), old'.payouts, computed.payouts),
      Merge(ExceptionKey, ExceptionOutside(keys, NamesOn(old'.movements + computed.movements, days)), old'.exceptions,
            computed.exceptions),
      computed.completeness)
  }

  /** An old exception stays when it is no conflict and concerns neither a record of the plan nor a movement of the plan
      or expected, before or now, on one of its days. */
  ghost predicate Stays(plan: AW.Plan, old': ReconciliationResult, computed: ReconciliationResult,
                        e: FinancialException)
  {
    e.code != ConflictingSourceVersion &&
    match e.subject
    case RecordSubject(k) => k !in plan.sourceKeys
    case SettlementMovementSubject(kind, id) =>
      RecordKey(if kind == CaptureMovement then PaymentType else if kind == RefundMovement then RefundType else FeeType,
                id) !in plan.sourceKeys
    case ExpectedMovementSubject(kind, id) =>
      forall m :: m in old'.movements || m in computed.movements ==>
        m.kind != kind || m.id != id || m.availableOn !in plan.payoutDates
    case SourceReportSubject(_, _) => false
  }

  lemma StaysRead(plan: AW.Plan, old': ReconciliationResult, computed: ReconciliationResult, e: FinancialException)
    ensures Stays(plan, old', computed, e) <==>
      ExceptionOutside(KeysOf(plan), NamesOn(old'.movements + computed.movements, DaysOf(plan)))(e)
  {
    if e.subject.ExpectedMovementSubject? {
      var all := old'.movements + computed.movements;
      assert forall m :: m in all <==> m in old'.movements || m in computed.movements;
      assert MovementRef(e.subject.kind, e.subject.id) in NamesOn(all, DaysOf(plan)) <==>
        exists m :: m in all && m.availableOn in plan.payoutDates && m.kind == e.subject.kind && m.id == e.subject.id;
    }
  }

  lemma MergeMembers<T(!new)>(key: T -> Key, outside: T -> bool, old': seq<T>, computed: seq<T>)
    ensures forall x :: x in Merge(key, outside, old', computed) <==> (x in old' && outside(x)) || x in computed
  {
    SortMembers(key, Filter(outside, old') + computed);
    FilterMembers(outside, old');
  }

  /** What an incremental run looks at and keeps: it is given exactly the records the plan names, and keeps, beside all
      that it computes, exactly the old rows of orders, days and payouts that the plan does not name. */
  lemma RefreshedInFull(plan: AW.Plan, old': ReconciliationResult, computed: ReconciliationResult,
                        records: seq<FinancialRecord>)
    ensures forall r :: r in PlannedRecords(plan, records) <==> r in records && KeyOf(r) in plan.sourceKeys
    ensures var f := Refreshed(plan, old', computed);
      (forall t :: t in f.transactions <==>
         (t in old'.transactions && t.orderId !in plan.orderIds) || t in computed.transactions) &&
      (forall m :: m in f.movements <==>
         (m in old'.movements && m.availableOn !in plan.payoutDates) || m in computed.movements) &&
      (forall p :: p in f.payouts <==> (p in old'.payouts && p.payoutId !in plan.payoutIds) || p in computed.payouts) &&
      (forall e :: e in f.exceptions <==>
         (e in old'.exceptions && Stays(plan, old', computed, e)) || e in computed.exceptions)
    ensures var f := Refreshed(plan, old', computed);
      f.run == computed.run && f.contractVersion == computed.contractVersion && f.completeness == computed.completeness
  {
    FilterMembers(Planned(plan), records);
    MergeMembers(RowKey, TransactionOutside(plan.orderIds), old'.transactions, computed.transactions);
    MergeMembers(MovementKey, MovementOutside(plan.payoutDates), old'.movements, computed.movements);
    MergeMembers(PayoutRowKey, PayoutOutside(plan.payoutIds), old'.payouts, computed.payouts);
    KeptExceptions(plan, old', computed);
  }

  lemma KeptExceptions(plan: AW.Plan, old': ReconciliationResult, computed: ReconciliationResult)
    ensures forall e :: e in Refreshed(plan, old', computed).exceptions <==>
      (e in old'.exceptions && Stays(plan, old', computed, e)) || e in computed.exceptions
  {
    var outside := ExceptionOutside(KeysOf(plan), NamesOn(old'.movements + computed.movements, DaysOf(plan)));
    MergeMembers(ExceptionKey, outside, old'.exceptions, computed.exceptions);
    forall e: FinancialException
      ensures Stays(plan, old', computed, e) <==> outside(e)
    {
      StaysRead(plan, old', computed, e);
    }
  }

  /** The planner's output for this change, without a reason to rebuild everything. */
  ghost predicate WindowPlan(before: seq<FinancialRecord>, after: seq<FinancialRecord>, changed: seq<FinancialRecord>,
                             plan: AW.Plan) {
    UniqueIdentities(before) && UniqueIdentities(after) && Named(before, after, changed) &&
    (forall r :: (r in before) != (r in after) ==> r in changed) &&
    AW.IsPlan(Evidence(before, after, changed), AW.Seeds(Map(AW.FactOf, changed)), plan) &&
    plan.scope == AW.ScopeWindows
  }

  /** A run over the planned records alone succeeds whenever the full rebuild does. */
  lemma IncrementalRunSucceeds(run: Run, before: seq<FinancialRecord>, after: seq<FinancialRecord>,
                               changed: seq<FinancialRecord>, plan: AW.Plan,
                               conflicts: seq<Conflict>, completeness: seq<CompletenessResult>)
    requires WindowPlan(before, after, changed, plan) && ResultFor(run, after, conflicts, completeness).Success?
    ensures ResultFor(run, PlannedRecords(plan, after), conflicts, completeness).Success?
  {
    PlannedInside(plan, after, KeysOf(plan));
    InsideAccepted(Split(PlannedRecords(plan, after)), Split(after), KeysOf(plan));
  }

  /** Both frames of a window plan. */
  lemma PlanFrames(before: seq<FinancialRecord>, after: seq<FinancialRecord>, changed: seq<FinancialRecord>,
                   plan: AW.Plan,
                   keys: set<RecordKey>, days: set<int>)
    requires WindowPlan(before, after, changed, plan) && keys == KeysOf(plan) && days == DaysOf(plan)
    ensures Frames(Split(before), Split(after), keys, days) && Frames(Split(after), Split(after), keys, days)
    ensures InsideOf(Split(PlannedRecords(plan, after)), Split(after), keys)
    ensures forall id :: id in plan.orderIds <==> RecordKey(OrderType, id) in keys
    ensures forall id :: id in plan.payoutIds <==> RecordKey(PayoutType, id) in keys
  {
    WindowPlanFrames(before, after, changed, plan);
    PlannedInside(plan, after, keys);
    PlanKeys(Evidence(before, after, changed), AW.Seeds(Map(AW.FactOf, changed)), plan);
  }

  /** Inside the plan, the incremental run computes the rows of the full rebuild. */
  lemma IncrementalRows(run: Run, before: seq<FinancialRecord>, after: seq<FinancialRecord>,
                        changed: seq<FinancialRecord>, plan: AW.Plan,
                        conflicts: seq<Conflict>, completeness: seq<CompletenessResult>)
    requires WindowPlan(before, after, changed, plan) && ResultFor(run, after, conflicts, completeness).Success?
    requires ResultFor(run, PlannedRecords(plan, after), conflicts, completeness).Success?
    ensures var i, n := ResultFor(run, PlannedRecords(plan, after), conflicts, completeness).value,
      ResultFor(run, after, conflicts, completeness).value;
      i.transactions == Filter(Not(TransactionOutside(plan.orderIds)), n.transactions) &&
      i.payouts == Filter(Not(PayoutOutside(plan.payoutIds)), n.payouts) &&
      i.movements == Filter(Not(MovementOutside(plan.payoutDates)), n.movements)
  {
    var keys, days, st := KeysOf(plan), DaysOf(plan), StatesOf(Sort(StatusKey, completeness));
    var i, a := Split(PlannedRecords(plan, after)), Split(after);
    PlanFrames(before, after, changed, plan, keys, days);
    PlannedFrames(after, i, keys, days);
    BeyondDisjoint(after, keys, days);
    SuccessDatable(run, after, conflicts, completeness);
    SuccessDatable(run, PlannedRecords(plan, after), conflicts, completeness);
    ResultSections(run, after, conflicts, completeness);
    ResultSections(run, PlannedRecords(plan, after), conflicts, completeness);
    PlannedTransactions(i, a, Beyond(after, keys), DaysBeyond(after, keys), keys, run, st, plan.orderIds);
    PlannedPayouts(i, a, Beyond(after, keys), DaysBeyond(after, keys), keys, run, st, plan.payoutIds);
    PlannedMovements(after, i, keys, days);
    FilterAgree(Not(OffDays(days)), Not(MovementOutside(plan.payoutDates)), Movements(a));
  }

  lemma ResultExceptions(run: Run, records: seq<FinancialRecord>, conflicts: seq<Conflict>,
                         completeness: seq<CompletenessResult>)
    requires ResultFor(run, records, conflicts, completeness).Success?
    ensures var r, sorted := ResultFor(run, records, conflicts, completeness).value, Sort(StatusKey, completeness);
      r.exceptions == ExceptionsFor(run, ConflictExceptions(run), records, conflicts, completeness) &&
      r.completeness == Map(StatusOf, sorted) && r.run == run && r.contractVersion == CONTRACT_VERSION
  {
  }

  /** The names the refreshed result goes by are those of both ledgers. */
  lemma PlannedNames(run: Run, before: seq<FinancialRecord>, after: seq<FinancialRecord>, changed: seq<FinancialRecord>,
                     plan: AW.Plan,
                     conflicts: seq<Conflict>, completeness: seq<CompletenessResult>, ms: seq<ExpectedMovement>)
    requires WindowPlan(before, after, changed, plan) && ResultFor(run, after, conflicts, completeness).Success?
    requires ResultFor(run, PlannedRecords(plan, after), conflicts, completeness).Success?
    ensures var i, n, days := ResultFor(run, PlannedRecords(plan, after), conflicts, completeness).value,
                              ResultFor(run, after, conflicts, completeness).value, DaysOf(plan);
      NamesOn(ms + i.movements, days) == NamesOn(ms + n.movements, days)
  {
    var n, days := ResultFor(run, after, conflicts, completeness).value, DaysOf(plan);
    IncrementalRows(run, before, after, changed, plan, conflicts, completeness);
    var kept := Filter(Not(MovementOutside(plan.payoutDates)), n.movements);
    FilterMembers(Not(MovementOutside(plan.payoutDates)), n.movements);
    assert forall m :: m in ms + kept && m.availableOn in days <==> m in ms + n.movements && m.availableOn in days;
  }

  /** Outside the plan the published exceptions are the old ones; inside, those of the incremental run. */
  lemma IncrementalExceptions(run: Run, before: seq<FinancialRecord>, after: seq<FinancialRecord>,
                              changed: seq<FinancialRecord>, plan: AW.Plan, oldConflicts: seq<Conflict>,
                              newConflicts: seq<Conflict>, completeness: seq<CompletenessResult>,
                              cite: Conflict -> seq<FinancialException>, names: set<MovementRef>)
    requires WindowPlan(before, after, changed, plan) && CitesConflicts(cite)
    requires ResultFor(run, before, oldConflicts, completeness).Success?
    requires ResultFor(run, after, newConflicts, completeness).Success?
    requires ResultFor(run, PlannedRecords(plan, after), newConflicts, completeness).Success?
    requires DistinctBy(MovementName, Movements(Split(before))) && DistinctBy(MovementName, Movements(Split(after)))
    requires names == NamesOn(Movements(Split(before)) + Movements(Split(after)), DaysOf(plan))
    ensures var out, n := ExceptionOutside(KeysOf(plan), names),
      ExceptionsFor(run, cite, after, newConflicts, completeness);
      Filter(out, ExceptionsFor(run, cite, before, oldConflicts, completeness)) == Filter(out, n) &&
      ExceptionsFor(run, cite, PlannedRecords(plan, after), newConflicts, completeness) == Filter(Not(out), n)
  {
    var keys, days, st := KeysOf(plan), DaysOf(plan), StatesOf(Sort(StatusKey, completeness));
    var b, a, i := Split(before), Split(after), Split(PlannedRecords(plan, after));
    PlanFrames(before, after, changed, plan, keys, days);
    SuccessDatable(run, before, oldConflicts, completeness);
    SuccessDatable(run, after, newConflicts, completeness);
    SuccessDatable(run, PlannedRecords(plan, after), newConflicts, completeness);
    NamesTell(b, a, keys, days);
    SameRecordExceptions(b, a, keys, days, names, run, st);
    PlannedExceptions(after, i, keys, days, names, run, st);
    PublishedSides(keys, names, run, cite, before, oldConflicts, completeness);
    PublishedSides(keys, names, run, cite, after, newConflicts, completeness);
  }

  /** incremental reconciliation == clean full rebuild. Reconciling only the records the plan names, and keeping every
      old row the plan does not name, gives the transactions, movements, payouts and completeness of the full
      rebuild; and when both results are publishable, its exceptions too, so the whole result. */
  lemma IncrementalEqualsFullRebuild(
      run: Run, before: seq<FinancialRecord>, after: seq<FinancialRecord>, changed: seq<FinancialRecord>, plan: AW.Plan,
      oldConflicts: seq<Conflict>, newConflicts: seq<Conflict>, completeness: seq<CompletenessResult>)
    requires WindowPlan(before, after, changed, plan)
    requires ResultFor(run, before, oldConflicts, completeness).Success? &&
      ResultFor(run, after, newConflicts, completeness).Success?
    ensures ResultFor(run, PlannedRecords(plan, after), newConflicts, completeness).Success?
    ensures var o, n, f := ResultFor(run, before, oldConflicts, completeness).value,
      ResultFor(run, after, newConflicts, completeness).value,
                           Refreshed(plan, ResultFor(run, before, oldConflicts, completeness).value,
                                     ResultFor(run, PlannedRecords(plan, after), newConflicts, completeness).value);
      f.transactions == n.transactions && f.movements == n.movements && f.payouts == n.payouts &&
      f.completeness == n.completeness &&
      (Publication.Publishable(o) && Publication.Publishable(n) ==> f == n)
  {
    IncrementalRunSucceeds(run, before, after, changed, plan, newConflicts, completeness);
    RefreshedRows(run, before, after, changed, plan, oldConflicts, newConflicts, completeness);
    ResultExceptions(run, after, newConflicts, completeness);
    ResultExceptions(run, PlannedRecords(plan, after), newConflicts, completeness);
    ResultSections(run, before, oldConflicts, completeness);
    ResultSections(run, after, newConflicts, completeness);
    if DistinctBy(MovementName, Movements(Split(before))) && DistinctBy(MovementName, Movements(Split(after))) {
      ReceiptsCite(run);
      ResultExceptions(run, before, oldConflicts, completeness);
      RefreshedExceptions(run, before, after, changed, plan, oldConflicts, newConflicts, completeness,
                          ConflictExceptions(run));
    }
  }

  lemma ReceiptsCite(run: Run)
    ensures CitesConflicts(ConflictExceptions(run)) && CitesConflicts(RB.StableConflictExceptions(run))
  {
  }

  lemma RefreshedRows(run: Run, before: seq<FinancialRecord>, after: seq<FinancialRecord>,
                      changed: seq<FinancialRecord>, plan: AW.Plan,
                      oldConflicts: seq<Conflict>, newConflicts: seq<Conflict>, completeness: seq<CompletenessResult>)
    requires WindowPlan(before, after, changed, plan)
    requires ResultFor(run, before, oldConflicts, completeness).Success? &&
      ResultFor(run, after, newConflicts, completeness).Success?
    requires ResultFor(run, PlannedRecords(plan, after), newConflicts, completeness).Success?
    ensures var o, n, i := ResultFor(run, before, oldConflicts, completeness).value,
      ResultFor(run, after, newConflicts, completeness).value,
                           ResultFor(run, PlannedRecords(plan, after), newConflicts, completeness).value;
      Merge(RowKey, TransactionOutside(plan.orderIds), o.transactions, i.transactions) == n.transactions &&
      Merge(PayoutRowKey, PayoutOutside(plan.payoutIds), o.payouts, i.payouts) == n.payouts &&
      Merge(MovementKey, MovementOutside(plan.payoutDates), o.movements, i.movements) == n.movements
  {
    var o, n, i := ResultFor(run, before, oldConflicts, completeness).value,
      ResultFor(run, after, newConflicts, completeness).value,
                   ResultFor(run, PlannedRecords(plan, after), newConflicts, completeness).value;
    OutsidePlanUnchanged(run, before, after, changed, plan, oldConflicts, newConflicts, completeness);
    IncrementalRows(run, before, after, changed, plan, newConflicts, completeness);
    ResultSections(run, after, newConflicts, completeness);
    SplitOrdered(after);
    ResultOrdered(run, StatesOf(Sort(StatusKey, completeness)), Split(after));
    MergeIsNew(RowKey, TransactionOutside(plan.orderIds), o.transactions, i.transactions, n.transactions);
    MergeIsNew(PayoutRowKey, PayoutOutside(plan.payoutIds), o.payouts, i.payouts, n.payouts);
    MergeIsNew(MovementKey, MovementOutside(plan.payoutDates), o.movements, i.movements, n.movements);
  }

  lemma RefreshedExceptions(run: Run, before: seq<FinancialRecord>, after: seq<FinancialRecord>,
                            changed: seq<FinancialRecord>,
                            plan: AW.Plan, oldConflicts: seq<Conflict>, newConflicts: seq<Conflict>,
                            completeness: seq<CompletenessResult>, cite: Conflict -> seq<FinancialException>)
    requires WindowPlan(before, after, changed, plan) && CitesConflicts(cite)
    requires ResultFor(run, before, oldConflicts, completeness).Success?
    requires ResultFor(run, after, newConflicts, completeness).Success?
    requires ResultFor(run, PlannedRecords(plan, after), newConflicts, completeness).Success?
    requires DistinctBy(MovementName, Movements(Split(before))) && DistinctBy(MovementName, Movements(Split(after)))
    ensures var planned := PlannedRecords(plan, after);
      var o, i := ResultFor(run, before, oldConflicts, completeness).value,
                  ResultFor(run, planned, newConflicts, completeness).value;
      var out := ExceptionOutside(KeysOf(plan), NamesOn(o.movements + i.movements, DaysOf(plan)));
      Merge(ExceptionKey, out, ExceptionsFor(run, cite, before, oldConflicts, completeness),
            ExceptionsFor(run, cite, planned, newConflicts, completeness))
      == ExceptionsFor(run, cite, after, newConflicts, completeness)
  {
    var planned := PlannedRecords(plan, after);
    var o, i := ResultFor(run, before, oldConflicts, completeness).value,
                ResultFor(run, planned, newConflicts, completeness).value;
    var names, sorted := NamesOn(o.movements + i.movements, DaysOf(plan)), Sort(StatusKey, completeness);
    PlannedNames(run, before, after, changed, plan, newConflicts, completeness, o.movements);
    ResultSections(run, before, oldConflicts, completeness);
    ResultSections(run, after, newConflicts, completeness);
    IncrementalExceptions(run, before, after, changed, plan, oldConflicts, newConflicts, completeness, cite, names);
    SortSorted(ExceptionKey, KeepLast(ExceptionId, Given(run, cite, sorted, newConflicts)
                                                   + RecordExceptions(run, StatesOf(sorted), Split(after))));
    OutsideByIdentity(KeysOf(plan), names);
    MergeIsNew(ExceptionKey, ExceptionOutside(KeysOf(plan), names),
               ExceptionsFor(run, cite, before, oldConflicts, completeness),
               ExceptionsFor(run, cite, planned, newConflicts, completeness),
               ExceptionsFor(run, cite, after, newConflicts, completeness));
  }

  // ---- The claim for what the worker publishes ----

  lemma StableSections(run: Run, c: Canonicalize.CanonicalizationResult, completeness: seq<CompletenessResult>)
    requires RB.StableResultFor(run, c, completeness).Success?
    ensures ResultFor(run, c.records, c.conflicts, completeness).Success?
    ensures var s, r := RB.StableResultFor(run, c, completeness).value,
      ResultFor(run, c.records, c.conflicts, completeness).value;
      s == r.(exceptions := ExceptionsFor(run, RB.StableConflictExceptions(run), c.records, c.conflicts, completeness))
  {
  }

  /** The same equality for results whose conflicts are cited by variants, as the worker publishes them. Conflicts are
      small and always reported in full. */
  lemma PublishedIncrementalEqualsFullRebuild(run: Run, c: Canonicalize.CanonicalizationResult,
                                              d: Canonicalize.CanonicalizationResult,
                                              changed: seq<FinancialRecord>, plan: AW.Plan,
                                              completeness: seq<CompletenessResult>)
    requires WindowPlan(c.records, d.records, changed, plan)
    requires RB.StableResultFor(run, c, completeness).Success? && RB.StableResultFor(run, d, completeness).Success?
    ensures RB.StableResultFor(run, d.(records := PlannedRecords(plan, d.records)), completeness).Success?
    ensures var o, n := RB.StableResultFor(run, c, completeness).value, RB.StableResultFor(run, d, completeness).value;
      var i := RB.StableResultFor(run, d.(records := PlannedRecords(plan, d.records)), completeness).value;
      var f := Refreshed(plan, o, i);
      f.transactions == n.transactions && f.movements == n.movements && f.payouts == n.payouts &&
      f.completeness == n.completeness && (Publication.Publishable(o) && Publication.Publishable(n) ==> f == n)
  {
    var p := d.(records := PlannedRecords(plan, d.records));
    StableSections(run, c, completeness);
    StableSections(run, d, completeness);
    IncrementalEqualsFullRebuild(run, c.records, d.records, changed, plan, c.conflicts, d.conflicts, completeness);
    StableSections(run, p, completeness);
    ResultSections(run, c.records, c.conflicts, completeness);
    ResultSections(run, d.records, d.conflicts, completeness);
    ResultExceptions(run, d.records, d.conflicts, completeness);
    ResultExceptions(run, p.records, p.conflicts, completeness);
    if DistinctBy(MovementName, Movements(Split(c.records))) && DistinctBy(MovementName, Movements(Split(d.records))) {
      ReceiptsCite(run);
      RefreshedExceptions(run, c.records, d.records, changed, plan, c.conflicts, d.conflicts, completeness,
                          RB.StableConflictExceptions(run));
    }
  }
}
