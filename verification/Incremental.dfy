/** The project's primary claim: what the affected-window plan leaves out, a full rebuild leaves unchanged.
    The plan is a graph closure; the reconciler is a rule engine. The frame below ties the two. */
module Incremental {
  import opened Sequences
  import opened Contracts
  import opened Money
  import opened Rules
  import opened Ledger
  import opened Reconciliation
  import opened Marks
  import AW = AffectedWindows

  /** What a window plan guarantees about the keys it names: every changed record is inside, and the
      boundary cuts no relationship and no shared date. */
  ghost predicate Frames(b: Records, a: Records, keys: set<RecordKey>, days: set<int>) {
    Ordered(b) && Ordered(a) &&
    (forall r :: Contains(b, r) != Contains(a, r) ==> KeyOf(r) in keys) &&
    (forall r :: Contains(b, r) || Contains(a, r) ==> FramedRecord(r, keys, days))
  }

  ghost predicate FramedRecord(r: FinancialRecord, keys: set<RecordKey>, days: set<int>) {
    (forall p :: p in References(r) ==> (KeyOf(r) in keys <==> p in keys)) &&
    (AW.FactDay(AW.FactOf(r)).Some? ==> (KeyOf(r) in keys <==> AW.FactDay(AW.FactOf(r)).value in days))
  }

  /** Every record a record names, even by an empty id. */
  function References(r: FinancialRecord): set<RecordKey> {
    match r
    case PaymentRecord(p) => {RecordKey(OrderType, p.orderId)}
    case RefundRecord(f) => {RecordKey(PaymentType, f.paymentId)}
    case FeeRecord(f) => {RecordKey(PaymentType, f.paymentId)}
    case LineRecord(l) => {RecordKey(PayoutType, l.payoutId), RecordKey(MovementEntity(l.kind), l.movementId)}
    case _ => {}
  }

  ghost function Evidence(before: seq<FinancialRecord>, after: seq<FinancialRecord>,
                          changed: seq<FinancialRecord>): set<AW.Fact> {
    AW.FactSet(Map(AW.FactOf, before) + Map(AW.FactOf, after) + Map(AW.FactOf, changed))
  }

  lemma EvidenceHas(before: seq<FinancialRecord>, after: seq<FinancialRecord>, changed: seq<FinancialRecord>,
                    r: FinancialRecord)
    requires r in before || r in after || r in changed
    ensures AW.FactOf(r) in Evidence(before, after, changed)
    ensures AW.FactKey(AW.FactOf(r)) == KeyOf(r)
  {
    var all := Map(AW.FactOf, before) + Map(AW.FactOf, after) + Map(AW.FactOf, changed);
    if r in before {
      var i :| 0 <= i < |before| && before[i] == r;
      assert all[i] == AW.FactOf(r);
    } else if r in after {
      var i :| 0 <= i < |after| && after[i] == r;
      assert all[|before| + i] == AW.FactOf(r);
    } else {
      var i :| 0 <= i < |changed| && changed[i] == r;
      assert all[|before| + |after| + i] == AW.FactOf(r);
    }
  }

  /** The frame conditions of one record, read off a closed set of resolved keys: a resolved record has no empty
      reference. */
  lemma ClosedFramesRecord(facts: set<AW.Fact>, keys: set<RecordKey>, r: FinancialRecord)
    requires AW.Closed(facts, keys) && AW.FactOf(r) in facts && AW.FactKey(AW.FactOf(r)) == KeyOf(r)
    requires AW.ReasonsOf(facts, keys) == {} && forall k :: k in keys ==> k.id != ""
    ensures FramedRecord(r, keys, AW.DatesOf(facts, keys))
  {
    var f := AW.FactOf(r);
    forall p | p in References(r)
      ensures KeyOf(r) in keys <==> p in keys
    {
      if p.id == "" {
        assert AW.MissingRelationshipId in AW.Issues(f);
        assert KeyOf(r) in keys ==> AW.MissingRelationshipId in AW.ReasonsOf(facts, keys);
      } else {
        assert p in AW.Parents(f);
        assert AW.Linked(facts, KeyOf(r), p) && AW.Linked(facts, p, KeyOf(r));
      }
    }
    if AW.FactDay(f).Some? {
      var d := AW.FactDay(f).value;
      assert AW.Dated(facts, KeyOf(r), d);
      if d in AW.DatesOf(facts, keys) {
        var g :| g in facts && AW.FactKey(g) in keys && AW.FactDay(g) == Some(d);
        assert AW.Dated(facts, AW.FactKey(g), d);
      }
    }
  }

  /** The planner rejects records without an id. */
  ghost predicate Named(before: seq<FinancialRecord>, after: seq<FinancialRecord>, changed: seq<FinancialRecord>) {
    forall r :: r in before || r in after || r in changed ==> KeyOf(r).id != ""
  }

  lemma EvidenceNamed(before: seq<FinancialRecord>, after: seq<FinancialRecord>, changed: seq<FinancialRecord>,
                      f: AW.Fact)
    requires Named(before, after, changed) && f in Evidence(before, after, changed)
    ensures AW.FactKey(f).id != ""
  {
    var all := Map(AW.FactOf, before) + Map(AW.FactOf, after) + Map(AW.FactOf, changed);
    var i :| 0 <= i < |all| && all[i] == f;
    var records := before + after + changed;
    assert all[i] == AW.FactOf(records[i]) && records[i] in records;
    assert AW.FactKey(AW.FactOf(records[i])) == KeyOf(records[i]);
  }

  /** Resolved keys belong to known records, and those have ids. */
  lemma ResolvedNamed(before: seq<FinancialRecord>, after: seq<FinancialRecord>, changed: seq<FinancialRecord>,
                      keys: set<RecordKey>)
    requires Named(before, after, changed) && AW.ReasonsOf(Evidence(before, after, changed), keys) == {}
    ensures forall k :: k in keys ==> k.id != ""
  {
    var facts := Evidence(before, after, changed);
    forall k | k in keys
      ensures k.id != ""
    {
      assert !AW.Known(facts, k) ==> AW.RelatedRecordMissing(k) in AW.ReasonsOf(facts, keys);
      var f :| f in facts && AW.FactKey(f) == k;
      EvidenceNamed(before, after, changed, f);
    }
  }

  lemma ClosedFrames(before: seq<FinancialRecord>, after: seq<FinancialRecord>, changed: seq<FinancialRecord>,
                     keys: set<RecordKey>)
    requires UniqueIdentities(before) && UniqueIdentities(after) && Named(before, after, changed)
    requires forall r :: (r in before) != (r in after) ==> r in changed
    requires AW.Closed(Evidence(before, after, changed), keys) && AW.Seeds(Map(AW.FactOf, changed)) <= keys
    requires AW.ReasonsOf(Evidence(before, after, changed), keys) == {}
    ensures Frames(Split(before), Split(after), keys, AW.DatesOf(Evidence(before, after, changed), keys))
  {
    SplitOrdered(before);
    SplitOrdered(after);
    var facts := Evidence(before, after, changed);
    ResolvedNamed(before, after, changed, keys);
    forall r
      ensures Contains(Split(before), r) != Contains(Split(after), r) ==> KeyOf(r) in keys
      ensures Contains(Split(before), r) || Contains(Split(after), r) ==> FramedRecord(r, keys, AW.DatesOf(facts, keys))
    {
      SplitContains(before, r);
      SplitContains(after, r);
      if r in before || r in after {
        EvidenceHas(before, after, changed, r);
        ClosedFramesRecord(facts, keys, r);
      }
      if r in changed {
        SeedsHave(changed, r);
      }
    }
  }

  lemma PlanReach(facts: set<AW.Fact>, seeds: set<RecordKey>, plan: AW.Plan)
    requires AW.IsPlan(facts, seeds, plan)
    ensures (set k | k in plan.sourceKeys) == AW.Reach(facts, seeds)
    ensures (set d | d in plan.payoutDates) == AW.DatesOf(facts, AW.Reach(facts, seeds))
  {
    var days := AW.DatesOf(facts, AW.Reach(facts, seeds));
    assert forall d :: d in plan.payoutDates <==> d in days;
  }

  /** A plan without unresolved reasons, computed from evidence covering every difference, frames both ledgers. */
  lemma WindowPlanFrames(before: seq<FinancialRecord>, after: seq<FinancialRecord>, changed: seq<FinancialRecord>,
                         plan: AW.Plan)
    requires UniqueIdentities(before) && UniqueIdentities(after) && Named(before, after, changed)
    requires forall r :: (r in before) != (r in after) ==> r in changed
    requires AW.IsPlan(Evidence(before, after, changed), AW.Seeds(Map(AW.FactOf, changed)), plan)
    requires plan.scope == AW.ScopeWindows
    ensures Frames(Split(before), Split(after), set k | k in plan.sourceKeys, set d | d in plan.payoutDates)
  {
    var facts, seeds := Evidence(before, after, changed), AW.Seeds(Map(AW.FactOf, changed));
    AW.ReachIsLeastClosed(facts, seeds);
    PlanReach(facts, seeds, plan);
    ClosedFrames(before, after, changed, AW.Reach(facts, seeds));
  }

  lemma SeedsHave(changed: seq<FinancialRecord>, r: FinancialRecord)
    requires r in changed
    ensures KeyOf(r) in AW.Seeds(Map(AW.FactOf, changed))
  {
    var i :| 0 <= i < |changed| && changed[i] == r;
    assert Map(AW.FactOf, changed)[i] == AW.FactOf(r);
    assert AW.FactKey(AW.FactOf(r)) == KeyOf(r);
  }

  // ---- The frame, one record type at a time ----

  lemma OrderFrame(b: Records, a: Records, keys: set<RecordKey>, days: set<int>, o: Order)
    requires Frames(b, a, keys, days)
    ensures RecordKey(OrderType, o.orderId) !in keys ==> (o in b.orders <==> o in a.orders)
  {
    var r := OrderRecord(o);
    assert KeyOf(r) == RecordKey(OrderType, o.orderId);
    assert (Contains(b, r) <==> o in b.orders) && (Contains(a, r) <==> o in a.orders);
  }

  lemma PaymentFrame(b: Records, a: Records, keys: set<RecordKey>, days: set<int>, p: Payment)
    requires Frames(b, a, keys, days)
    ensures RecordKey(PaymentType, p.paymentId) !in keys ==> (p in b.payments <==> p in a.payments)
    ensures p in b.payments || p in a.payments ==>
      (RecordKey(PaymentType, p.paymentId) in keys <==> RecordKey(OrderType, p.orderId) in keys)
    ensures (p in b.payments || p in a.payments) && p.availableOn.Some? ==>
      (RecordKey(PaymentType, p.paymentId) in keys <==> p.availableOn.value in days)
  {
    var r := PaymentRecord(p);
    assert KeyOf(r) == RecordKey(PaymentType, p.paymentId);
    assert (Contains(b, r) <==> p in b.payments) && (Contains(a, r) <==> p in a.payments);
    if p in b.payments || p in a.payments {
      assert AW.FactDay(AW.FactOf(r)) == p.availableOn;
    }
  }

  lemma RefundFrame(b: Records, a: Records, keys: set<RecordKey>, days: set<int>, f: Refund)
    requires Frames(b, a, keys, days)
    ensures RecordKey(RefundType, f.refundId) !in keys ==> (f in b.refunds <==> f in a.refunds)
    ensures f in b.refunds || f in a.refunds ==>
      (RecordKey(RefundType, f.refundId) in keys <==> RecordKey(PaymentType, f.paymentId) in keys)
    ensures (f in b.refunds || f in a.refunds) && f.availableOn.Some? ==>
      (RecordKey(RefundType, f.refundId) in keys <==> f.availableOn.value in days)
  {
    var r := RefundRecord(f);
    assert KeyOf(r) == RecordKey(RefundType, f.refundId);
    assert (Contains(b, r) <==> f in b.refunds) && (Contains(a, r) <==> f in a.refunds);
    if f in b.refunds || f in a.refunds {
      assert AW.FactDay(AW.FactOf(r)) == f.availableOn;
    }
  }

  lemma FeeFrame(b: Records, a: Records, keys: set<RecordKey>, days: set<int>, f: Fee)
    requires Frames(b, a, keys, days)
    ensures RecordKey(FeeType, f.feeId) !in keys ==> (f in b.fees <==> f in a.fees)
    ensures f in b.fees || f in a.fees ==>
      (RecordKey(FeeType, f.feeId) in keys <==> RecordKey(PaymentType, f.paymentId) in keys)
  {
    var r := FeeRecord(f);
    assert KeyOf(r) == RecordKey(FeeType, f.feeId);
    assert (Contains(b, r) <==> f in b.fees) && (Contains(a, r) <==> f in a.fees);
  }

  lemma LineFrame(b: Records, a: Records, keys: set<RecordKey>, days: set<int>, l: SettlementLine)
    requires Frames(b, a, keys, days)
    ensures RecordKey(SettlementLineType, l.lineId) !in keys ==> (l in b.lines <==> l in a.lines)
    ensures l in b.lines || l in a.lines ==>
      (RecordKey(SettlementLineType, l.lineId) in keys <==> RecordKey(PayoutType, l.payoutId) in keys) &&
      (RecordKey(SettlementLineType, l.lineId) in keys <==> RecordKey(MovementEntity(l.kind), l.movementId) in keys)
  {
    var r := LineRecord(l);
    assert KeyOf(r) == RecordKey(SettlementLineType, l.lineId);
    assert (Contains(b, r) <==> l in b.lines) && (Contains(a, r) <==> l in a.lines);
  }

  lemma PayoutFrame(b: Records, a: Records, keys: set<RecordKey>, days: set<int>, p: Payout)
    requires Frames(b, a, keys, days)
    ensures RecordKey(PayoutType, p.payoutId) !in keys ==> (p in b.payouts <==> p in a.payouts)
    ensures p in b.payouts || p in a.payouts ==> (RecordKey(PayoutType, p.payoutId) in keys <==> p.payoutDate in days)
  {
    var r := PayoutRecord(p);
    assert KeyOf(r) == RecordKey(PayoutType, p.payoutId);
    assert (Contains(b, r) <==> p in b.payouts) && (Contains(a, r) <==> p in a.payouts);
    assert AW.FactDay(AW.FactOf(r)) == Some(p.payoutDate);
  }

  // ---- Lookups and relations ----

  lemma SameOrderLookup(b: Records, a: Records, keys: set<RecordKey>, days: set<int>, id: string)
    requires Frames(b, a, keys, days) && RecordKey(OrderType, id) !in keys
    ensures Filter(KeyIs(OrderId, id), b.orders) == Filter(KeyIs(OrderId, id), a.orders)
  {
    forall o: Order | KeyIs(OrderId, id)(o)
      ensures o in b.orders <==> o in a.orders
    {
      assert OrderId(o) == id;
      OrderFrame(b, a, keys, days, o);
    }
    FilterFrame(OrderKey, KeyIs(OrderId, id), b.orders, a.orders);
  }

  lemma SamePaymentLookup(b: Records, a: Records, keys: set<RecordKey>, days: set<int>, id: string)
    requires Frames(b, a, keys, days) && RecordKey(PaymentType, id) !in keys
    ensures Filter(KeyIs(PaymentId, id), b.payments) == Filter(KeyIs(PaymentId, id), a.payments)
  {
    forall p: Payment | KeyIs(PaymentId, id)(p)
      ensures p in b.payments <==> p in a.payments
    {
      assert PaymentId(p) == id;
      PaymentFrame(b, a, keys, days, p);
    }
    FilterFrame(PaymentKey, KeyIs(PaymentId, id), b.payments, a.payments);
  }

  lemma SameFeeLookup(b: Records, a: Records, keys: set<RecordKey>, days: set<int>, id: string)
    requires Frames(b, a, keys, days) && RecordKey(FeeType, id) !in keys
    ensures Filter(KeyIs(FeeId, id), b.fees) == Filter(KeyIs(FeeId, id), a.fees)
  {
    forall f: Fee | KeyIs(FeeId, id)(f)
      ensures f in b.fees <==> f in a.fees
    {
      assert FeeId(f) == id;
      FeeFrame(b, a, keys, days, f);
    }
    FilterFrame(FeeKey, KeyIs(FeeId, id), b.fees, a.fees);
  }

  lemma CapturedOrdered(recs: Records)
    requires Ordered(recs)
    ensures StrictlySorted(PaymentKey, CapturedPayments(recs)) && StrictlySorted(RefundKey, SuccessfulRefunds(recs))
    ensures forall p :: p in CapturedPayments(recs) <==> p in recs.payments && p.status == Captured
    ensures forall r :: r in SuccessfulRefunds(recs) <==> r in recs.refunds && r.status == Succeeded
  {
    FilterStrict(PaymentKey, IsCaptured, recs.payments);
    FilterStrict(RefundKey, IsSucceeded, recs.refunds);
    FilterMembers(IsCaptured, recs.payments);
    FilterMembers(IsSucceeded, recs.refunds);
  }

  lemma SameCaptures(b: Records, a: Records, keys: set<RecordKey>, days: set<int>, orderId: string)
    requires Frames(b, a, keys, days) && RecordKey(OrderType, orderId) !in keys
    ensures CapturesOf(b, orderId) == CapturesOf(a, orderId)
    ensures forall p :: p in CapturesOf(b, orderId) ==> p in b.payments && RecordKey(PaymentType, p.paymentId) !in keys
  {
    CapturedOrdered(b);
    CapturedOrdered(a);
    forall p: Payment | KeyIs(PaymentOrderId, orderId)(p)
      ensures p in b.payments <==> p in a.payments
      ensures p in b.payments ==> RecordKey(PaymentType, p.paymentId) !in keys
    {
      assert PaymentOrderId(p) == orderId;
      PaymentFrame(b, a, keys, days, p);
    }
    FilterFrame(PaymentKey, KeyIs(PaymentOrderId, orderId), CapturedPayments(b), CapturedPayments(a));
    FilterMembers(KeyIs(PaymentOrderId, orderId), CapturedPayments(b));
  }

  lemma SameRefunds(b: Records, a: Records, keys: set<RecordKey>, days: set<int>, paymentId: string)
    requires Frames(b, a, keys, days) && RecordKey(PaymentType, paymentId) !in keys
    ensures RefundsOf(b, paymentId) == RefundsOf(a, paymentId)
  {
    CapturedOrdered(b);
    CapturedOrdered(a);
    forall r: Refund | KeyIs(RefundPaymentId, paymentId)(r)
      ensures r in b.refunds <==> r in a.refunds
    {
      assert RefundPaymentId(r) == paymentId;
      RefundFrame(b, a, keys, days, r);
    }
    FilterFrame(RefundKey, KeyIs(RefundPaymentId, paymentId), SuccessfulRefunds(b), SuccessfulRefunds(a));
  }

  lemma SameFees(b: Records, a: Records, keys: set<RecordKey>, days: set<int>, paymentId: string)
    requires Frames(b, a, keys, days) && RecordKey(PaymentType, paymentId) !in keys
    ensures FeesOf(b, paymentId) == FeesOf(a, paymentId)
  {
    forall f: Fee | KeyIs(FeePaymentId, paymentId)(f)
      ensures f in b.fees <==> f in a.fees
    {
      assert FeePaymentId(f) == paymentId;
      FeeFrame(b, a, keys, days, f);
    }
    FilterFrame(FeeKey, KeyIs(FeePaymentId, paymentId), b.fees, a.fees);
  }

  lemma SameLines(b: Records, a: Records, keys: set<RecordKey>, days: set<int>, payoutId: string)
    requires Frames(b, a, keys, days) && RecordKey(PayoutType, payoutId) !in keys
    ensures LinesOf(b, payoutId) == LinesOf(a, payoutId)
    ensures forall l :: l in LinesOf(b, payoutId) ==> l in b.lines && RecordKey(SettlementLineType, l.lineId) !in keys
  {
    forall l: SettlementLine | KeyIs(LinePayoutId, payoutId)(l)
      ensures l in b.lines <==> l in a.lines
      ensures l in b.lines ==> RecordKey(SettlementLineType, l.lineId) !in keys
    {
      assert LinePayoutId(l) == payoutId;
      LineFrame(b, a, keys, days, l);
    }
    FilterFrame(LineKey, KeyIs(LinePayoutId, payoutId), b.lines, a.lines);
    FilterMembers(KeyIs(LinePayoutId, payoutId), b.lines);
  }

  /** Lines carrying a movement that names an untouched record are the same in both ledgers. */
  lemma SameAllocation(b: Records, a: Records, keys: set<RecordKey>, days: set<int>, k: MovementRef)
    requires Frames(b, a, keys, days) && RecordKey(MovementEntity(k.kind), k.id) !in keys
    ensures LinesCarrying(b, k) == LinesCarrying(a, k)
  {
    forall l: SettlementLine | KeyIs(LineMovement, k)(l)
      ensures l in b.lines <==> l in a.lines
    {
      assert LineMovement(l) == k;
      LineFrame(b, a, keys, days, l);
    }
    FilterFrame(LineKey, KeyIs(LineMovement, k), b.lines, a.lines);
  }

  // ---- Views ----

  lemma SameCaptureView(b: Records, a: Records, keys: set<RecordKey>, days: set<int>, p: Payment)
    requires Frames(b, a, keys, days) && p in b.payments && RecordKey(PaymentType, p.paymentId) !in keys
    ensures ViewCapture(b)(p) == ViewCapture(a)(p)
  {
    PaymentFrame(b, a, keys, days, p);
    SameOrderLookup(b, a, keys, days, p.orderId);
    SameRefunds(b, a, keys, days, p.paymentId);
    SameFees(b, a, keys, days, p.paymentId);
  }

  lemma SameOrderView(b: Records, a: Records, keys: set<RecordKey>, days: set<int>, o: Order)
    requires Frames(b, a, keys, days) && RecordKey(OrderType, o.orderId) !in keys
    ensures ViewOrder(b)(o) == ViewOrder(a)(o)
  {
    SameCaptures(b, a, keys, days, o.orderId);
    forall p | p in CapturesOf(b, o.orderId)
      ensures ViewCapture(b)(p) == ViewCapture(a)(p)
    {
      SameCaptureView(b, a, keys, days, p);
    }
    MapAgree(ViewCapture(b), ViewCapture(a), CapturesOf(b, o.orderId));
  }

  lemma SameRefundView(b: Records, a: Records, keys: set<RecordKey>, days: set<int>, r: Refund)
    requires Frames(b, a, keys, days) && r in b.refunds && RecordKey(RefundType, r.refundId) !in keys
    ensures ViewRefund(b)(r) == ViewRefund(a)(r)
  {
    RefundFrame(b, a, keys, days, r);
    SamePaymentLookup(b, a, keys, days, r.paymentId);
  }

  lemma SameFeeView(b: Records, a: Records, keys: set<RecordKey>, days: set<int>, f: Fee)
    requires Frames(b, a, keys, days) && f in b.fees && RecordKey(FeeType, f.feeId) !in keys
    ensures ViewFee(b)(f) == ViewFee(a)(f)
  {
    FeeFrame(b, a, keys, days, f);
    SamePaymentLookup(b, a, keys, days, f.paymentId);
  }

  // ---- Expected movements ----

  function OffDays(days: set<int>): ExpectedMovement -> bool {
    (m: ExpectedMovement) => m.availableOn !in days
  }

  function PaymentOffDays(days: set<int>): Payment -> bool {
    (p: Payment) => DayOf(p.availableOn) !in days
  }

  function RefundOffDays(days: set<int>): Refund -> bool {
    (r: Refund) => DayOf(r.availableOn) !in days
  }

  /** Every capture and refund that moves money has a date, as a successful run has checked. */
  ghost predicate Datable(recs: Records) {
    (forall p :: p in CapturedPayments(recs) ==> p.availableOn.Some?) &&
    (forall r :: r in SuccessfulRefunds(recs) ==> r.availableOn.Some?)
  }

  lemma SameCapturesOffDays(b: Records, a: Records, keys: set<RecordKey>, days: set<int>)
    requires Frames(b, a, keys, days) && Datable(b) && Datable(a)
    ensures Filter(PaymentOffDays(days), CapturedPayments(b)) == Filter(PaymentOffDays(days), CapturedPayments(a))
    ensures forall p :: p in Filter(PaymentOffDays(days), CapturedPayments(b)) ==>
      p in b.payments && RecordKey(PaymentType, p.paymentId) !in keys
  {
    CapturedOrdered(b);
    CapturedOrdered(a);
    forall p: Payment | PaymentOffDays(days)(p)
      ensures p in CapturedPayments(b) <==> p in CapturedPayments(a)
      ensures p in CapturedPayments(b) ==> RecordKey(PaymentType, p.paymentId) !in keys
    {
      PaymentFrame(b, a, keys, days, p);
    }
    FilterFrame(PaymentKey, PaymentOffDays(days), CapturedPayments(b), CapturedPayments(a));
    FilterMembers(PaymentOffDays(days), CapturedPayments(b));
  }

  lemma SameRefundsOffDays(b: Records, a: Records, keys: set<RecordKey>, days: set<int>)
    requires Frames(b, a, keys, days) && Datable(b) && Datable(a)
    ensures Filter(RefundOffDays(days), SuccessfulRefunds(b)) == Filter(RefundOffDays(days), SuccessfulRefunds(a))
  {
    CapturedOrdered(b);
    CapturedOrdered(a);
    forall r: Refund | RefundOffDays(days)(r)
      ensures r in SuccessfulRefunds(b) <==> r in SuccessfulRefunds(a)
    {
      RefundFrame(b, a, keys, days, r);
    }
    FilterFrame(RefundKey, RefundOffDays(days), SuccessfulRefunds(b), SuccessfulRefunds(a));
  }

  lemma CaptureMovementsDay(v: CaptureView, m: ExpectedMovement)
    requires m in CaptureMovements(v)
    ensures m.availableOn == DayOf(v.payment.availableOn)
  {
  }

  /** The movements off some days are those of the captures and refunds off those days. */
  lemma MovementsOffDays(recs: Records, days: set<int>)
    ensures Filter(OffDays(days), Movements(recs)) ==
      Sort(MovementKey, FlatMap(MovementsOfCapture(recs), Filter(PaymentOffDays(days), CapturedPayments(recs)))
                        + Map(RefundMovementOf, Filter(RefundOffDays(days), SuccessfulRefunds(recs))))
  {
    var p := OffDays(days);
    var captures, refunds := FlatMap(MovementsOfCapture(recs), CapturedPayments(recs)),
      Map(RefundMovementOf, SuccessfulRefunds(recs));
    FilterSort(MovementKey, p, captures + refunds);
    FilterConcat(p, captures, refunds);
    forall c, m | c in CapturedPayments(recs) && m in MovementsOfCapture(recs)(c)
      ensures p(m) == PaymentOffDays(days)(c)
    {
      CaptureMovementsDay(ViewCapture(recs)(c), m);
    }
    FilterFlatMap(p, PaymentOffDays(days), MovementsOfCapture(recs), CapturedPayments(recs));
    forall r | r in SuccessfulRefunds(recs)
      ensures p(RefundMovementOf(r)) == RefundOffDays(days)(r)
    {
    }
    FilterMap(p, RefundOffDays(days), RefundMovementOf, SuccessfulRefunds(recs));
  }

  lemma SameMovementsOffDays(b: Records, a: Records, keys: set<RecordKey>, days: set<int>)
    requires Frames(b, a, keys, days) && Datable(b) && Datable(a)
    ensures Filter(OffDays(days), Movements(b)) == Filter(OffDays(days), Movements(a))
  {
    MovementsOffDays(b, days);
    MovementsOffDays(a, days);
    SameCapturesOffDays(b, a, keys, days);
    SameRefundsOffDays(b, a, keys, days);
    var ps := Filter(PaymentOffDays(days), CapturedPayments(b));
    forall p | p in ps
      ensures MovementsOfCapture(b)(p) == MovementsOfCapture(a)(p)
    {
      SameCaptureView(b, a, keys, days, p);
    }
    FlatMapAgree(MovementsOfCapture(b), MovementsOfCapture(a), ps);
  }

  lemma DueOffDays(recs: Records, days: set<int>, day: int)
    requires day !in days
    ensures DueOn(recs, day) == Filter(KeyIs(MovementDay, day), Filter(OffDays(days), Movements(recs)))
  {
    forall m: ExpectedMovement
      ensures KeyIs(MovementDay, day)(m) == (KeyIs(MovementDay, day)(m) && OffDays(days)(m))
    {
      assert KeyIs(MovementDay, day)(m) == (MovementDay(m) == day);
    }
    FilterTwice(KeyIs(MovementDay, day), OffDays(days), KeyIs(MovementDay, day), Movements(recs));
  }

  // ---- Payouts ----

  lemma SamePayoutView(b: Records, a: Records, keys: set<RecordKey>, days: set<int>, p: Payout)
    requires Frames(b, a, keys, days) && Datable(b) && Datable(a)
    requires p in b.payouts && RecordKey(PayoutType, p.payoutId) !in keys
    ensures ViewPayout(b)(p) == ViewPayout(a)(p)
  {
    PayoutFrame(b, a, keys, days, p);
    SameMovementsOffDays(b, a, keys, days);
    DueOffDays(b, days, p.payoutDate);
    DueOffDays(a, days, p.payoutDate);
    SameLines(b, a, keys, days, p.payoutId);
    var lines := LinesOf(b, p.payoutId);
    forall l | l in lines
      ensures Sharers(b)(l) == Sharers(a)(l)
    {
      LineFrame(b, a, keys, days, l);
      SameAllocation(b, a, keys, days, LineMovement(l));
    }
    MapAgree(Sharers(b), Sharers(a), lines);
    forall m | m in DueOn(b, p.payoutDate)
      ensures ViewDue(b, lines)(m) == ViewDue(a, lines)(m)
    {
      SameDueView(b, a, keys, days, lines, m);
    }
    MapAgree(ViewDue(b, lines), ViewDue(a, lines), DueOn(b, p.payoutDate));
  }

  lemma SameDueView(b: Records, a: Records, keys: set<RecordKey>, days: set<int>, lines: seq<SettlementLine>,
                    m: ExpectedMovement)
    requires Frames(b, a, keys, days)
    requires forall l :: l in lines ==> l in b.lines && RecordKey(SettlementLineType, l.lineId) !in keys
    ensures ViewDue(b, lines)(m) == ViewDue(a, lines)(m)
  {
    var carriers := Carriers(lines, m);
    if m.kind == FeeMovement && carriers != [] {
      FilterMember(KeyIs(LineMovement, MovementName(m)), lines, carriers[0]);
      assert LineMovement(carriers[0]) == MovementName(m);
      LineFrame(b, a, keys, days, carriers[0]);
      SameFeeLookup(b, a, keys, days, m.id);
    }
  }

  // ---- Rows ----

  function OrdersOutside(keys: set<RecordKey>): Order -> bool {
    (o: Order) => RecordKey(OrderType, o.orderId) !in keys
  }

  function PayoutsOutside(keys: set<RecordKey>): Payout -> bool {
    (p: Payout) => RecordKey(PayoutType, p.payoutId) !in keys
  }

  function TransactionOutside(orderIds: seq<string>): TransactionRow -> bool {
    (t: TransactionRow) => t.orderId !in orderIds
  }

  function PayoutOutside(payoutIds: seq<string>): PayoutRow -> bool {
    (p: PayoutRow) => p.payoutId !in payoutIds
  }

  function MovementOutside(days: seq<int>): ExpectedMovement -> bool {
    (m: ExpectedMovement) => m.availableOn !in days
  }

  lemma SameOrdersOutside(b: Records, a: Records, keys: set<RecordKey>, days: set<int>)
    requires Frames(b, a, keys, days)
    ensures Filter(OrdersOutside(keys), b.orders) == Filter(OrdersOutside(keys), a.orders)
  {
    forall o: Order | OrdersOutside(keys)(o)
      ensures o in b.orders <==> o in a.orders
    {
      OrderFrame(b, a, keys, days, o);
    }
    FilterFrame(OrderKey, OrdersOutside(keys), b.orders, a.orders);
  }

  lemma TransactionsOutside(recs: Records, run: Run, st: ReportStates, keys: set<RecordKey>, orderIds: seq<string>)
    requires forall id :: id in orderIds <==> RecordKey(OrderType, id) in keys
    ensures Filter(TransactionOutside(orderIds), Transactions(run, st, recs)) ==
      Map(TransactionRule(run, st, recs), Filter(OrdersOutside(keys), recs.orders))
  {
    var out, rows, rule := OrdersOutside(keys), TransactionOutside(orderIds), TransactionRule(run, st, recs);
    forall o | o in recs.orders
      ensures rows(rule(o)) == out(o)
    {
      TransactionRuleId(run, st, recs, o);
    }
    FilterMap(rows, out, rule, recs.orders);
  }

  lemma SameTransactions(b: Records, a: Records, keys: set<RecordKey>, days: set<int>, run: Run, st: ReportStates,
                         orderIds: seq<string>)
    requires Frames(b, a, keys, days)
    requires forall id :: id in orderIds <==> RecordKey(OrderType, id) in keys
    ensures Filter(TransactionOutside(orderIds), Transactions(run, st, b))
      == Filter(TransactionOutside(orderIds), Transactions(run, st, a))
  {
    TransactionsOutside(b, run, st, keys, orderIds);
    TransactionsOutside(a, run, st, keys, orderIds);
    SameOrdersOutside(b, a, keys, days);
    var out := OrdersOutside(keys);
    var os := Filter(out, b.orders);
    forall o | o in os
      ensures TransactionRule(run, st, b)(o) == TransactionRule(run, st, a)(o)
    {
      FilterMember(out, b.orders, o);
      SameTransaction(b, a, keys, days, run, st, o);
    }
    MapAgree(TransactionRule(run, st, b), TransactionRule(run, st, a), os);
  }

  lemma SameTransaction(b: Records, a: Records, keys: set<RecordKey>, days: set<int>, run: Run, st: ReportStates,
                        o: Order)
    requires Frames(b, a, keys, days) && RecordKey(OrderType, o.orderId) !in keys
    ensures TransactionRule(run, st, b)(o) == TransactionRule(run, st, a)(o)
  {
    SameOrderView(b, a, keys, days, o);
  }

  lemma SamePayoutRow(b: Records, a: Records, keys: set<RecordKey>, days: set<int>, run: Run, st: ReportStates,
                      p: Payout)
    requires Frames(b, a, keys, days) && Datable(b) && Datable(a)
    requires p in b.payouts && RecordKey(PayoutType, p.payoutId) !in keys
    ensures PayoutRowRule(run, st, b)(p) == PayoutRowRule(run, st, a)(p)
  {
    SamePayoutView(b, a, keys, days, p);
  }

  lemma SamePayoutsOutside(b: Records, a: Records, keys: set<RecordKey>, days: set<int>)
    requires Frames(b, a, keys, days)
    ensures Filter(PayoutsOutside(keys), b.payouts) == Filter(PayoutsOutside(keys), a.payouts)
    ensures forall p :: p in Filter(PayoutsOutside(keys), b.payouts) ==>
      p in b.payouts && RecordKey(PayoutType, p.payoutId) !in keys
  {
    forall p: Payout | PayoutsOutside(keys)(p)
      ensures p in b.payouts <==> p in a.payouts
    {
      PayoutFrame(b, a, keys, days, p);
    }
    FilterFrame(PayoutKey, PayoutsOutside(keys), b.payouts, a.payouts);
    FilterMembers(PayoutsOutside(keys), b.payouts);
  }

  lemma PayoutRowsOutside(recs: Records, run: Run, st: ReportStates, keys: set<RecordKey>, payoutIds: seq<string>)
    requires forall id :: id in payoutIds <==> RecordKey(PayoutType, id) in keys
    ensures Filter(PayoutOutside(payoutIds), PayoutRows(run, st, recs)) ==
      Map(PayoutRowRule(run, st, recs), Filter(PayoutsOutside(keys), recs.payouts))
  {
    var out, rows, rule := PayoutsOutside(keys), PayoutOutside(payoutIds), PayoutRowRule(run, st, recs);
    forall p | p in recs.payouts
      ensures rows(rule(p)) == out(p)
    {
      PayoutRowRuleId(run, st, recs, p);
    }
    FilterMap(rows, out, rule, recs.payouts);
  }

  lemma SamePayouts(b: Records, a: Records, keys: set<RecordKey>, days: set<int>, run: Run, st: ReportStates,
                    payoutIds: seq<string>)
    requires Frames(b, a, keys, days) && Datable(b) && Datable(a)
    requires forall id :: id in payoutIds <==> RecordKey(PayoutType, id) in keys
    ensures Filter(PayoutOutside(payoutIds), PayoutRows(run, st, b))
      == Filter(PayoutOutside(payoutIds), PayoutRows(run, st, a))
  {
    PayoutRowsOutside(b, run, st, keys, payoutIds);
    PayoutRowsOutside(a, run, st, keys, payoutIds);
    SamePayoutsOutside(b, a, keys, days);
    var ps := Filter(PayoutsOutside(keys), b.payouts);
    forall p | p in ps
      ensures PayoutRowRule(run, st, b)(p) == PayoutRowRule(run, st, a)(p)
    {
      SamePayoutRow(b, a, keys, days, run, st, p);
    }
    MapAgree(PayoutRowRule(run, st, b), PayoutRowRule(run, st, a), ps);
  }

  // ---- Exceptions ----

  function RefundIdOf(r: Refund): string { r.refundId }

  /** The exceptions raised while examining one entity; a settlement movement counts as the record it names. */
  function RaisedBy(run: Run, st: ReportStates, recs: Records, k: RecordKey): seq<FinancialException> {
    match k.kind
    case OrderType => FlatMap(OrderRule(run, st, recs), Filter(KeyIs(OrderId, k.id), recs.orders))
    case PaymentType =>
      var ps := Filter(KeyIs(PaymentId, k.id), CapturedPayments(recs));
      FlatMap(PaymentLinkRule(run, st, recs), ps) + FlatMap(ExcessRefundRule(run, st, recs), ps)
      + FlatMap(FeeAmountRule(run, st, recs), ps) + AllocationRule(run, st, recs)(MovementRef(CaptureMovement, k.id))
    case RefundType =>
      FlatMap(RefundLinkRule(run, st, recs), Filter(KeyIs(RefundIdOf, k.id), SuccessfulRefunds(recs)))
      + AllocationRule(run, st, recs)(MovementRef(RefundMovement, k.id))
    case FeeType =>
      FlatMap(FeeLinkRule(run, st, recs), Filter(KeyIs(FeeId, k.id), recs.fees))
      + AllocationRule(run, st, recs)(MovementRef(FeeMovement, k.id))
    case SettlementLineType => []
    case PayoutType => FlatMap(PayoutRule(run, st, recs), Filter(KeyIs(PayoutId, k.id), recs.payouts))
  }

  lemma SameRaisedByOrder(b: Records, a: Records, keys: set<RecordKey>, days: set<int>, run: Run, st: ReportStates,
                          id: string)
    requires Frames(b, a, keys, days) && RecordKey(OrderType, id) !in keys
    ensures RaisedBy(run, st, b, RecordKey(OrderType, id)) == RaisedBy(run, st, a, RecordKey(OrderType, id))
  {
    SameOrderLookup(b, a, keys, days, id);
    var os := Filter(KeyIs(OrderId, id), b.orders);
    FilterMembers(KeyIs(OrderId, id), b.orders);
    forall o | o in os
      ensures OrderRule(run, st, b)(o) == OrderRule(run, st, a)(o)
    {
      assert OrderId(o) == id;
      SameOrderView(b, a, keys, days, o);
    }
    FlatMapAgree(OrderRule(run, st, b), OrderRule(run, st, a), os);
  }

  lemma SameCapturedLookup(b: Records, a: Records, keys: set<RecordKey>, days: set<int>, id: string)
    requires Frames(b, a, keys, days) && RecordKey(PaymentType, id) !in keys
    ensures Filter(KeyIs(PaymentId, id), CapturedPayments(b)) == Filter(KeyIs(PaymentId, id), CapturedPayments(a))
    ensures forall p :: p in Filter(KeyIs(PaymentId, id), CapturedPayments(b)) ==> p.paymentId == id && p in b.payments
  {
    CapturedOrdered(b);
    CapturedOrdered(a);
    forall p: Payment | KeyIs(PaymentId, id)(p)
      ensures p.paymentId == id
      ensures p in b.payments <==> p in a.payments
    {
      assert PaymentId(p) == id;
      PaymentFrame(b, a, keys, days, p);
    }
    FilterFrame(PaymentKey, KeyIs(PaymentId, id), CapturedPayments(b), CapturedPayments(a));
    FilterMembers(KeyIs(PaymentId, id), CapturedPayments(b));
  }

  lemma SameAllocationRule(b: Records, a: Records, keys: set<RecordKey>, days: set<int>, run: Run, st: ReportStates,
                           k: MovementRef)
    requires Frames(b, a, keys, days) && RecordKey(MovementEntity(k.kind), k.id) !in keys
    ensures AllocationRule(run, st, b)(k) == AllocationRule(run, st, a)(k)
  {
    SameAllocation(b, a, keys, days, k);
    assert ViewAllocation(b)(k) == ViewAllocation(a)(k);
  }

  lemma SameRaisedByPayment(b: Records, a: Records, keys: set<RecordKey>, days: set<int>, run: Run, st: ReportStates,
                            id: string)
    requires Frames(b, a, keys, days) && RecordKey(PaymentType, id) !in keys
    ensures RaisedBy(run, st, b, RecordKey(PaymentType, id)) == RaisedBy(run, st, a, RecordKey(PaymentType, id))
  {
    SameCapturedLookup(b, a, keys, days, id);
    SameAllocationRule(b, a, keys, days, run, st, MovementRef(CaptureMovement, id));
    var ps := Filter(KeyIs(PaymentId, id), CapturedPayments(b));
    forall p | p in ps
      ensures ViewCapture(b)(p) == ViewCapture(a)(p)
    {
      SameCaptureView(b, a, keys, days, p);
    }
    FlatMapAgree(PaymentLinkRule(run, st, b), PaymentLinkRule(run, st, a), ps);
    FlatMapAgree(ExcessRefundRule(run, st, b), ExcessRefundRule(run, st, a), ps);
    FlatMapAgree(FeeAmountRule(run, st, b), FeeAmountRule(run, st, a), ps);
  }

  lemma SameRefundLookup(b: Records, a: Records, keys: set<RecordKey>, days: set<int>, id: string)
    requires Frames(b, a, keys, days) && RecordKey(RefundType, id) !in keys
    ensures Filter(KeyIs(RefundIdOf, id), SuccessfulRefunds(b)) == Filter(KeyIs(RefundIdOf, id), SuccessfulRefunds(a))
    ensures forall r :: r in Filter(KeyIs(RefundIdOf, id), SuccessfulRefunds(b)) ==> r.refundId == id && r in b.refunds
  {
    CapturedOrdered(b);
    CapturedOrdered(a);
    var p := KeyIs(RefundIdOf, id);
    forall r: Refund | p(r)
      ensures r.refundId == id
      ensures r in b.refunds <==> r in a.refunds
    {
      assert RefundIdOf(r) == id;
      RefundFrame(b, a, keys, days, r);
    }
    FilterFrame(RefundKey, p, SuccessfulRefunds(b), SuccessfulRefunds(a));
    FilterMembers(p, SuccessfulRefunds(b));
  }

  lemma SameRaisedByRefund(b: Records, a: Records, keys: set<RecordKey>, days: set<int>, run: Run, st: ReportStates,
                           id: string)
    requires Frames(b, a, keys, days) && RecordKey(RefundType, id) !in keys
    ensures RaisedBy(run, st, b, RecordKey(RefundType, id)) == RaisedBy(run, st, a, RecordKey(RefundType, id))
  {
    SameRefundLookup(b, a, keys, days, id);
    SameAllocationRule(b, a, keys, days, run, st, MovementRef(RefundMovement, id));
    var rs := Filter(KeyIs(RefundIdOf, id), SuccessfulRefunds(b));
    forall r | r in rs
      ensures RefundLinkRule(run, st, b)(r) == RefundLinkRule(run, st, a)(r)
    {
      SameRefundView(b, a, keys, days, r);
    }
    FlatMapAgree(RefundLinkRule(run, st, b), RefundLinkRule(run, st, a), rs);
  }

  lemma FeeLookupMembers(recs: Records, id: string)
    ensures forall f :: f in Filter(KeyIs(FeeId, id), recs.fees) ==> f.feeId == id && f in recs.fees
  {
    FilterMembers(KeyIs(FeeId, id), recs.fees);
    forall f | f in Filter(KeyIs(FeeId, id), recs.fees)
      ensures f.feeId == id
    {
      assert FeeId(f) == id;
    }
  }

  lemma SameRaisedByFee(b: Records, a: Records, keys: set<RecordKey>, days: set<int>, run: Run, st: ReportStates,
                        id: string)
    requires Frames(b, a, keys, days) && RecordKey(FeeType, id) !in keys
    ensures RaisedBy(run, st, b, RecordKey(FeeType, id)) == RaisedBy(run, st, a, RecordKey(FeeType, id))
  {
    SameFeeLookup(b, a, keys, days, id);
    FeeLookupMembers(b, id);
    SameAllocationRule(b, a, keys, days, run, st, MovementRef(FeeMovement, id));
    var fs := Filter(KeyIs(FeeId, id), b.fees);
    forall f | f in fs
      ensures FeeLinkRule(run, st, b)(f) == FeeLinkRule(run, st, a)(f)
    {
      SameFeeView(b, a, keys, days, f);
    }
    FlatMapAgree(FeeLinkRule(run, st, b), FeeLinkRule(run, st, a), fs);
  }

  lemma SamePayoutLookup(b: Records, a: Records, keys: set<RecordKey>, days: set<int>, id: string)
    requires Frames(b, a, keys, days) && RecordKey(PayoutType, id) !in keys
    ensures Filter(KeyIs(PayoutId, id), b.payouts) == Filter(KeyIs(PayoutId, id), a.payouts)
    ensures forall p :: p in Filter(KeyIs(PayoutId, id), b.payouts) ==> p.payoutId == id && p in b.payouts
  {
    var p := KeyIs(PayoutId, id);
    forall q: Payout | p(q)
      ensures q.payoutId == id
      ensures q in b.payouts <==> q in a.payouts
    {
      assert PayoutId(q) == id;
      PayoutFrame(b, a, keys, days, q);
    }
    FilterFrame(PayoutKey, p, b.payouts, a.payouts);
    FilterMembers(p, b.payouts);
  }

  lemma SameRaisedByPayout(b: Records, a: Records, keys: set<RecordKey>, days: set<int>, run: Run, st: ReportStates,
                           id: string)
    requires Frames(b, a, keys, days) && RecordKey(PayoutType, id) !in keys && Datable(b) && Datable(a)
    ensures RaisedBy(run, st, b, RecordKey(PayoutType, id)) == RaisedBy(run, st, a, RecordKey(PayoutType, id))
  {
    SamePayoutLookup(b, a, keys, days, id);
    var ps := Filter(KeyIs(PayoutId, id), b.payouts);
    forall q | q in ps
      ensures PayoutRule(run, st, b)(q) == PayoutRule(run, st, a)(q)
    {
      FilterMember(KeyIs(PayoutId, id), b.payouts, q);
      assert KeyIs(PayoutId, id)(q) == (PayoutId(q) == id);
      SamePayoutRule(b, a, keys, days, run, st, q);
    }
    FlatMapAgree(PayoutRule(run, st, b), PayoutRule(run, st, a), ps);
  }

  lemma SamePayoutRule(b: Records, a: Records, keys: set<RecordKey>, days: set<int>, run: Run, st: ReportStates,
                       q: Payout)
    requires Frames(b, a, keys, days) && Datable(b) && Datable(a)
    requires q in b.payouts && RecordKey(PayoutType, q.payoutId) !in keys
    ensures PayoutRule(run, st, b)(q) == PayoutRule(run, st, a)(q)
  {
    SamePayoutView(b, a, keys, days, q);
    assert PayoutRule(run, st, b)(q) == PayoutExceptions(run, st, ViewPayout(b)(q));
    assert PayoutRule(run, st, a)(q) == PayoutExceptions(run, st, ViewPayout(a)(q));
  }

  /** Examining an entity outside the plan raises the same exceptions, with the same amounts and evidence. */
  lemma SameRaised(b: Records, a: Records, keys: set<RecordKey>, days: set<int>, run: Run, st: ReportStates,
                   k: RecordKey)
    requires Frames(b, a, keys, days) && k !in keys && Datable(b) && Datable(a)
    ensures RaisedBy(run, st, b, k) == RaisedBy(run, st, a, k)
  {
    match k.kind
    case OrderType => SameRaisedByOrder(b, a, keys, days, run, st, k.id);
    case PaymentType => SameRaisedByPayment(b, a, keys, days, run, st, k.id);
    case RefundType => SameRaisedByRefund(b, a, keys, days, run, st, k.id);
    case FeeType => SameRaisedByFee(b, a, keys, days, run, st, k.id);
    case SettlementLineType =>
    case PayoutType => SameRaisedByPayout(b, a, keys, days, run, st, k.id);
  }

  /** `RaisedBy` accounts for every exception a run derives from its records. */
  lemma RaisedByComplete(run: Run, st: ReportStates, recs: Records, e: FinancialException)
    ensures e in RecordExceptions(run, st, recs) <==> exists k :: e in RaisedBy(run, st, recs, k)
  {
    RecordExceptionSources(run, st, recs, e);
    if e in RecordExceptions(run, st, recs) {
      var k := RaisedForSource(run, st, recs, e);
    }
    forall k | e in RaisedBy(run, st, recs, k)
      ensures e in RecordExceptions(run, st, recs)
    {
      SourceOfRaised(run, st, recs, e, k);
    }
  }

  predicate RaisesForPayment(run: Run, st: ReportStates, recs: Records, p: Payment, e: FinancialException) {
    e in PaymentLinkRule(run, st, recs)(p) || e in ExcessRefundRule(run, st, recs)(p) ||
    e in FeeAmountRule(run, st, recs)(p)
  }

  /** Which record's examination an exception comes from. */
  ghost predicate HasSource(run: Run, st: ReportStates, recs: Records, e: FinancialException) {
    (exists p :: p in CapturedPayments(recs) && RaisesForPayment(run, st, recs, p, e)) ||
    (exists r :: r in SuccessfulRefunds(recs) && e in RefundLinkRule(run, st, recs)(r)) ||
    (exists f :: f in recs.fees && e in FeeLinkRule(run, st, recs)(f)) ||
    (exists o :: o in recs.orders && e in OrderRule(run, st, recs)(o)) ||
    (exists k :: k in AllocatedMovements(recs) && e in AllocationRule(run, st, recs)(k)) ||
    (exists p :: p in recs.payouts && e in PayoutRule(run, st, recs)(p))
  }

  lemma RecordExceptionSources(run: Run, st: ReportStates, recs: Records, e: FinancialException)
    ensures e in RecordExceptions(run, st, recs) <==> HasSource(run, st, recs, e)
  {
    FlatMapMember(PaymentLinkRule(run, st, recs), CapturedPayments(recs), e);
    FlatMapMember(RefundLinkRule(run, st, recs), SuccessfulRefunds(recs), e);
    FlatMapMember(ExcessRefundRule(run, st, recs), CapturedPayments(recs), e);
    FlatMapMember(FeeAmountRule(run, st, recs), CapturedPayments(recs), e);
    FlatMapMember(FeeLinkRule(run, st, recs), recs.fees, e);
    FlatMapMember(OrderRule(run, st, recs), recs.orders, e);
    FlatMapMember(AllocationRule(run, st, recs), AllocatedMovements(recs), e);
    FlatMapMember(PayoutRule(run, st, recs), recs.payouts, e);
  }

  lemma Examined<T(!new)>(rule: T -> seq<FinancialException>, id: T -> string, s: seq<T>, x: T, e: FinancialException)
    requires x in s && e in rule(x)
    ensures e in FlatMap(rule, Filter(KeyIs(id, id(x)), s))
  {
    FilterMember(KeyIs(id, id(x)), s, x);
    FlatMapMember(rule, Filter(KeyIs(id, id(x)), s), e);
  }

  lemma RaisedForPayment(run: Run, st: ReportStates, recs: Records, p: Payment, e: FinancialException)
    requires p in CapturedPayments(recs) && RaisesForPayment(run, st, recs, p, e)
    ensures e in RaisedBy(run, st, recs, RecordKey(PaymentType, p.paymentId))
  {
    if e in PaymentLinkRule(run, st, recs)(p) {
      Examined(PaymentLinkRule(run, st, recs), PaymentId, CapturedPayments(recs), p, e);
    } else if e in ExcessRefundRule(run, st, recs)(p) {
      Examined(ExcessRefundRule(run, st, recs), PaymentId, CapturedPayments(recs), p, e);
    } else {
      Examined(FeeAmountRule(run, st, recs), PaymentId, CapturedPayments(recs), p, e);
    }
  }

  lemma RaisedForAllocation(run: Run, st: ReportStates, recs: Records, k: MovementRef, e: FinancialException)
    requires e in AllocationRule(run, st, recs)(k)
    ensures e in RaisedBy(run, st, recs, RecordKey(MovementEntity(k.kind), k.id))
  {
  }

  lemma RaisedForSource(run: Run, st: ReportStates, recs: Records, e: FinancialException) returns (k: RecordKey)
    requires HasSource(run, st, recs, e)
    ensures e in RaisedBy(run, st, recs, k)
  {
    if p :| p in CapturedPayments(recs) && RaisesForPayment(run, st, recs, p, e) {
      RaisedForPayment(run, st, recs, p, e);
      return RecordKey(PaymentType, p.paymentId);
    }
    if r :| r in SuccessfulRefunds(recs) && e in RefundLinkRule(run, st, recs)(r) {
      Examined(RefundLinkRule(run, st, recs), RefundIdOf, SuccessfulRefunds(recs), r, e);
      return RecordKey(RefundType, RefundIdOf(r));
    }
    if f :| f in recs.fees && e in FeeLinkRule(run, st, recs)(f) {
      Examined(FeeLinkRule(run, st, recs), FeeId, recs.fees, f, e);
      return RecordKey(FeeType, FeeId(f));
    }
    if o :| o in recs.orders && e in OrderRule(run, st, recs)(o) {
      Examined(OrderRule(run, st, recs), OrderId, recs.orders, o, e);
      return RecordKey(OrderType, OrderId(o));
    }
    if m :| m in AllocatedMovements(recs) && e in AllocationRule(run, st, recs)(m) {
      RaisedForAllocation(run, st, recs, m, e);
      return RecordKey(MovementEntity(m.kind), m.id);
    }
    var p :| p in recs.payouts && e in PayoutRule(run, st, recs)(p);
    Examined(PayoutRule(run, st, recs), PayoutId, recs.payouts, p, e);
    return RecordKey(PayoutType, PayoutId(p));
  }

  lemma ExaminedFrom<T(!new)>(rule: T -> seq<FinancialException>, p: T -> bool, s: seq<T>, e: FinancialException)
    requires e in FlatMap(rule, Filter(p, s))
    ensures e in FlatMap(rule, s)
  {
    FlatMapMember(rule, Filter(p, s), e);
    var x :| x in Filter(p, s) && e in rule(x);
    FilterMember(p, s, x);
    FlatMapMember(rule, s, e);
  }

  lemma AllocationExamined(run: Run, st: ReportStates, recs: Records, k: MovementRef, e: FinancialException)
    requires e in AllocationRule(run, st, recs)(k)
    ensures e in FlatMap(AllocationRule(run, st, recs), AllocatedMovements(recs))
  {
    assert AllocationRule(run, st, recs)(k) == AllocationExceptions(run, st, ViewAllocation(recs)(k));
    assert ViewAllocation(recs)(k).lines == LinesCarrying(recs, k);
    var l := LinesCarrying(recs, k)[0];
    FilterMember(KeyIs(LineMovement, k), recs.lines, l);
    AllocatedMember(recs, l);
    assert LineMovement(l) == k;
    FlatMapMember(AllocationRule(run, st, recs), AllocatedMovements(recs), e);
  }

  lemma SourceOfRaised(run: Run, st: ReportStates, recs: Records, e: FinancialException, k: RecordKey)
    requires e in RaisedBy(run, st, recs, k)
    ensures e in RecordExceptions(run, st, recs)
  {
    match k.kind
    case OrderType => ExaminedFrom(OrderRule(run, st, recs), KeyIs(OrderId, k.id), recs.orders, e);
    case PaymentType =>
      var p, ps := KeyIs(PaymentId, k.id), CapturedPayments(recs);
      if e in FlatMap(PaymentLinkRule(run, st, recs), Filter(p, ps)) {
        ExaminedFrom(PaymentLinkRule(run, st, recs), p, ps, e);
      } else if e in FlatMap(ExcessRefundRule(run, st, recs), Filter(p, ps)) {
        ExaminedFrom(ExcessRefundRule(run, st, recs), p, ps, e);
      } else if e in FlatMap(FeeAmountRule(run, st, recs), Filter(p, ps)) {
        ExaminedFrom(FeeAmountRule(run, st, recs), p, ps, e);
      } else {
        AllocationExamined(run, st, recs, MovementRef(CaptureMovement, k.id), e);
      }
    case RefundType =>
      var p, rs := KeyIs(RefundIdOf, k.id), SuccessfulRefunds(recs);
      if e in FlatMap(RefundLinkRule(run, st, recs), Filter(p, rs)) {
        ExaminedFrom(RefundLinkRule(run, st, recs), p, rs, e);
      } else {
        AllocationExamined(run, st, recs, MovementRef(RefundMovement, k.id), e);
      }
    case FeeType =>
      if e in FlatMap(FeeLinkRule(run, st, recs), Filter(KeyIs(FeeId, k.id), recs.fees)) {
        ExaminedFrom(FeeLinkRule(run, st, recs), KeyIs(FeeId, k.id), recs.fees, e);
      } else {
        AllocationExamined(run, st, recs, MovementRef(FeeMovement, k.id), e);
      }
    case PayoutType => ExaminedFrom(PayoutRule(run, st, recs), KeyIs(PayoutId, k.id), recs.payouts, e);
    case SettlementLineType =>
  }

  // ---- The claim ----

  function RowKey(t: TransactionRow): Key { [S(t.orderId)] }

  function PayoutRowKey(p: PayoutRow): Key { [N(p.payoutDate), S(p.payoutId)] }

  lemma AcceptedDatable(recs: Records)
    requires RecordRejection(recs).None?
    ensures Datable(recs)
  {
  }

  lemma SuccessDatable(run: Run, records: seq<FinancialRecord>, conflicts: seq<Conflict>,
                       completeness: seq<CompletenessResult>)
    requires ResultFor(run, records, conflicts, completeness).Success?
    ensures Datable(Split(records))
  {
    AcceptedDatable(Split(records));
  }

  lemma ResultSections(run: Run, records: seq<FinancialRecord>, conflicts: seq<Conflict>,
                       completeness: seq<CompletenessResult>)
    requires ResultFor(run, records, conflicts, completeness).Success?
    ensures var r := ResultFor(run, records, conflicts, completeness).value;
      var st := StatesOf(Sort(StatusKey, completeness));
      r.transactions == Transactions(run, st, Split(records)) && r.movements == Movements(Split(records)) &&
      r.payouts == PayoutRows(run, st, Split(records))
  {
  }

  /** Frame: outside a window plan every row, every movement and every raised exception is identical. */
  lemma OutsidePlanUnchanged(run: Run, before: seq<FinancialRecord>, after: seq<FinancialRecord>,
                             changed: seq<FinancialRecord>, plan: AW.Plan,
                             oldConflicts: seq<Conflict>, newConflicts: seq<Conflict>,
                             completeness: seq<CompletenessResult>)
    requires UniqueIdentities(before) && UniqueIdentities(after) && Named(before, after, changed)
    requires forall r :: (r in before) != (r in after) ==> r in changed
    requires AW.IsPlan(Evidence(before, after, changed), AW.Seeds(Map(AW.FactOf, changed)), plan) &&
      plan.scope == AW.ScopeWindows
    requires ResultFor(run, before, oldConflicts, completeness).Success? &&
      ResultFor(run, after, newConflicts, completeness).Success?
    ensures var o, n := ResultFor(run, before, oldConflicts, completeness).value,
      ResultFor(run, after, newConflicts, completeness).value;
      Filter(TransactionOutside(plan.orderIds), o.transactions)
      == Filter(TransactionOutside(plan.orderIds), n.transactions) &&
      Filter(PayoutOutside(plan.payoutIds), o.payouts) == Filter(PayoutOutside(plan.payoutIds), n.payouts) &&
      Filter(MovementOutside(plan.payoutDates), o.movements) == Filter(MovementOutside(plan.payoutDates), n.movements)
    ensures var st := StatesOf(Sort(StatusKey, completeness));
      forall k :: k !in plan.sourceKeys ==> RaisedBy(run, st, Split(before), k) == RaisedBy(run, st, Split(after), k)
  {
    var keys, days := set k | k in plan.sourceKeys, set d | d in plan.payoutDates;
    var b, a, st := Split(before), Split(after), StatesOf(Sort(StatusKey, completeness));
    WindowPlanFrames(before, after, changed, plan);
    SuccessDatable(run, before, oldConflicts, completeness);
    SuccessDatable(run, after, newConflicts, completeness);
    ResultSections(run, before, oldConflicts, completeness);
    ResultSections(run, after, newConflicts, completeness);
    PlanKeys(Evidence(before, after, changed), AW.Seeds(Map(AW.FactOf, changed)), plan);
    SameTransactions(b, a, keys, days, run, st, plan.orderIds);
    SamePayouts(b, a, keys, days, run, st, plan.payoutIds);
    SameMovementsOffDays(b, a, keys, days);
    FilterAgree(OffDays(days), MovementOutside(plan.payoutDates), Movements(b));
    FilterAgree(OffDays(days), MovementOutside(plan.payoutDates), Movements(a));
    forall k | k !in plan.sourceKeys
      ensures RaisedBy(run, st, b, k) == RaisedBy(run, st, a, k)
    {
      SameRaised(b, a, keys, days, run, st, k);
    }
  }

  lemma PlanKeys(facts: set<AW.Fact>, seeds: set<RecordKey>, plan: AW.Plan)
    requires AW.IsPlan(facts, seeds, plan)
    ensures forall id :: id in plan.orderIds <==> RecordKey(OrderType, id) in set k | k in plan.sourceKeys
    ensures forall id :: id in plan.payoutIds <==> RecordKey(PayoutType, id) in set k | k in plan.sourceKeys
  {
  }

  lemma ResultOrdered(run: Run, st: ReportStates, recs: Records)
    requires Ordered(recs)
    ensures Sorted(RowKey, Transactions(run, st, recs)) && Sorted(PayoutRowKey, PayoutRows(run, st, recs))
    ensures Sorted(MovementKey, Movements(recs))
  {
    SortSorted(MovementKey,
               FlatMap(MovementsOfCapture(recs), CapturedPayments(recs))
               + Map(RefundMovementOf, SuccessfulRefunds(recs)));
    var ts, ps := Transactions(run, st, recs), PayoutRows(run, st, recs);
    forall i, j | 0 <= i < j < |ts|
      ensures !KeyLess(RowKey(ts[j]), RowKey(ts[i]))
    {
      TransactionRuleId(run, st, recs, recs.orders[i]);
      TransactionRuleId(run, st, recs, recs.orders[j]);
      KeyLessOrder(OrderKey(recs.orders[i]), OrderKey(recs.orders[j]), OrderKey(recs.orders[i]));
    }
    forall i, j | 0 <= i < j < |ps|
      ensures !KeyLess(PayoutRowKey(ps[j]), PayoutRowKey(ps[i]))
    {
      PayoutRowRuleId(run, st, recs, recs.payouts[i]);
      PayoutRowRuleId(run, st, recs, recs.payouts[j]);
      KeyLessOrder(PayoutKey(recs.payouts[i]), PayoutKey(recs.payouts[j]), PayoutKey(recs.payouts[i]));
    }
  }
}
