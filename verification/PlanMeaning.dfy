/** What a recovery plan says, on the attributes of the records: how far it reaches, why it gives up on windows,
    and what it lists. */
module PlanMeaning {
  import opened Sequences
  import opened Contracts
  import opened AffectedWindows

  /** `f` holds the id of the record `k`. */
  predicate RefersTo(f: Fact, k: RecordKey) {
    k.id != "" &&
    ((f.kind == PaymentType && k.kind == OrderType && f.orderId == Some(k.id)) ||
     (f.kind == RefundType && k.kind == PaymentType && f.paymentId == Some(k.id)) ||
     (f.kind == FeeType && k.kind == PaymentType && f.paymentId == Some(k.id)) ||
     (f.kind == SettlementLineType && k.kind == PayoutType && f.payoutId == Some(k.id)) ||
     (f.kind == SettlementLineType && f.movementId == Some(k.id) &&
      ((f.movement == Some(CaptureMovement) && k.kind == PaymentType) ||
       (f.movement == Some(RefundMovement) && k.kind == RefundType) ||
       (f.movement == Some(FeeMovement) && k.kind == FeeType))))
  }

  /** `f` moves money, or is paid out, on day `d`; fees only follow their payment. */
  predicate OnDay(f: Fact, d: int) {
    ((f.kind == PaymentType || f.kind == RefundType) && f.availableOn == Some(d)) ||
    (f.kind == PayoutType && f.payoutDate == Some(d))
  }

  ghost predicate Has(facts: seq<Fact>, k: RecordKey) {
    exists f :: f in facts && f.kind == k.kind && f.id == k.id
  }

  /** A record in `keys` brings in every record it names, every record naming it and every record on its day. */
  ghost predicate Spread(facts: seq<Fact>, keys: set<RecordKey>) {
    (forall f, k :: f in facts && RefersTo(f, k) ==> (RecordKey(f.kind, f.id) in keys <==> k in keys)) &&
    (forall f, g, d :: f in facts && g in facts && OnDay(f, d) && OnDay(g, d) ==>
       (RecordKey(f.kind, f.id) in keys ==> RecordKey(g.kind, g.id) in keys))
  }

  /** Every set that holds the changed records and spreads holds `k`. */
  ghost predicate Touched(facts: seq<Fact>, changed: seq<Fact>, k: RecordKey) {
    forall keys: set<RecordKey> ::
      (forall f :: f in changed ==> RecordKey(f.kind, f.id) in keys) && Spread(facts, keys) ==> k in keys
  }

  lemma ParentsRead(f: Fact, k: RecordKey)
    ensures k in Parents(f) <==> RefersTo(f, k)
  {
  }

  lemma DayRead(f: Fact, d: int)
    ensures FactDay(f) == Some(d) <==> OnDay(f, d)
  {
  }

  lemma SpreadIsClosed(facts: seq<Fact>, keys: set<RecordKey>)
    ensures Spread(facts, keys) <==> Closed(FactSet(facts), keys)
  {
    if Spread(facts, keys) {
      SpreadCloses(facts, keys);
    }
    if Closed(FactSet(facts), keys) {
      ClosedSpreads(facts, keys);
    }
  }

  lemma SpreadCloses(facts: seq<Fact>, keys: set<RecordKey>)
    requires Spread(facts, keys)
    ensures Closed(FactSet(facts), keys)
  {
    forall a, b | a in keys && Linked(FactSet(facts), a, b)
      ensures b in keys
    {
      var f :| f in FactSet(facts) && ((FactKey(f) == a && b in Parents(f)) || (FactKey(f) == b && a in Parents(f)));
      ParentsRead(f, a);
      ParentsRead(f, b);
    }
    forall a, b, d | a in keys && Dated(FactSet(facts), a, d) && Dated(FactSet(facts), b, d)
      ensures b in keys
    {
      var f :| f in FactSet(facts) && FactKey(f) == a && FactDay(f) == Some(d);
      var g :| g in FactSet(facts) && FactKey(g) == b && FactDay(g) == Some(d);
      DayRead(f, d);
      DayRead(g, d);
    }
  }

  lemma ClosedSpreads(facts: seq<Fact>, keys: set<RecordKey>)
    requires Closed(FactSet(facts), keys)
    ensures Spread(facts, keys)
  {
    forall f, k | f in facts && RefersTo(f, k)
      ensures RecordKey(f.kind, f.id) in keys <==> k in keys
    {
      ParentsRead(f, k);
      assert Linked(FactSet(facts), FactKey(f), k) && Linked(FactSet(facts), k, FactKey(f));
    }
    forall f, g, d | f in facts && g in facts && OnDay(f, d) && OnDay(g, d)
      ensures RecordKey(f.kind, f.id) in keys ==> RecordKey(g.kind, g.id) in keys
    {
      DayRead(f, d);
      DayRead(g, d);
      assert Dated(FactSet(facts), FactKey(f), d) && Dated(FactSet(facts), FactKey(g), d);
    }
  }

  lemma ReachRead(facts: seq<Fact>, changed: seq<Fact>, k: RecordKey)
    ensures k in Reach(FactSet(facts), Seeds(changed)) <==> Touched(facts, changed, k)
  {
    ReachIsLeastClosed(FactSet(facts), Seeds(changed));
    var reach := Reach(FactSet(facts), Seeds(changed));
    SpreadIsClosed(facts, reach);
    forall f | f in changed
      ensures RecordKey(f.kind, f.id) in reach
    {
      assert FactKey(f) in Seeds(changed);
    }
    if k in reach {
      forall keys: set<RecordKey> | (forall f :: f in changed ==> RecordKey(f.kind, f.id) in keys) &&
        Spread(facts, keys)
        ensures k in keys
      {
        SpreadIsClosed(facts, keys);
        assert Seeds(changed) <= keys;
      }
    }
  }

  /** How far a plan reaches: it lists the records that every spreading set around the changed ones holds, their
      orders, their payouts and the days they fall on, each once and in ascending order. */
  lemma PlanReaches(facts: seq<Fact>, changed: seq<Fact>, p: Plan)
    requires IsPlan(FactSet(facts), Seeds(changed), p)
    ensures forall k :: k in p.sourceKeys <==> Touched(facts, changed, k)
    ensures forall id :: id in p.orderIds <==> RecordKey(OrderType, id) in p.sourceKeys
    ensures forall id :: id in p.payoutIds <==> RecordKey(PayoutType, id) in p.sourceKeys
    ensures forall d :: d in p.payoutDates <==>
      exists f :: f in facts && RecordKey(f.kind, f.id) in p.sourceKeys && OnDay(f, d)
  {
    forall k
      ensures k in p.sourceKeys <==> Touched(facts, changed, k)
    {
      ReachRead(facts, changed, k);
    }
    forall d
      ensures d in p.payoutDates <==>
        exists f :: f in facts && RecordKey(f.kind, f.id) in p.sourceKeys && OnDay(f, d)
    {
      forall f | f in facts
        ensures FactDay(f) == Some(d) <==> OnDay(f, d)
      {
        DayRead(f, d);
      }
      if d in p.payoutDates {
        var f :| f in FactSet(facts) && FactKey(f) in Reach(FactSet(facts), Seeds(changed)) && FactDay(f) == Some(d);
        assert RecordKey(f.kind, f.id) in p.sourceKeys;
      }
    }
  }

  /** A window runs from a day the plan falls on while each next day is one too, and stops before the first that is
      not; windows are ordered and never touch. */
  lemma PlanWindows(facts: seq<Fact>, changed: seq<Fact>, p: Plan)
    requires IsPlan(FactSet(facts), Seeds(changed), p)
    ensures forall d :: d in p.payoutDates <==>
      exists i :: 0 <= i < |p.windows| && p.windows[i].start <= d < p.windows[i].end
    ensures forall i :: 0 <= i < |p.windows| ==> p.windows[i].start < p.windows[i].end
    ensures forall i, j :: 0 <= i < j < |p.windows| ==> p.windows[i].end < p.windows[j].start
    ensures forall i, j :: 0 <= i < j < |p.payoutDates| ==> p.payoutDates[i] < p.payoutDates[j]
    ensures forall i, j :: 0 <= i < j < |p.orderIds| ==> StringLess(p.orderIds[i], p.orderIds[j])
    ensures forall i, j :: 0 <= i < j < |p.payoutIds| ==> StringLess(p.payoutIds[i], p.payoutIds[j])
  {
    IntKeyOrder(p.payoutDates);
    StringKeyOrder(p.orderIds);
    StringKeyOrder(p.payoutIds);
    forall d
      ensures d in p.payoutDates <==>
        exists i :: 0 <= i < |p.windows| && p.windows[i].start <= d < p.windows[i].end
    {
      assert d in p.payoutDates <==> Covered(p.windows, d);
    }
  }

  // ---- Why a plan gives up on windows ----

  predicate NoId(id: Option<string>) { id == None || id == Some("") }

  /** The record `f` lacks an id it should hold. */
  predicate LacksId(f: Fact) {
    (f.kind == PaymentType && NoId(f.orderId)) || (f.kind == RefundType && NoId(f.paymentId)) ||
    (f.kind == FeeType && NoId(f.paymentId)) || (f.kind == SettlementLineType && NoId(f.payoutId)) ||
    (f.kind == SettlementLineType && f.movement.Some? && NoId(f.movementId))
  }

  lemma IssuesRead(f: Fact)
    ensures MissingRelationshipId in Issues(f) <==> LacksId(f)
    ensures CaptureDateUnresolved in Issues(f) <==> f.kind == PaymentType && f.effective && f.availableOn == None
    ensures RefundDateUnresolved in Issues(f) <==> f.kind == RefundType && f.effective && f.availableOn == None
    ensures MovementTypeUnresolved in Issues(f) <==> f.kind == SettlementLineType && f.movement == None
    ensures PayoutDateUnresolved in Issues(f) <==> f.kind == PayoutType && f.payoutDate == None
    ensures forall r :: r in Issues(f) ==>
      r in {MissingRelationshipId, CaptureDateUnresolved, RefundDateUnresolved, MovementTypeUnresolved,
            PayoutDateUnresolved}
  {
  }

  /** Some record of the plan raises `r`. */
  ghost predicate RaisedBy(facts: seq<Fact>, p: Plan, r: Reason) {
    exists f :: f in facts && RecordKey(f.kind, f.id) in p.sourceKeys && r in Issues(f)
  }

  /** The reasons are those that records raise, and the records that nothing describes. */
  ghost predicate GivesReasons(facts: seq<Fact>, p: Plan) {
    forall r :: r in p.reasons <==>
      RaisedBy(facts, p, r) || (r.RelatedRecordMissing? && r.key in p.sourceKeys && !Has(facts, r.key))
  }

  lemma ReasonsRead(facts: seq<Fact>, changed: seq<Fact>, p: Plan)
    requires IsPlan(FactSet(facts), Seeds(changed), p)
    ensures GivesReasons(facts, p)
  {
    forall k
      ensures Known(FactSet(facts), k) <==> Has(facts, k)
    {
      if Has(facts, k) {
        var f :| f in facts && f.kind == k.kind && f.id == k.id;
        assert f in FactSet(facts) && FactKey(f) == k;
      }
    }
    forall r
      ensures r in p.reasons <==>
        RaisedBy(facts, p, r) || (r.RelatedRecordMissing? && r.key in p.sourceKeys && !Has(facts, r.key))
    {
      if RaisedBy(facts, p, r) {
        var f :| f in facts && RecordKey(f.kind, f.id) in p.sourceKeys && r in Issues(f);
        assert f in FactSet(facts) && FactKey(f) in Reach(FactSet(facts), Seeds(changed));
      }
    }
  }

  /** The plan reaches `f`, which is a `kind`. */
  ghost predicate Holds(facts: seq<Fact>, p: Plan, f: Fact, kind: EntityType) {
    f in facts && RecordKey(f.kind, f.id) in p.sourceKeys && f.kind == kind
  }

  lemma RaisedRead(facts: seq<Fact>, p: Plan)
    ensures RaisedBy(facts, p, CaptureDateUnresolved) <==>
      exists f :: Holds(facts, p, f, PaymentType) && f.effective && f.availableOn == None
    ensures RaisedBy(facts, p, RefundDateUnresolved) <==>
      exists f :: Holds(facts, p, f, RefundType) && f.effective && f.availableOn == None
    ensures RaisedBy(facts, p, MovementTypeUnresolved) <==>
      exists f :: Holds(facts, p, f, SettlementLineType) && f.movement == None
    ensures RaisedBy(facts, p, PayoutDateUnresolved) <==>
      exists f :: Holds(facts, p, f, PayoutType) && f.payoutDate == None
    ensures RaisedBy(facts, p, MissingRelationshipId) <==>
      exists f: Fact :: Holds(facts, p, f, f.kind) && LacksId(f)
  {
    forall f, r | r in Issues(f)
      ensures (r == CaptureDateUnresolved ==> f.kind == PaymentType && f.effective && f.availableOn == None) &&
        (r == RefundDateUnresolved ==> f.kind == RefundType && f.effective && f.availableOn == None) &&
        (r == MovementTypeUnresolved ==> f.kind == SettlementLineType && f.movement == None) &&
        (r == PayoutDateUnresolved ==> f.kind == PayoutType && f.payoutDate == None) &&
        (r == MissingRelationshipId ==> LacksId(f))
    {
      IssuesRead(f);
    }
    forall f: Fact
      ensures LacksId(f) ==> MissingRelationshipId in Issues(f)
      ensures f.kind == PaymentType && f.effective && f.availableOn == None ==> CaptureDateUnresolved in Issues(f)
      ensures f.kind == RefundType && f.effective && f.availableOn == None ==> RefundDateUnresolved in Issues(f)
      ensures f.kind == SettlementLineType && f.movement == None ==> MovementTypeUnresolved in Issues(f)
      ensures f.kind == PayoutType && f.payoutDate == None ==> PayoutDateUnresolved in Issues(f)
    {
      IssuesRead(f);
    }
  }

  /** Each reason, and when a plan gives it. */
  lemma PlanReasons(facts: seq<Fact>, changed: seq<Fact>, p: Plan)
    requires IsPlan(FactSet(facts), Seeds(changed), p)
    ensures CaptureDateUnresolved in p.reasons <==>
      exists f :: Holds(facts, p, f, PaymentType) && f.effective && f.availableOn == None
    ensures RefundDateUnresolved in p.reasons <==>
      exists f :: Holds(facts, p, f, RefundType) && f.effective && f.availableOn == None
    ensures MovementTypeUnresolved in p.reasons <==>
      exists f :: Holds(facts, p, f, SettlementLineType) && f.movement == None
    ensures PayoutDateUnresolved in p.reasons <==>
      exists f :: Holds(facts, p, f, PayoutType) && f.payoutDate == None
    ensures MissingRelationshipId in p.reasons <==> exists f: Fact :: Holds(facts, p, f, f.kind) && LacksId(f)
    ensures forall k :: RelatedRecordMissing(k) in p.reasons <==> k in p.sourceKeys && !Has(facts, k)
    ensures ReportCompletenessChanged !in p.reasons && ChangeEvidenceMissing !in p.reasons
  {
    ReasonsRead(facts, changed, p);
    RaisedRead(facts, p);
    MissingRead(facts, p);
    ReasonsByName(facts, p);
  }

  lemma MissingRead(facts: seq<Fact>, p: Plan)
    ensures forall k :: !RaisedBy(facts, p, RelatedRecordMissing(k))
    ensures !RaisedBy(facts, p, ReportCompletenessChanged) && !RaisedBy(facts, p, ChangeEvidenceMissing)
  {
    forall f
      ensures forall k :: RelatedRecordMissing(k) !in Issues(f)
      ensures ReportCompletenessChanged !in Issues(f) && ChangeEvidenceMissing !in Issues(f)
    {
      IssuesRead(f);
    }
  }

  lemma ReasonsByName(facts: seq<Fact>, p: Plan)
    requires GivesReasons(facts, p)
    ensures forall k :: RelatedRecordMissing(k) in p.reasons <==>
      RaisedBy(facts, p, RelatedRecordMissing(k)) || (k in p.sourceKeys && !Has(facts, k))
    ensures forall r: Reason :: !r.RelatedRecordMissing? ==> (r in p.reasons <==> RaisedBy(facts, p, r))
  {
  }

  /** The record `f` says all the planner needs. */
  predicate Sound(f: Fact) {
    match f.kind
    case OrderType => true
    case PaymentType => !NoId(f.orderId) && (f.effective ==> f.availableOn.Some?)
    case RefundType => !NoId(f.paymentId) && (f.effective ==> f.availableOn.Some?)
    case FeeType => !NoId(f.paymentId)
    case SettlementLineType => !NoId(f.payoutId) && f.movement.Some? && !NoId(f.movementId)
    case PayoutType => f.payoutDate.Some?
  }

  lemma SoundRead(f: Fact)
    ensures Sound(f) <==> forall r :: r !in Issues(f)
  {
    IssuesRead(f);
    if MissingRelationshipId !in Issues(f) && CaptureDateUnresolved !in Issues(f) &&
      RefundDateUnresolved !in Issues(f) && MovementTypeUnresolved !in Issues(f) && PayoutDateUnresolved !in Issues(f) {
      assert Sound(f);
    }
  }

  ghost predicate AllSound(facts: seq<Fact>, p: Plan) {
    forall f :: f in facts && RecordKey(f.kind, f.id) in p.sourceKeys ==> Sound(f)
  }

  lemma AllSoundRead(facts: seq<Fact>, p: Plan)
    ensures AllSound(facts, p) <==> forall r :: !RaisedBy(facts, p, r)
  {
    forall f
      ensures Sound(f) <==> forall r :: r !in Issues(f)
    {
      SoundRead(f);
    }
    if forall r :: !RaisedBy(facts, p, r) {
      forall f, r | f in facts && RecordKey(f.kind, f.id) in p.sourceKeys
        ensures r !in Issues(f)
      {
        assert !RaisedBy(facts, p, r);
      }
    }
  }

  /** The windows are trusted exactly when every record reached is known and says all the planner needs; otherwise
      everything is rebuilt. */
  lemma PlanScope(facts: seq<Fact>, changed: seq<Fact>, p: Plan)
    requires IsPlan(FactSet(facts), Seeds(changed), p)
    ensures p.scope == ScopeWindows <==> AllSound(facts, p) && forall k :: k in p.sourceKeys ==> Has(facts, k)
    ensures p.scope == ScopeWindows || p.scope == ScopeFull
  {
    ReasonsRead(facts, changed, p);
    AllSoundRead(facts, p);
    forall k
      ensures RelatedRecordMissing(k) in p.reasons <==> k in p.sourceKeys && !Has(facts, k)
    {
      PlanReasons(facts, changed, p);
    }
    assert p.scope == ScopeWindows <==> forall r :: r !in p.reasons;
  }

  // ---- Plans over whole records ----

  /** The id `x` names a record of kind `kind` that `k` is. */
  predicate Names(x: string, kind: EntityType, k: RecordKey) { x != "" && k == RecordKey(kind, x) }

  /** What a whole record ties together: a payment and its order, a refund or fee and its payment, a settlement line
      and both its payout and the record of its movement. */
  lemma RecordRefers(r: FinancialRecord, k: RecordKey)
    ensures RefersTo(FactOf(r), k) <==>
      match r
      case OrderRecord(_) => false
      case PaymentRecord(p) => Names(p.orderId, OrderType, k)
      case RefundRecord(f) => Names(f.paymentId, PaymentType, k)
      case FeeRecord(f) => Names(f.paymentId, PaymentType, k)
      case LineRecord(l) => Names(l.payoutId, PayoutType, k) ||
        Names(l.movementId, if l.kind == CaptureMovement then PaymentType else if l.kind == RefundMovement
              then RefundType
                            else FeeType, k)
      case PayoutRecord(_) => false
    ensures RecordKey(FactOf(r).kind, FactOf(r).id) == KeyOf(r)
  {
  }

  /** The days a whole record moves money on. */
  lemma RecordOnDay(r: FinancialRecord, d: int)
    ensures OnDay(FactOf(r), d) <==>
      (r.PaymentRecord? && r.payment.availableOn == Some(d)) || (r.RefundRecord? && r.refund.availableOn == Some(d)) ||
      (r.PayoutRecord? && r.payout.payoutDate == d)
  {
  }

  lemma RecordSound(r: FinancialRecord)
    ensures Sound(FactOf(r)) <==>
      match r
      case OrderRecord(_) => true
      case PaymentRecord(p) => p.orderId != "" && (p.status == Captured ==> p.availableOn.Some?)
      case RefundRecord(f) => f.paymentId != "" && (f.status == Succeeded ==> f.availableOn.Some?)
      case FeeRecord(f) => f.paymentId != ""
      case LineRecord(l) => l.payoutId != "" && l.movementId != ""
      case PayoutRecord(_) => true
  {
  }

  ghost predicate UndatedCapture(rs: seq<FinancialRecord>, p: Plan, x: Payment) {
    PaymentRecord(x) in rs && RecordKey(PaymentType, x.paymentId) in p.sourceKeys && x.status == Captured &&
    x.availableOn == None
  }

  ghost predicate UndatedRefund(rs: seq<FinancialRecord>, p: Plan, x: Refund) {
    RefundRecord(x) in rs && RecordKey(RefundType, x.refundId) in p.sourceKeys && x.status == Succeeded &&
    x.availableOn == None
  }

  /** Over whole records, the reason for a missing capture date is a captured payment without one; a failed payment
      is no reason. Likewise for refunds. */
  lemma RecordDates(rs: seq<FinancialRecord>, changed: seq<Fact>, p: Plan)
    requires IsPlan(FactSet(Map(FactOf, rs)), Seeds(changed), p)
    ensures CaptureDateUnresolved in p.reasons <==> exists x :: UndatedCapture(rs, p, x)
    ensures RefundDateUnresolved in p.reasons <==> exists x :: UndatedRefund(rs, p, x)
  {
    var facts := Map(FactOf, rs);
    PlanReasons(facts, changed, p);
    CaptureDates(rs, p);
    RefundDates(rs, p);
  }

  lemma CaptureDates(rs: seq<FinancialRecord>, p: Plan)
    ensures (exists f :: Holds(Map(FactOf, rs), p, f, PaymentType) && f.effective && f.availableOn == None) <==>
      exists x :: UndatedCapture(rs, p, x)
  {
    var facts := Map(FactOf, rs);
    if f :| Holds(facts, p, f, PaymentType) && f.effective && f.availableOn == None {
      var i :| 0 <= i < |rs| && facts[i] == f;
      assert f == FactOf(rs[i]) && UndatedCapture(rs, p, rs[i].payment);
    }
    if x :| UndatedCapture(rs, p, x) {
      var i :| 0 <= i < |rs| && rs[i] == PaymentRecord(x);
      assert facts[i] == FactOf(PaymentRecord(x));
      assert Holds(facts, p, facts[i], PaymentType) && facts[i].effective && facts[i].availableOn == None;
    }
  }

  lemma RefundDates(rs: seq<FinancialRecord>, p: Plan)
    ensures (exists f :: Holds(Map(FactOf, rs), p, f, RefundType) && f.effective && f.availableOn == None) <==>
      exists x :: UndatedRefund(rs, p, x)
  {
    var facts := Map(FactOf, rs);
    if f :| Holds(facts, p, f, RefundType) && f.effective && f.availableOn == None {
      var i :| 0 <= i < |rs| && facts[i] == f;
      assert f == FactOf(rs[i]) && UndatedRefund(rs, p, rs[i].refund);
    }
    if x :| UndatedRefund(rs, p, x) {
      var i :| 0 <= i < |rs| && rs[i] == RefundRecord(x);
      assert facts[i] == FactOf(RefundRecord(x));
      assert Holds(facts, p, facts[i], RefundType) && facts[i].effective && facts[i].availableOn == None;
    }
  }

  /** Over records that validation accepts, the plan gives up on windows only when it reaches an id that no record
      bears. */
  lemma ValidPlanScope(rs: seq<FinancialRecord>, changed: seq<Fact>, p: Plan)
    requires IsPlan(FactSet(Map(FactOf, rs)), Seeds(changed), p)
    requires forall r :: r in rs ==> ValidRecord(r)
    ensures p.scope == ScopeWindows <==> forall k :: k in p.sourceKeys ==> exists r :: r in rs && KeyOf(r) == k
  {
    var facts := Map(FactOf, rs);
    PlanScope(facts, changed, p);
    forall f | f in facts
      ensures Sound(f)
    {
      var i :| 0 <= i < |facts| && facts[i] == f;
      assert f == FactOf(rs[i]) && rs[i] in rs;
      RecordSound(rs[i]);
    }
    forall k
      ensures Has(facts, k) <==> exists r :: r in rs && KeyOf(r) == k
    {
      RecordKnown(rs, k);
    }
  }

  lemma RecordKnown(rs: seq<FinancialRecord>, k: RecordKey)
    ensures Has(Map(FactOf, rs), k) <==> exists r :: r in rs && KeyOf(r) == k
  {
    var facts := Map(FactOf, rs);
    if f :| f in facts && f.kind == k.kind && f.id == k.id {
      var i :| 0 <= i < |rs| && facts[i] == f;
      assert f == FactOf(rs[i]) && KeyOf(rs[i]) == k;
    }
    if r :| r in rs && KeyOf(r) == k {
      var i :| 0 <= i < |rs| && rs[i] == r;
      assert facts[i] == FactOf(r) && facts[i] in facts;
    }
  }

  // ---- The order of what a plan lists ----

  /** Keys are listed by the name of their kind (FEE, ORDER, PAYMENT, PAYOUT, REFUND, SETTLEMENT_LINE), then by id. */
  predicate ListedBefore(a: RecordKey, b: RecordKey) {
    (a.kind == b.kind && StringLess(a.id, b.id)) ||
    (a.kind == FeeType && b.kind != FeeType) ||
    (a.kind == OrderType && b.kind != FeeType && b.kind != OrderType) ||
    (a.kind == PaymentType && (b.kind == PayoutType || b.kind == RefundType || b.kind == SettlementLineType)) ||
    (a.kind == PayoutType && (b.kind == RefundType || b.kind == SettlementLineType)) ||
    (a.kind == RefundType && b.kind == SettlementLineType)
  }

  lemma PlanOrder(facts: seq<Fact>, changed: seq<Fact>, p: Plan)
    requires IsPlan(FactSet(facts), Seeds(changed), p)
    ensures forall i, j :: 0 <= i < j < |p.sourceKeys| ==> ListedBefore(p.sourceKeys[i], p.sourceKeys[j])
  {
    forall i, j | 0 <= i < j < |p.sourceKeys|
      ensures ListedBefore(p.sourceKeys[i], p.sourceKeys[j])
    {
      SourceKeyLess(p.sourceKeys[i], p.sourceKeys[j]);
    }
  }

  lemma SourceKeyLess(a: RecordKey, b: RecordKey)
    requires KeyLess(SourceKey(a), SourceKey(b))
    ensures ListedBefore(a, b)
  {
    var x, y := SourceKey(a), SourceKey(b);
    assert x[1..] == [S(a.id)] && y[1..] == [S(b.id)];
    assert KeyLess([S(a.id)], [S(b.id)]) ==> StringLess(a.id, b.id) by {
      assert [S(a.id)][1..] == [] && [S(b.id)][1..] == [];
      assert !KeyLess([], []);
    }
  }
}
