/** Expected movements and the exceptions about payouts, on the records, with their amounts and evidence written out. */
module PayoutMeaning {
  import opened Sequences
  import opened Contracts
  import opened Money
  import opened Rules
  import opened Ledger
  import opened Reconciliation
  import opened Exceptions
  import opened ResultMeaning
  import Publication
  import Incremental

  // ---- Expected movements ----

  /** Collection of a captured payment on the day it becomes available. */
  ghost predicate Collects(rs: seq<FinancialRecord>, p: Payment, m: ExpectedMovement) {
    PaymentRecord(p) in rs && p.status == Captured && p.availableOn.Some? &&
    m == ExpectedMovement(CaptureMovement, p.paymentId, p.availableOn.value, p.amount, [Ref(PaymentType, p.paymentId)])
  }

  /** Its scheduled fee on the same day, named after the only reported fee if there is exactly one. */
  ghost predicate ChargesFee(rs: seq<FinancialRecord>, p: Payment, m: ExpectedMovement) {
    PaymentRecord(p) in rs && p.status == Captured && p.availableOn == Some(m.availableOn) && m.kind == FeeMovement &&
    m.amount == -FeeDue(p) && FeeNamed(rs, p.paymentId, m.id) && m.support != [] &&
    |m.support| == 1 + Count(FeesFor(p.paymentId), rs) &&
    m.support[0] == Ref(PaymentType, p.paymentId) &&
    (set x | x in m.support[1..]) == Cited(FeesFor(p.paymentId), rs)
  }

  ghost predicate FeeNamed(rs: seq<FinancialRecord>, paymentId: string, id: string) {
    if Count(FeesFor(paymentId), rs) == 1 then exists f ::
      FeeRecord(f) in rs && f.paymentId == paymentId && f.feeId == id
    else id == "expected-fee:" + paymentId
  }

  /** Repayment of a successful refund on the day it becomes available. */
  ghost predicate Repays(rs: seq<FinancialRecord>, f: Refund, m: ExpectedMovement) {
    RefundRecord(f) in rs && f.status == Succeeded && f.availableOn.Some? &&
    m == ExpectedMovement(RefundMovement, f.refundId, f.availableOn.value, -f.amount, [Ref(RefundType, f.refundId)])
  }

  ghost predicate AcceptedLedger(rs: seq<FinancialRecord>) { RecordRejection(Split(rs)).None? }

  lemma OnlyFee(rs: seq<FinancialRecord>, paymentId: string, f: Fee, id: string)
    requires FeesOf(Split(rs), paymentId) == [f]
    ensures f.feeId == id <==> exists g :: FeeRecord(g) in rs && g.paymentId == paymentId && g.feeId == id
  {
    FeesSeen(rs, paymentId);
    assert forall g :: g in [f] <==> FeeRecord(g) in rs && g.paymentId == paymentId;
  }

  lemma FeeNameSeen(rs: seq<FinancialRecord>, p: Payment, id: string)
    ensures Publication.FeeName(Split(rs), p) == id <==> FeeNamed(rs, p.paymentId, id)
  {
    Publication.FeeNameIs(Split(rs), p);
    FeesSeen(rs, p.paymentId);
    if |FeesOf(Split(rs), p.paymentId)| == 1 {
      var f := FeesOf(Split(rs), p.paymentId)[0];
      assert FeesOf(Split(rs), p.paymentId) == [f];
      OnlyFee(rs, p.paymentId, f, id);
    }
  }

  lemma FeeSupportSeen(rs: seq<FinancialRecord>, p: Payment)
    ensures var refs := Map(FeeRef, FeesOf(Split(rs), p.paymentId));
      |refs| == Count(FeesFor(p.paymentId), rs) && (set x | x in refs) == Cited(FeesFor(p.paymentId), rs)
  {
    FeesSeen(rs, p.paymentId);
    FeeRefsSeen(rs, p.paymentId);
    var fs := FeesOf(Split(rs), p.paymentId);
    forall x: Reference
      ensures x in Map(FeeRef, fs) <==> x in (set f | f in fs :: FeeRef(f))
    {
      MapMember(FeeRef, fs, x);
    }
  }

  /** The two movements of a capture, as its view builds them. */
  lemma CaptureMovementForms(rs: seq<FinancialRecord>, p: Payment, m: ExpectedMovement)
    requires p.availableOn.Some?
    ensures m in MovementsOfCapture(Split(rs))(p) <==>
      m == ExpectedMovement(CaptureMovement, p.paymentId, p.availableOn.value, p.amount,
                            [Ref(PaymentType, p.paymentId)])
      || m == FeeMovementFor(rs, p)
  {
    var v := ViewCapture(Split(rs))(p);
    assert MovementsOfCapture(Split(rs))(p) == CaptureMovements(v);
    assert v.payment == p && v.fees == FeesOf(Split(rs), p.paymentId);
    assert FeeMovementId(v) == Publication.FeeName(Split(rs), p) && CaptureExpectedFee(v) == PaymentFee(p);
    assert CaptureMovements(v)[1] == FeeMovementFor(rs, p);
    TwoElements(CaptureMovements(v), m);
  }

  lemma TwoElements<T>(s: seq<T>, x: T)
    requires |s| == 2
    ensures x in s <==> x == s[0] || x == s[1]
  {
  }

  function FeeMovementFor(rs: seq<FinancialRecord>, p: Payment): ExpectedMovement
    requires p.availableOn.Some?
  {
    ExpectedMovement(FeeMovement, Publication.FeeName(Split(rs), p), p.availableOn.value, -PaymentFee(p),
                     [Ref(PaymentType, p.paymentId)] + Map(FeeRef, FeesOf(Split(rs), p.paymentId)))
  }

  lemma FeeMovementCharges(rs: seq<FinancialRecord>, p: Payment)
    requires PaymentRecord(p) in rs && p.status == Captured && p.availableOn.Some? && FeeCalculable(p)
    ensures ChargesFee(rs, p, FeeMovementFor(rs, p))
  {
    var m := FeeMovementFor(rs, p);
    FeeSeen(p);
    FeeNameSeen(rs, p, m.id);
    FeeSupportSeen(rs, p);
    assert m.support[1..] == Map(FeeRef, FeesOf(Split(rs), p.paymentId));
  }

  lemma ChargesOneFee(rs: seq<FinancialRecord>, p: Payment, m: ExpectedMovement, n: ExpectedMovement)
    requires ChargesFee(rs, p, m) && ChargesFee(rs, p, n)
    ensures n == m.(support := n.support)
  {
    FeeNameSeen(rs, p, m.id);
    FeeNameSeen(rs, p, n.id);
  }

  lemma CaptureMovementsSeen(rs: seq<FinancialRecord>, p: Payment, m: ExpectedMovement)
    requires PaymentRecord(p) in rs && p.status == Captured && p.availableOn.Some? && FeeCalculable(p)
    ensures m in MovementsOfCapture(Split(rs))(p) ==> Collects(rs, p, m) || ChargesFee(rs, p, m)
    ensures Collects(rs, p, m) ==> m in MovementsOfCapture(Split(rs))(p)
    ensures ChargesFee(rs, p, m) ==>
      exists n :: n in MovementsOfCapture(Split(rs))(p) && n == m.(support := n.support) && ChargesFee(rs, p, n)
  {
    var fee := FeeMovementFor(rs, p);
    CaptureMovementForms(rs, p, m);
    CaptureMovementForms(rs, p, fee);
    FeeMovementCharges(rs, p);
    if ChargesFee(rs, p, m) {
      ChargesOneFee(rs, p, m, fee);
    }
  }

  /** Every captured payment and every successful refund gives its movements, and there are no others. */
  lemma MovementsInFull(rs: seq<FinancialRecord>, m: ExpectedMovement)
    requires AcceptedLedger(rs)
    ensures m in Movements(Split(rs)) ==>
      (exists p :: Collects(rs, p, m) || ChargesFee(rs, p, m)) || (exists f :: Repays(rs, f, m))
    ensures (exists p :: Collects(rs, p, m)) || (exists f :: Repays(rs, f, m)) ==> m in Movements(Split(rs))
    ensures (exists p :: ChargesFee(rs, p, m)) ==>
      exists n :: n in Movements(Split(rs)) && n == m.(support := n.support)
  {
    var recs := Split(rs);
    if m in Movements(recs) {
      MovementOrigin(rs, m);
    }
    MovementRaw(recs, m);
    if p :| Collects(rs, p, m) {
      CapturedSeen(rs, p);
      AcceptedCapture(rs, p);
      CaptureMovementsSeen(rs, p, m);
    }
    if f :| Repays(rs, f, m) {
      SucceededSeen(rs, f);
    }
    if p :| ChargesFee(rs, p, m) {
      CapturedSeen(rs, p);
      AcceptedCapture(rs, p);
      CaptureMovementsSeen(rs, p, m);
      var n :| n in MovementsOfCapture(recs)(p) && n == m.(support := n.support) && ChargesFee(rs, p, n);
      MovementRaw(recs, n);
    }
  }

  lemma MovementRaw(recs: Records, m: ExpectedMovement)
    ensures m in Movements(recs) <==>
      (exists p :: p in CapturedPayments(recs) && m in MovementsOfCapture(recs)(p)) ||
      (exists f :: f in SuccessfulRefunds(recs) && RefundMovementOf(f) == m)
  {
    SortMembers(MovementKey,
                FlatMap(MovementsOfCapture(recs), CapturedPayments(recs))
                + Map(RefundMovementOf, SuccessfulRefunds(recs)));
    FlatMapMember(MovementsOfCapture(recs), CapturedPayments(recs), m);
    MapMember(RefundMovementOf, SuccessfulRefunds(recs), m);
  }

  lemma AcceptedCapture(rs: seq<FinancialRecord>, p: Payment)
    requires AcceptedLedger(rs) && p in CapturedPayments(Split(rs))
    ensures PaymentRecord(p) in rs && p.status == Captured && p.availableOn.Some? && FeeCalculable(p)
  {
    CapturedSeen(rs, p);
  }

  lemma AcceptedRefund(rs: seq<FinancialRecord>, f: Refund)
    requires AcceptedLedger(rs) && f in SuccessfulRefunds(Split(rs))
    ensures RefundRecord(f) in rs && f.status == Succeeded && f.availableOn.Some?
  {
    SucceededSeen(rs, f);
  }

  lemma MovementOrigin(rs: seq<FinancialRecord>, m: ExpectedMovement)
    requires AcceptedLedger(rs) && m in Movements(Split(rs))
    ensures (exists p :: Collects(rs, p, m) || ChargesFee(rs, p, m)) || (exists f :: Repays(rs, f, m))
  {
    MovementRaw(Split(rs), m);
    if p :| p in CapturedPayments(Split(rs)) && m in MovementsOfCapture(Split(rs))(p) {
      AcceptedCapture(rs, p);
      CaptureMovementsSeen(rs, p, m);
    } else {
      var f :| f in SuccessfulRefunds(Split(rs)) && RefundMovementOf(f) == m;
      AcceptedRefund(rs, f);
      assert Repays(rs, f, m);
    }
  }

  // ---- Exceptions about payouts ----

  function LinesBearing(payoutId: string, kind: MovementType, id: string): FinancialRecord -> bool {
    (r: FinancialRecord) => r.LineRecord? && r.line.payoutId == payoutId && r.line.kind == kind &&
    r.line.movementId == id
  }

  lemma BearersCounted(rs: seq<FinancialRecord>, payoutId: string, kind: MovementType, id: string)
    ensures |Filter(Bears(payoutId, kind, id), Split(rs).lines)| == Count(LinesBearing(payoutId, kind, id), rs)
  {
    LinesCounted(rs, Bears(payoutId, kind, id), LinesBearing(payoutId, kind, id));
  }

  lemma BearerSeen(rs: seq<FinancialRecord>, payoutId: string, kind: MovementType, id: string, l: SettlementLine)
    ensures l in Filter(Bears(payoutId, kind, id), Split(rs).lines) <==>
      LineRecord(l) in rs && l.payoutId == payoutId && l.kind == kind && l.movementId == id
  {
    FilterMember(Bears(payoutId, kind, id), Split(rs).lines, l);
    SplitContains(rs, LineRecord(l));
  }

  lemma CarriersSeen(rs: seq<FinancialRecord>, payoutId: string, m: ExpectedMovement)
    ensures var ls := Carriers(LinesOf(Split(rs), payoutId), m);
      |ls| == Count(LinesBearing(payoutId, m.kind, m.id), rs) &&
      forall l :: l in ls <==> LineRecord(l) in rs && l.payoutId == payoutId && l.kind == m.kind && l.movementId == m.id
  {
    CarriersFiltered(rs, payoutId, m);
    BearersCounted(rs, payoutId, m.kind, m.id);
    forall l: SettlementLine
      ensures l in Carriers(LinesOf(Split(rs), payoutId), m) <==>
        LineRecord(l) in rs && l.payoutId == payoutId && l.kind == m.kind && l.movementId == m.id
    {
      BearerSeen(rs, payoutId, m.kind, m.id, l);
    }
  }

  function Bears(payoutId: string, kind: MovementType, id: string): SettlementLine -> bool {
    (l: SettlementLine) => l.payoutId == payoutId && l.kind == kind && l.movementId == id
  }

  lemma CarriersFiltered(rs: seq<FinancialRecord>, payoutId: string, m: ExpectedMovement)
    ensures Carriers(LinesOf(Split(rs), payoutId), m) == Filter(Bears(payoutId, m.kind, m.id), Split(rs).lines)
  {
    FilterTwice(KeyIs(LineMovement, MovementName(m)), KeyIs(LinePayoutId, payoutId), Bears(payoutId, m.kind, m.id),
                Split(rs).lines);
  }

  lemma PayoutSeen(rs: seq<FinancialRecord>, p: Payout)
    ensures p in Split(rs).payouts <==> PayoutRecord(p) in rs
  {
    SplitContains(rs, PayoutRecord(p));
  }

  lemma DueSeen(rs: seq<FinancialRecord>, day: int, m: ExpectedMovement)
    ensures m in DueOn(Split(rs), day) <==> m in Movements(Split(rs)) && m.availableOn == day
  {
    FilterMember(KeyIs(MovementDay, day), Movements(Split(rs)), m);
    assert KeyIs(MovementDay, day)(m) == (MovementDay(m) == day);
  }

  /** What a line carrying the movement should amount to: the reported fee's amount when the movement is named after a
      fee record, and the movement's own otherwise. */
  ghost predicate LineDue(rs: seq<FinancialRecord>, m: ExpectedMovement, amount: int) {
    if m.kind == FeeMovement && exists f :: FeeRecord(f) in rs && f.feeId == m.id
    then exists f :: FeeRecord(f) in rs && f.feeId == m.id && amount == -f.amount
    else amount == m.amount
  }

  ghost predicate MissingLine(run: Run, rs: seq<FinancialRecord>, p: Payout, m: ExpectedMovement,
                              e: FinancialException) {
    PayoutRecord(p) in rs && m in Movements(Split(rs)) && m.availableOn == p.payoutDate &&
    (forall l :: LineRecord(l) in rs && l.payoutId == p.payoutId ==> l.kind != m.kind || l.movementId != m.id) &&
    e == Shown(run, SettlementExpectedMovementExists, MissingSettlementLine, ExpectedMovementSubject(m.kind, m.id),
               Some(m.amount), Some(0), set x | x in m.support)
  }

  ghost predicate WrongLine(run: Run, rs: seq<FinancialRecord>, p: Payout, m: ExpectedMovement, l: SettlementLine,
                            due: int,
                            e: FinancialException) {
    PayoutRecord(p) in rs && m in Movements(Split(rs)) && m.availableOn == p.payoutDate &&
    LineRecord(l) in rs && l.payoutId == p.payoutId && l.kind == m.kind && l.movementId == m.id &&
    Count(LinesBearing(p.payoutId, m.kind, m.id), rs) == 1 && LineDue(rs, m, due) && l.signedAmount != due &&
    e == Shown(run, SettlementAmountMatchesReportedSource, SettlementLineAmountMismatch,
               Of(SettlementLineType, l.lineId),
               Some(due), Some(l.signedAmount), (set x | x in m.support) + {Ref(SettlementLineType, l.lineId)})
  }

  lemma FeeRecordSeen(rs: seq<FinancialRecord>, id: string)
    requires UniqueIdentities(rs)
    ensures var found := Lookup(FeeId, Split(rs).fees, id);
      (found.None? <==> forall f :: FeeRecord(f) in rs ==> f.feeId != id) &&
      (forall f :: FeeRecord(f) in rs && f.feeId == id <==> found == Some(f))
  {
    LookupMember(FeeId, Split(rs).fees, id);
    var found := Lookup(FeeId, Split(rs).fees, id);
    forall f: Fee
      ensures f in Split(rs).fees <==> FeeRecord(f) in rs
    {
      SplitContains(rs, FeeRecord(f));
    }
    forall f: Fee
      ensures FeeRecord(f) in rs && f.feeId == id <==> found == Some(f)
    {
      if FeeRecord(f) in rs && f.feeId == id {
        assert f in Split(rs).fees && FeeId(f) == id;
        SameFee(rs, f, found.value);
      }
    }
  }

  lemma LineDueSeen(rs: seq<FinancialRecord>, lines: seq<SettlementLine>, m: ExpectedMovement, amount: int)
    requires UniqueIdentities(rs) && Carriers(lines, m) != []
    ensures ExpectedLineAmount(ViewDue(Split(rs), lines)(m)) == amount <==> LineDue(rs, m, amount)
  {
    FeeRecordSeen(rs, m.id);
    var d := ViewDue(Split(rs), lines)(m);
    assert d.movement == m &&
      d.reportedFee == if m.kind == FeeMovement then Lookup(FeeId, Split(rs).fees, m.id) else None;
  }

  lemma DueExceptionForm(run: Run, lines: seq<SettlementLine>, d: DueView, e: FinancialException)
    ensures var ls, m := Carriers(lines, d.movement), d.movement;
      e in DueExceptions(run, lines, d) <==>
      (ls == [] && e == Shown(run, SettlementExpectedMovementExists, MissingSettlementLine,
                              ExpectedMovementSubject(m.kind, m.id), Some(m.amount), Some(0),
                              set x | x in m.support)) ||
      (|ls| == 1 && ls[0].signedAmount != ExpectedLineAmount(d) &&
       e == Shown(run, SettlementAmountMatchesReportedSource, SettlementLineAmountMismatch,
                  Of(SettlementLineType, ls[0].lineId), Some(ExpectedLineAmount(d)), Some(ls[0].signedAmount),
                  (set x | x in m.support) + {Ref(SettlementLineType, ls[0].lineId)}))
  {
  }

  ghost predicate SomeWrongLine(run: Run, rs: seq<FinancialRecord>, p: Payout, m: ExpectedMovement,
                                e: FinancialException) {
    exists l, due :: WrongLine(run, rs, p, m, l, due, e)
  }

  lemma MissingInView(run: Run, rs: seq<FinancialRecord>, p: Payout, m: ExpectedMovement, e: FinancialException)
    requires PayoutRecord(p) in rs && m in Movements(Split(rs)) && m.availableOn == p.payoutDate
    ensures MissingLine(run, rs, p, m, e) <==>
      Carriers(LinesOf(Split(rs), p.payoutId), m) == [] &&
      e == Shown(run, SettlementExpectedMovementExists, MissingSettlementLine, ExpectedMovementSubject(m.kind, m.id),
                 Some(m.amount), Some(0), set x | x in m.support)
  {
    CarriersSeen(rs, p.payoutId, m);
    var ls := Carriers(LinesOf(Split(rs), p.payoutId), m);
    assert ls != [] ==> ls[0] in ls;
  }

  lemma SoleBearer(rs: seq<FinancialRecord>, payoutId: string, m: ExpectedMovement, l: SettlementLine)
    ensures var ls := Carriers(LinesOf(Split(rs), payoutId), m);
      Count(LinesBearing(payoutId, m.kind, m.id), rs) == |ls| &&
      (|ls| == 1 ==> (l == ls[0] <==>
                      LineRecord(l) in rs && l.payoutId == payoutId && l.kind == m.kind && l.movementId == m.id))
  {
    var ls := Filter(Bears(payoutId, m.kind, m.id), Split(rs).lines);
    CarriersFiltered(rs, payoutId, m);
    BearersCounted(rs, payoutId, m.kind, m.id);
    BearerSeen(rs, payoutId, m.kind, m.id, l);
    assert |ls| == 1 ==> (l in ls <==> l == ls[0]);
  }

  lemma WrongInView(run: Run, rs: seq<FinancialRecord>, p: Payout, m: ExpectedMovement, l: SettlementLine, due: int,
                    e: FinancialException)
    requires UniqueIdentities(rs) && PayoutRecord(p) in rs && m in Movements(Split(rs)) && m.availableOn == p.payoutDate
    ensures var lines := LinesOf(Split(rs), p.payoutId);
      var d, ls := ViewDue(Split(rs), lines)(m), Carriers(lines, m);
      WrongLine(run, rs, p, m, l, due, e) <==>
        |ls| == 1 && l == ls[0] && due == ExpectedLineAmount(d) && l.signedAmount != due &&
        e == Shown(run, SettlementAmountMatchesReportedSource, SettlementLineAmountMismatch,
                   Of(SettlementLineType, l.lineId),
                   Some(due), Some(l.signedAmount), (set x | x in m.support) + {Ref(SettlementLineType, l.lineId)})
  {
    var lines := LinesOf(Split(rs), p.payoutId);
    SoleBearer(rs, p.payoutId, m, l);
    if |Carriers(lines, m)| == 1 {
      LineDueSeen(rs, lines, m, due);
    }
  }

  lemma DueInView(run: Run, rs: seq<FinancialRecord>, p: Payout, m: ExpectedMovement, e: FinancialException)
    requires UniqueIdentities(rs) && PayoutRecord(p) in rs && m in Movements(Split(rs)) && m.availableOn == p.payoutDate
    ensures var lines := LinesOf(Split(rs), p.payoutId);
      e in DueExceptions(run, lines, ViewDue(Split(rs), lines)(m)) <==>
      MissingLine(run, rs, p, m, e) || SomeWrongLine(run, rs, p, m, e)
  {
    var lines := LinesOf(Split(rs), p.payoutId);
    var ls, d := Carriers(lines, m), ViewDue(Split(rs), lines)(m);
    assert d.movement == m;
    DueExceptionForm(run, lines, d, e);
    MissingInView(run, rs, p, m, e);
    if l, due :| WrongLine(run, rs, p, m, l, due, e) {
      WrongInView(run, rs, p, m, l, due, e);
    }
    if |ls| == 1 {
      WrongInView(run, rs, p, m, ls[0], ExpectedLineAmount(d), e);
    }
  }

  ghost predicate DueExamined(run: Run, rs: seq<FinancialRecord>, p: Payout, e: FinancialException) {
    exists m :: m in DueOn(Split(rs), p.payoutDate) &&
      e in DueExceptions(run, LinesOf(Split(rs), p.payoutId), ViewDue(Split(rs), LinesOf(Split(rs), p.payoutId))(m))
  }

  lemma DueRaised(run: Run, rs: seq<FinancialRecord>, p: Payout, e: FinancialException)
    ensures e in FlatMap(DueRule(run, LinesOf(Split(rs), p.payoutId)), ViewPayout(Split(rs))(p).due) <==>
      DueExamined(run, rs, p, e)
  {
    var v, lines := ViewPayout(Split(rs))(p), LinesOf(Split(rs), p.payoutId);
    assert v.due == Map(ViewDue(Split(rs), lines), DueOn(Split(rs), p.payoutDate));
    FlatMapMember(DueRule(run, lines), v.due, e);
    if d :| d in v.due && e in DueRule(run, lines)(d) {
      MapMember(ViewDue(Split(rs), lines), DueOn(Split(rs), p.payoutDate), d);
    }
    if m :| m in DueOn(Split(rs), p.payoutDate) && e in DueExceptions(run, lines, ViewDue(Split(rs), lines)(m)) {
      MapMember(ViewDue(Split(rs), lines), DueOn(Split(rs), p.payoutDate), ViewDue(Split(rs), lines)(m));
      assert e in DueRule(run, lines)(ViewDue(Split(rs), lines)(m));
    }
  }

  predicate DueRuleId(rule: RuleId) {
    rule == SettlementExpectedMovementExists || rule == SettlementAmountMatchesReportedSource
  }

  lemma PayoutInView(run: Run, st: ReportStates, v: PayoutView, e: FinancialException)
    ensures e in PayoutExceptions(run, st, v) && DueRuleId(e.rule) <==>
      AllComplete(st, {Payments, Refunds, Fees, SettlementLines}) && e in FlatMap(DueRule(run, v.lines), v.due)
    ensures e in PayoutExceptions(run, st, v) && e.rule == PayoutHeaderMatchesLines <==>
      AllComplete(st, {SettlementLines, Payouts}) && v.payout.reportedNet != LineTotal(v) &&
      e == Shown(run, PayoutHeaderMatchesLines, PayoutTotalMismatch, Of(PayoutType, v.payout.payoutId),
                 Some(LineTotal(v)),
                 Some(v.payout.reportedNet), {PayoutRef(v.payout)} + set l | l in v.lines :: LineRef(l))
  {
    FlatMapMember(DueRule(run, v.lines), v.due, e);
  }

  ghost predicate DueProblemOf(run: Run, rs: seq<FinancialRecord>, p: Payout, e: FinancialException) {
    exists m :: MissingLine(run, rs, p, m, e) || SomeWrongLine(run, rs, p, m, e)
  }

  /** The exception is about a movement due on a payout's date that no line of the payout carries, or whose only line
      has another amount. */
  ghost predicate DueProblem(run: Run, rs: seq<FinancialRecord>, e: FinancialException) {
    exists p :: DueProblemOf(run, rs, p, e)
  }

  lemma DuePayout(run: Run, st: ReportStates, rs: seq<FinancialRecord>, p: Payout, e: FinancialException)
    requires UniqueIdentities(rs) && PayoutRecord(p) in rs && DueRuleId(e.rule)
    ensures e in PayoutRule(run, st, Split(rs))(p) <==>
      AllComplete(st, {Payments, Refunds, Fees, SettlementLines}) && DueProblemOf(run, rs, p, e)
  {
    var v := ViewPayout(Split(rs))(p);
    assert PayoutRule(run, st, Split(rs))(p) == PayoutExceptions(run, st, v) &&
      v.lines == LinesOf(Split(rs), p.payoutId);
    PayoutInView(run, st, v, e);
    DueRaised(run, rs, p, e);
    if m :| m in DueOn(Split(rs), p.payoutDate) &&
            e in DueExceptions(run, LinesOf(Split(rs), p.payoutId),
                               ViewDue(Split(rs), LinesOf(Split(rs), p.payoutId))(m)) {
      DueSeen(rs, p.payoutDate, m);
      DueInView(run, rs, p, m, e);
    }
    if m :| MissingLine(run, rs, p, m, e) || SomeWrongLine(run, rs, p, m, e) {
      DueSeen(rs, p.payoutDate, m);
      DueInView(run, rs, p, m, e);
    }
  }

  lemma DueRaisedInRun(run: Run, rs: seq<FinancialRecord>, cs: seq<CompletenessResult>, e: FinancialException)
    requires UniqueIdentities(rs) && DueRuleId(e.rule)
    ensures Raises(run, rs, cs, e) <==>
      AllComplete(StatesFor(cs), {Payments, Refunds, Fees, SettlementLines}) && DueProblem(run, rs, e)
  {
    PassOf(run, StatesFor(cs), Split(rs), e);
    forall p: Payout
      ensures p in Split(rs).payouts && e in PayoutRule(run, StatesFor(cs), Split(rs))(p) <==>
        AllComplete(StatesFor(cs), {Payments, Refunds, Fees, SettlementLines}) && DueProblemOf(run, rs, p, e)
    {
      PayoutSeen(rs, p);
      if PayoutRecord(p) in rs {
        DuePayout(run, StatesFor(cs), rs, p, e);
      }
    }
  }

  /** No two expected movements go by one name, as publication demands. */
  ghost predicate NamesDistinct(rs: seq<FinancialRecord>) {
    forall m, n :: m in Movements(Split(rs)) && n in Movements(Split(rs)) && m.kind == n.kind && m.id == n.id ==> m == n
  }

  lemma DueUnique(run: Run, rs: seq<FinancialRecord>, p: Payout, m: ExpectedMovement, e: FinancialException,
                  q: Payout, n: ExpectedMovement, g: FinancialException)
    requires UniqueIdentities(rs) && AcceptedLedger(rs) && NamesDistinct(rs) && ExceptionId(e) == ExceptionId(g)
    requires MissingLine(run, rs, p, m, e) || SomeWrongLine(run, rs, p, m, e)
    requires MissingLine(run, rs, q, n, g) || SomeWrongLine(run, rs, q, n, g)
    ensures e == g
  {
    if MissingLine(run, rs, p, m, e) {
      assert MissingLine(run, rs, q, n, g) && m == n;
    } else {
      var l, due :| WrongLine(run, rs, p, m, l, due, e);
      var k, owed :| WrongLine(run, rs, q, n, k, owed, g);
      SameLine(rs, l, k);
      assert m == n;
      assert PayoutRecord(p) in rs && PayoutRecord(q) in rs;
      SamePayout(rs, p, q);
      WrongInView(run, rs, p, m, l, due, e);
      WrongInView(run, rs, q, n, k, owed, g);
    }
  }

  lemma SameLine(rs: seq<FinancialRecord>, l: SettlementLine, k: SettlementLine)
    requires UniqueIdentities(rs) && LineRecord(l) in rs && LineRecord(k) in rs && l.lineId == k.lineId
    ensures l == k
  {
    SameIdentitySameRecord(rs, LineRecord(l), LineRecord(k));
  }

  lemma DueProblemUnique(run: Run, rs: seq<FinancialRecord>, e: FinancialException, g: FinancialException)
    requires UniqueIdentities(rs) && AcceptedLedger(rs) && NamesDistinct(rs) && ExceptionId(e) == ExceptionId(g)
    requires DueProblem(run, rs, e) && DueProblem(run, rs, g)
    ensures e == g
  {
    var p :| DueProblemOf(run, rs, p, e);
    var m :| MissingLine(run, rs, p, m, e) || SomeWrongLine(run, rs, p, m, e);
    var q :| DueProblemOf(run, rs, q, g);
    var n :| MissingLine(run, rs, q, n, g) || SomeWrongLine(run, rs, q, n, g);
    DueUnique(run, rs, p, m, e, q, n, g);
  }

  /** Of the movements due on a payout's date, those that no line of the payout carries, and those whose only line has
      another amount, are published with both amounts and their evidence; and nothing else is under these rules. */
  lemma DuePublished(run: Run, rs: seq<FinancialRecord>, conflicts: seq<Conflict>, cs: seq<CompletenessResult>,
                     e: FinancialException)
    requires UniqueIdentities(rs) && ResultFor(run, rs, conflicts, cs).Success?
    requires e.rule == SettlementExpectedMovementExists || e.rule == SettlementAmountMatchesReportedSource
    ensures e in ResultFor(run, rs, conflicts, cs).value.exceptions ==>
      CompleteIn(cs, {Payments, Refunds, Fees, SettlementLines}) && DueProblem(run, rs, e)
    ensures DueProblem(run, rs, e) && NamesDistinct(rs) ==>
      CompleteIn(cs, {Payments, Refunds, Fees, SettlementLines}) ==>
      e in ResultFor(run, rs, conflicts, cs).value.exceptions
  {
    ResultRaw(run, rs, conflicts, cs);
    ReportsSeen(cs, {Payments, Refunds, Fees, SettlementLines});
    DueRaisedInRun(run, rs, cs, e);
    if e in ResultFor(run, rs, conflicts, cs).value.exceptions {
      PublishedIsRaised(run, rs, conflicts, cs, e);
    }
    if NamesDistinct(rs) {
      forall g | Raises(run, rs, cs, e) && Raises(run, rs, cs, g) && ExceptionId(g) == ExceptionId(e)
        ensures g == e
      {
        DueRaisedInRun(run, rs, cs, g);
        DueProblemUnique(run, rs, e, g);
      }
      RaisedIsPublished(run, rs, conflicts, cs, e);
    }
  }

  lemma PayoutLineRefs(rs: seq<FinancialRecord>, id: string)
    ensures (set l | l in LinesOf(Split(rs), id) :: LineRef(l)) == Cited(LinesFor(id), rs)
  {
    LinesSeen(rs, id);
    SameLineRefs(rs, LinesOf(Split(rs), id), LinesFor(id));
  }

  ghost predicate WrongHeader(run: Run, rs: seq<FinancialRecord>, p: Payout, e: FinancialException) {
    PayoutRecord(p) in rs && Total(LinesFor(p.payoutId), rs) != p.reportedNet &&
    e == Shown(run, PayoutHeaderMatchesLines, PayoutTotalMismatch, Of(PayoutType, p.payoutId),
               Some(Total(LinesFor(p.payoutId), rs)), Some(p.reportedNet),
               {Ref(PayoutType, p.payoutId)} + Cited(LinesFor(p.payoutId), rs))
  }

  lemma WrongHeaderAt(run: Run, st: ReportStates, rs: seq<FinancialRecord>, p: Payout, e: FinancialException)
    requires UniqueIdentities(rs) && PayoutRecord(p) in rs
    ensures e in PayoutRule(run, st, Split(rs))(p) && e.rule == PayoutHeaderMatchesLines <==>
      AllComplete(st, {SettlementLines, Payouts}) && WrongHeader(run, rs, p, e)
  {
    var v := ViewPayout(Split(rs))(p);
    LinesSeen(rs, p.payoutId);
    PayoutLineRefs(rs, p.payoutId);
    PayoutInView(run, st, v, e);
    assert v.payout == p && v.lines == LinesOf(Split(rs), p.payoutId);
    assert PayoutRule(run, st, Split(rs))(p) == PayoutExceptions(run, st, v);
  }

  lemma WrongHeaderRaised(run: Run, rs: seq<FinancialRecord>, cs: seq<CompletenessResult>, e: FinancialException)
    requires UniqueIdentities(rs) && e.rule == PayoutHeaderMatchesLines
    ensures Raises(run, rs, cs, e) <==>
      AllComplete(StatesFor(cs), {SettlementLines, Payouts}) && exists p :: WrongHeader(run, rs, p, e)
  {
    PassOf(run, StatesFor(cs), Split(rs), e);
    forall p: Payout
      ensures p in Split(rs).payouts && e in PayoutRule(run, StatesFor(cs), Split(rs))(p) <==>
        AllComplete(StatesFor(cs), {SettlementLines, Payouts}) && WrongHeader(run, rs, p, e)
    {
      PayoutSeen(rs, p);
      if PayoutRecord(p) in rs {
        WrongHeaderAt(run, StatesFor(cs), rs, p, e);
      }
    }
  }

  lemma WrongHeaderUnique(run: Run, rs: seq<FinancialRecord>, e: FinancialException, g: FinancialException)
    requires UniqueIdentities(rs) && (exists p :: WrongHeader(run, rs, p, e)) &&
      (exists p :: WrongHeader(run, rs, p, g))
    requires e.subject == g.subject
    ensures e == g
  {
    var x :| WrongHeader(run, rs, x, e);
    var y :| WrongHeader(run, rs, y, g);
    SamePayout(rs, x, y);
  }

  /** A payout whose reported net amount is not the total of its lines, and nothing else, is published with both amounts
      and every one of those lines. */
  lemma WrongHeaderPublished(run: Run, rs: seq<FinancialRecord>, conflicts: seq<Conflict>, cs: seq<CompletenessResult>,
                        e: FinancialException)
    requires UniqueIdentities(rs) && ResultFor(run, rs, conflicts, cs).Success? && e.rule == PayoutHeaderMatchesLines
    ensures e in ResultFor(run, rs, conflicts, cs).value.exceptions <==>
      CompleteIn(cs, {SettlementLines, Payouts}) && exists p :: WrongHeader(run, rs, p, e)
  {
    ResultRaw(run, rs, conflicts, cs);
    ReportsSeen(cs, {SettlementLines, Payouts});
    WrongHeaderRaised(run, rs, cs, e);
    forall g | Raises(run, rs, cs, e) && Raises(run, rs, cs, g) && ExceptionId(g) == ExceptionId(e)
      ensures g == e
    {
      WrongHeaderRaised(run, rs, cs, g);
      WrongHeaderUnique(run, rs, e, g);
    }
    RaisedIsPublished(run, rs, conflicts, cs, e);
  }
}
