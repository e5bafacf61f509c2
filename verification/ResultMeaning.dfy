/** The vocabulary in which results are stated on the records they were computed from: totals, counts and evidence of
    the records a rule is about, and which exceptions are published. */
module ResultMeaning {
  import opened Sequences
  import opened Contracts
  import opened Money
  import opened Rules
  import opened Ledger
  import opened Reconciliation
  import opened Exceptions
  import Incremental

  // ---- Records and totals ----

  function CapturesFor(orderId: string): FinancialRecord -> bool {
    (r: FinancialRecord) => r.PaymentRecord? && r.payment.status == Captured && r.payment.orderId == orderId
  }

  function RefundsFor(paymentId: string): FinancialRecord -> bool {
    (r: FinancialRecord) => r.RefundRecord? && r.refund.status == Succeeded && r.refund.paymentId == paymentId
  }

  function FeesFor(paymentId: string): FinancialRecord -> bool {
    (r: FinancialRecord) => r.FeeRecord? && r.fee.paymentId == paymentId
  }

  function LinesFor(payoutId: string): FinancialRecord -> bool {
    (r: FinancialRecord) => r.LineRecord? && r.line.payoutId == payoutId
  }

  /** The lines of the whole run that name a movement. */
  function LinesNaming(kind: MovementType, id: string): FinancialRecord -> bool {
    (r: FinancialRecord) => r.LineRecord? && r.line.kind == kind && r.line.movementId == id
  }

  function Amount(r: FinancialRecord): int {
    match r
    case OrderRecord(o) => o.orderTotal
    case PaymentRecord(p) => p.amount
    case RefundRecord(f) => f.amount
    case FeeRecord(f) => f.amount
    case LineRecord(l) => l.signedAmount
    case PayoutRecord(p) => p.reportedNet
  }

  function AmountIf(pick: FinancialRecord -> bool): FinancialRecord -> int {
    (r: FinancialRecord) => if pick(r) then Amount(r) else 0
  }

  function OneIf(pick: FinancialRecord -> bool): FinancialRecord -> int {
    (r: FinancialRecord) => if pick(r) then 1 else 0
  }

  function Total(pick: FinancialRecord -> bool, rs: seq<FinancialRecord>): int { Sum(AmountIf(pick), rs) }

  function Count(pick: FinancialRecord -> bool, rs: seq<FinancialRecord>): int { Sum(OneIf(pick), rs) }

  function Cited(pick: FinancialRecord -> bool, rs: seq<FinancialRecord>): set<Reference> {
    set r | r in rs && pick(r) :: RecordReference(KeyOf(r))
  }

  // ---- What the views add up ----

  ghost predicate Picks<U>(rs: seq<FinancialRecord>, pick: FinancialRecord -> seq<U>, q: U -> bool, f: U -> int,
                           p: FinancialRecord -> bool) {
    forall r :: r in rs ==>
      |pick(r)| <= 1 && (p(r) <==> pick(r) != [] && q(pick(r)[0])) && (p(r) ==> Amount(r) == f(pick(r)[0]))
  }

  lemma SeenSum<U(!new)>(rs: seq<FinancialRecord>, pick: FinancialRecord -> seq<U>, key: U -> Key, q: U -> bool,
                         f: U -> int, p: FinancialRecord -> bool)
    requires Picks(rs, pick, q, f, p)
    ensures Sum(f, Filter(q, Sort(key, FlatMap(pick, rs)))) == Total(p, rs)
  {
    var h := (u: U) => if q(u) then f(u) else 0;
    forall r | r in rs
      ensures AmountIf(p)(r) == Sum(h, pick(r))
    {
      if pick(r) != [] {
        assert pick(r) == [pick(r)[0]];
        SumSingle(h, pick(r)[0]);
      }
    }
    PickedSum(f, q, key, pick, h, AmountIf(p), rs);
  }

  lemma SeenCount<U(!new)>(rs: seq<FinancialRecord>, pick: FinancialRecord -> seq<U>, key: U -> Key, q: U -> bool,
                           f: U -> int, p: FinancialRecord -> bool)
    requires Picks(rs, pick, q, f, p)
    ensures |Filter(q, Sort(key, FlatMap(pick, rs)))| == Count(p, rs)
  {
    var h := (u: U) => if q(u) then One(u) else 0;
    forall r | r in rs
      ensures OneIf(p)(r) == Sum(h, pick(r))
    {
      if pick(r) != [] {
        assert pick(r) == [pick(r)[0]];
        SumSingle(h, pick(r)[0]);
      }
    }
    PickedSum(One, q, key, pick, h, OneIf(p), rs);
    SumOfOnes(Filter(q, Sort(key, FlatMap(pick, rs))));
  }

  function CapturedFor(orderId: string): Payment -> bool {
    (p: Payment) => p.status == Captured && p.orderId == orderId
  }

  lemma CapturesFiltered(rs: seq<FinancialRecord>, orderId: string)
    ensures CapturesOf(Split(rs), orderId) == Filter(CapturedFor(orderId), Split(rs).payments)
  {
    FilterTwice(KeyIs(PaymentOrderId, orderId), IsCaptured, CapturedFor(orderId), Split(rs).payments);
  }

  /** `p` says of a record what `q` says of the payment in it. */
  ghost predicate OfPayments(rs: seq<FinancialRecord>, p: FinancialRecord -> bool, q: Payment -> bool) {
    forall r :: r in rs ==> (p(r) <==> r.PaymentRecord? && q(r.payment))
  }

  lemma PaymentsPicked(rs: seq<FinancialRecord>, q: Payment -> bool, p: FinancialRecord -> bool)
    requires OfPayments(rs, p, q)
    ensures Picks(rs, AsPayment, q, PaymentAmount, p)
  {
  }

  lemma PaymentsCounted(rs: seq<FinancialRecord>, q: Payment -> bool, p: FinancialRecord -> bool)
    requires OfPayments(rs, p, q)
    ensures Sum(PaymentAmount, Filter(q, Split(rs).payments)) == Total(p, rs)
    ensures |Filter(q, Split(rs).payments)| == Count(p, rs)
  {
    PaymentsPicked(rs, q, p);
    SeenSum(rs, AsPayment, PaymentKey, q, PaymentAmount, p);
    SeenCount(rs, AsPayment, PaymentKey, q, PaymentAmount, p);
  }

  lemma CapturesSeen(rs: seq<FinancialRecord>, orderId: string)
    ensures var ps := CapturesOf(Split(rs), orderId);
      Sum(PaymentAmount, ps) == Total(CapturesFor(orderId), rs) && |ps| == Count(CapturesFor(orderId), rs) &&
      forall p :: p in ps <==> PaymentRecord(p) in rs && p.status == Captured && p.orderId == orderId
  {
    CapturesFiltered(rs, orderId);
    PaymentsCounted(rs, CapturedFor(orderId), CapturesFor(orderId));
    forall p: Payment
      ensures p in Filter(CapturedFor(orderId), Split(rs).payments) <==>
        PaymentRecord(p) in rs && p.status == Captured && p.orderId == orderId
    {
      FilterMember(CapturedFor(orderId), Split(rs).payments, p);
      SplitContains(rs, PaymentRecord(p));
    }
  }

  function RefundedFor(id: string): Refund -> bool {
    (f: Refund) => f.status == Succeeded && f.paymentId == id
  }

  lemma RefundsFiltered(rs: seq<FinancialRecord>, id: string)
    ensures RefundsOf(Split(rs), id) == Filter(RefundedFor(id), Split(rs).refunds)
  {
    FilterTwice(KeyIs(RefundPaymentId, id), IsSucceeded, RefundedFor(id), Split(rs).refunds);
  }

  /** `p` says of a record what `q` says of the refund in it. */
  ghost predicate OfRefunds(rs: seq<FinancialRecord>, p: FinancialRecord -> bool, q: Refund -> bool) {
    forall r :: r in rs ==> (p(r) <==> r.RefundRecord? && q(r.refund))
  }

  lemma RefundsPicked(rs: seq<FinancialRecord>, q: Refund -> bool, p: FinancialRecord -> bool)
    requires OfRefunds(rs, p, q)
    ensures Picks(rs, AsRefund, q, RefundAmount, p)
  {
  }

  lemma RefundsCounted(rs: seq<FinancialRecord>, q: Refund -> bool, p: FinancialRecord -> bool)
    requires OfRefunds(rs, p, q)
    ensures Sum(RefundAmount, Filter(q, Split(rs).refunds)) == Total(p, rs)
    ensures |Filter(q, Split(rs).refunds)| == Count(p, rs)
  {
    RefundsPicked(rs, q, p);
    SeenSum(rs, AsRefund, RefundKey, q, RefundAmount, p);
    SeenCount(rs, AsRefund, RefundKey, q, RefundAmount, p);
  }

  lemma RefundsSeen(rs: seq<FinancialRecord>, id: string)
    ensures var fs := RefundsOf(Split(rs), id);
      Sum(RefundAmount, fs) == Total(RefundsFor(id), rs) && |fs| == Count(RefundsFor(id), rs) &&
      forall f :: f in fs <==> RefundRecord(f) in rs && f.status == Succeeded && f.paymentId == id
  {
    RefundsFiltered(rs, id);
    RefundsCounted(rs, RefundedFor(id), RefundsFor(id));
    forall f: Refund
      ensures f in Filter(RefundedFor(id), Split(rs).refunds) <==>
        RefundRecord(f) in rs && f.status == Succeeded && f.paymentId == id
    {
      FilterMember(RefundedFor(id), Split(rs).refunds, f);
      SplitContains(rs, RefundRecord(f));
    }
  }

  function FeeFor(id: string): Fee -> bool { (f: Fee) => f.paymentId == id }

  /** `p` says of a record what `q` says of the fee in it. */
  ghost predicate OfFees(rs: seq<FinancialRecord>, p: FinancialRecord -> bool, q: Fee -> bool) {
    forall r :: r in rs ==> (p(r) <==> r.FeeRecord? && q(r.fee))
  }

  lemma FeesPicked(rs: seq<FinancialRecord>, q: Fee -> bool, p: FinancialRecord -> bool)
    requires OfFees(rs, p, q)
    ensures Picks(rs, AsFee, q, FeeAmount, p)
  {
  }

  lemma FeesCounted(rs: seq<FinancialRecord>, q: Fee -> bool, p: FinancialRecord -> bool)
    requires OfFees(rs, p, q)
    ensures Sum(FeeAmount, Filter(q, Split(rs).fees)) == Total(p, rs)
    ensures |Filter(q, Split(rs).fees)| == Count(p, rs)
  {
    FeesPicked(rs, q, p);
    SeenSum(rs, AsFee, FeeKey, q, FeeAmount, p);
    SeenCount(rs, AsFee, FeeKey, q, FeeAmount, p);
  }

  lemma FeesSeen(rs: seq<FinancialRecord>, id: string)
    ensures var fs := FeesOf(Split(rs), id);
      Sum(FeeAmount, fs) == Total(FeesFor(id), rs) && |fs| == Count(FeesFor(id), rs) &&
      forall f :: f in fs <==> FeeRecord(f) in rs && f.paymentId == id
  {
    FilterAgree(KeyIs(FeePaymentId, id), FeeFor(id), Split(rs).fees);
    FeesCounted(rs, FeeFor(id), FeesFor(id));
    forall f: Fee
      ensures f in FeesOf(Split(rs), id) <==> FeeRecord(f) in rs && f.paymentId == id
    {
      FilterMember(FeeFor(id), Split(rs).fees, f);
      SplitContains(rs, FeeRecord(f));
    }
  }

  /** `p` says of a record what `q` says of the line in it. */
  ghost predicate OfLines(rs: seq<FinancialRecord>, p: FinancialRecord -> bool, q: SettlementLine -> bool) {
    forall r :: r in rs ==> (p(r) <==> r.LineRecord? && q(r.line))
  }

  lemma LinesPicked(rs: seq<FinancialRecord>, q: SettlementLine -> bool, p: FinancialRecord -> bool)
    requires OfLines(rs, p, q)
    ensures Picks(rs, AsLine, q, LineAmount, p)
  {
  }

  lemma LinesCounted(rs: seq<FinancialRecord>, q: SettlementLine -> bool, p: FinancialRecord -> bool)
    requires OfLines(rs, p, q)
    ensures Sum(LineAmount, Filter(q, Split(rs).lines)) == Total(p, rs)
    ensures |Filter(q, Split(rs).lines)| == Count(p, rs)
    ensures forall l :: l in Filter(q, Split(rs).lines) <==> LineRecord(l) in rs && q(l)
  {
    LinesPicked(rs, q, p);
    SeenSum(rs, AsLine, LineKey, q, LineAmount, p);
    SeenCount(rs, AsLine, LineKey, q, LineAmount, p);
    forall l: SettlementLine
      ensures l in Filter(q, Split(rs).lines) <==> LineRecord(l) in rs && q(l)
    {
      FilterMember(q, Split(rs).lines, l);
      SplitContains(rs, LineRecord(l));
    }
  }

  lemma LinesSeen(rs: seq<FinancialRecord>, id: string)
    ensures var ls := LinesOf(Split(rs), id);
      Sum(LineAmount, ls) == Total(LinesFor(id), rs) && |ls| == Count(LinesFor(id), rs) &&
      forall l :: l in ls <==> LineRecord(l) in rs && l.payoutId == id
  {
    var q := (l: SettlementLine) => l.payoutId == id;
    FilterAgree(KeyIs(LinePayoutId, id), q, Split(rs).lines);
    LinesCounted(rs, q, LinesFor(id));
  }

  lemma NamingSeen(rs: seq<FinancialRecord>, kind: MovementType, id: string)
    ensures var ls := LinesCarrying(Split(rs), MovementRef(kind, id));
      |ls| == Count(LinesNaming(kind, id), rs) &&
      forall l :: l in ls <==> LineRecord(l) in rs && l.kind == kind && l.movementId == id
  {
    var q := (l: SettlementLine) => l.kind == kind && l.movementId == id;
    FilterAgree(KeyIs(LineMovement, MovementRef(kind, id)), q, Split(rs).lines);
    LinesCounted(rs, q, LinesNaming(kind, id));
  }

  // ---- Reports and published exceptions ----

  ghost predicate ReportComplete(cs: seq<CompletenessResult>, r: ReportType) {
    exists c :: c in cs && c.status.report == r && c.status.state == Complete
  }

  /** Every one of the reports was evaluated as complete. */
  ghost predicate CompleteIn(cs: seq<CompletenessResult>, reports: set<ReportType>) {
    forall r :: r in reports ==> ReportComplete(cs, r)
  }

  lemma StateSeen(cs: seq<CompletenessResult>, r: ReportType)
    requires DistinctBy(ReportOf, cs) && HasReport(cs, r)
    ensures StateOf(cs, r) == Complete <==> ReportComplete(cs, r)
  {
    LookupMember(ReportOf, cs, r);
    var found := Lookup(ReportOf, cs, r).value;
    forall c | c in cs && c.status.report == r
      ensures c == found
    {
      var i :| 0 <= i < |cs| && cs[i] == c;
      var j :| 0 <= j < |cs| && cs[j] == found;
      assert ReportOf(cs[i]) == ReportOf(cs[j]);
    }
  }

  lemma SortedReport(cs: seq<CompletenessResult>, r: ReportType)
    ensures ReportComplete(Sort(StatusKey, cs), r) <==> ReportComplete(cs, r)
  {
    SortMembers(StatusKey, cs);
  }

  lemma ReportsSeen(cs: seq<CompletenessResult>, reports: set<ReportType>)
    requires DistinctBy(ReportOf, Sort(StatusKey, cs)) && EveryReport(Sort(StatusKey, cs))
    ensures AllComplete(StatesFor(cs), reports) <==> CompleteIn(cs, reports)
  {
    forall r: ReportType
      ensures StatesFor(cs).Of(r) == Complete <==> ReportComplete(cs, r)
    {
      ReportSeen(cs, r);
    }
  }

  lemma StateByReport(cs: seq<CompletenessResult>, r: ReportType)
    ensures StatesFor(cs).Of(r) == StateOf(Sort(StatusKey, cs), r)
  {
  }

  lemma ReportSeen(cs: seq<CompletenessResult>, r: ReportType)
    requires DistinctBy(ReportOf, Sort(StatusKey, cs)) && EveryReport(Sort(StatusKey, cs))
    ensures StatesFor(cs).Of(r) == Complete <==> ReportComplete(cs, r)
  {
    StateByReport(cs, r);
    assert HasReport(Sort(StatusKey, cs), r);
    StateSeen(Sort(StatusKey, cs), r);
    SortedReport(cs, r);
  }

  /** An exception row with every column. */
  function Shown(run: Run, rule: RuleId, code: ExceptionCode, subject: Subject, expected: Option<int>,
                 actual: Option<int>, support: set<Reference>): FinancialException {
    FinancialException(run.runId, rule, code, subject, expected, actual,
                       if expected.Some? && actual.Some? then Some(actual.value - expected.value) else None,
                       run.detectedAt, support)
  }

  function Ref(kind: EntityType, id: string): Reference { RecordReference(RecordKey(kind, id)) }

  function Of(kind: EntityType, id: string): Subject { RecordSubject(RecordKey(kind, id)) }

  lemma PublishedRaw(raw: seq<FinancialException>, e: FinancialException)
    requires forall f :: f in raw && ExceptionId(f) == ExceptionId(e) ==> f == e
    ensures e in Published(raw) <==> e in raw
  {
    SortMembers(ExceptionKey, KeepLast(ExceptionId, raw));
    KeepLastEntries(ExceptionId, raw);
    if e in raw {
      LastExists(raw, e);
      var i :| LastOfKey(ExceptionId, raw, i) && ExceptionId(raw[i]) == ExceptionId(e);
      assert raw[i] in raw && raw[i] == e;
    }
  }

  lemma {:induction false} LastExists(raw: seq<FinancialException>, e: FinancialException)
    requires e in raw
    ensures exists i :: LastOfKey(ExceptionId, raw, i) && ExceptionId(raw[i]) == ExceptionId(e)
  {
    var init, last := raw[..|raw| - 1], raw[|raw| - 1];
    assert raw == init + [last];
    if ExceptionId(last) == ExceptionId(e) {
      assert LastOfKey(ExceptionId, raw, |raw| - 1);
    } else {
      assert e in init;
      LastExists(init, e);
      var i :| LastOfKey(ExceptionId, init, i) && ExceptionId(init[i]) == ExceptionId(e);
      assert forall j :: i < j < |init| ==> raw[j] == init[j];
      assert LastOfKey(ExceptionId, raw, i) && raw[i] == init[i];
    }
  }

  function StatesFor(cs: seq<CompletenessResult>): ReportStates { StatesOf(Sort(StatusKey, cs)) }

  ghost predicate Raises(run: Run, rs: seq<FinancialRecord>, cs: seq<CompletenessResult>, e: FinancialException) {
    Incremental.HasSource(run, StatesFor(cs), Split(rs), e)
  }

  predicate RecordRule(rule: RuleId) { rule != ReportCompletenessRule && rule != SameVersionConflictRule }

  function Given(run: Run, conflicts: seq<Conflict>, cs: seq<CompletenessResult>): seq<FinancialException> {
    FlatMap(CompletenessExceptions(run), Sort(StatusKey, cs)) + FlatMap(ConflictExceptions(run), conflicts)
  }

  lemma GivenRules(run: Run, conflicts: seq<Conflict>, cs: seq<CompletenessResult>, e: FinancialException)
    requires e in Given(run, conflicts, cs)
    ensures !RecordRule(e.rule)
  {
    FlatMapMember(CompletenessExceptions(run), Sort(StatusKey, cs), e);
    FlatMapMember(ConflictExceptions(run), conflicts, e);
  }

  /** Every exception of the run before repeats of an identity are dropped. */
  function Raw(run: Run, rs: seq<FinancialRecord>, conflicts: seq<Conflict>, cs: seq<CompletenessResult>)
    : seq<FinancialException>
  {
    Given(run, conflicts, cs) + RecordExceptions(run, StatesFor(cs), Split(rs))
  }

  lemma RawMember(run: Run, rs: seq<FinancialRecord>, conflicts: seq<Conflict>, cs: seq<CompletenessResult>,
                  e: FinancialException)
    requires RecordRule(e.rule)
    ensures e in Raw(run, rs, conflicts, cs) <==> Raises(run, rs, cs, e)
  {
    Incremental.RecordExceptionSources(run, StatesFor(cs), Split(rs), e);
    if e in Given(run, conflicts, cs) {
      GivenRules(run, conflicts, cs, e);
    }
  }

  lemma PublishedIsRaw(raw: seq<FinancialException>, e: FinancialException)
    requires e in Published(raw)
    ensures e in raw
  {
    SortMembers(ExceptionKey, KeepLast(ExceptionId, raw));
    KeepLastEntries(ExceptionId, raw);
  }

  lemma ResultRaw(run: Run, rs: seq<FinancialRecord>, conflicts: seq<Conflict>, cs: seq<CompletenessResult>)
    requires ResultFor(run, rs, conflicts, cs).Success?
    ensures ResultFor(run, rs, conflicts, cs).value.exceptions == Published(Raw(run, rs, conflicts, cs))
    ensures DistinctBy(ReportOf, Sort(StatusKey, cs)) && EveryReport(Sort(StatusKey, cs)) &&
      RecordRejection(Split(rs)).None?
  {
  }

  /** An exception of a record rule that shares its identity with no other one is published when it is raised. */
  lemma RaisedIsPublished(run: Run, rs: seq<FinancialRecord>, conflicts: seq<Conflict>, cs: seq<CompletenessResult>,
                          e: FinancialException)
    requires ResultFor(run, rs, conflicts, cs).Success? && RecordRule(e.rule)
    requires Raises(run, rs, cs, e) ==>
      forall f :: Raises(run, rs, cs, f) && ExceptionId(f) == ExceptionId(e) ==> f == e
    ensures e in ResultFor(run, rs, conflicts, cs).value.exceptions <==> Raises(run, rs, cs, e)
  {
    ResultRaw(run, rs, conflicts, cs);
    RawMember(run, rs, conflicts, cs, e);
    if e in Raw(run, rs, conflicts, cs) {
      forall f | f in Raw(run, rs, conflicts, cs) && ExceptionId(f) == ExceptionId(e)
        ensures f == e
      {
        RawMember(run, rs, conflicts, cs, f);
      }
      PublishedRaw(Raw(run, rs, conflicts, cs), e);
    } else if e in Published(Raw(run, rs, conflicts, cs)) {
      PublishedIsRaw(Raw(run, rs, conflicts, cs), e);
    }
  }

  lemma PublishedIsRaised(run: Run, rs: seq<FinancialRecord>, conflicts: seq<Conflict>, cs: seq<CompletenessResult>,
                 e: FinancialException)
    requires ResultFor(run, rs, conflicts, cs).Success? && RecordRule(e.rule)
    requires e in ResultFor(run, rs, conflicts, cs).value.exceptions
    ensures Raises(run, rs, cs, e)
  {
    ResultRaw(run, rs, conflicts, cs);
    PublishedIsRaw(Raw(run, rs, conflicts, cs), e);
    RawMember(run, rs, conflicts, cs, e);
  }

  // ---- Which pass raises which rule ----

  lemma CaptureRules(run: Run, st: ReportStates, recs: Records, p: Payment, e: FinancialException)
    ensures e in PaymentLinkRule(run, st, recs)(p) ==> e.rule in {PaymentOrderExists, PaymentOrderIsPayable}
    ensures e in ExcessRefundRule(run, st, recs)(p) ==> e.rule == RefundTotalWithinCapture
    ensures e in FeeAmountRule(run, st, recs)(p) ==> e.rule in {FeeProcessingFeeExists, FeeAmountMatchesSchedule}
  {
    assert PaymentLinkRule(run, st, recs)(p) == PaymentLinkExceptions(run, st, ViewCapture(recs)(p));
    assert ExcessRefundRule(run, st, recs)(p) == ExcessRefundExceptions(run, st, ViewCapture(recs)(p));
    assert FeeAmountRule(run, st, recs)(p) == FeeAmountExceptions(run, st, ViewCapture(recs)(p));
  }

  lemma AttachedRules(run: Run, st: ReportStates, recs: Records, e: FinancialException)
    ensures forall f :: e in RefundLinkRule(run, st, recs)(f) ==>
      e.rule in {RefundCapturedPaymentExists, RefundCurrencyMatchesPayment}
    ensures forall f :: e in FeeLinkRule(run, st, recs)(f) ==> e.rule == FeeBelongsToCapture
    ensures forall k :: e in AllocationRule(run, st, recs)(k) ==> e.rule == SettlementUniqueMovementAllocation
  {
    forall f | e in RefundLinkRule(run, st, recs)(f)
      ensures e.rule in {RefundCapturedPaymentExists, RefundCurrencyMatchesPayment}
    {
      assert RefundLinkRule(run, st, recs)(f) == RefundLinkExceptions(run, st, ViewRefund(recs)(f));
    }
    forall f | e in FeeLinkRule(run, st, recs)(f)
      ensures e.rule == FeeBelongsToCapture
    {
      assert FeeLinkRule(run, st, recs)(f) == FeeLinkExceptions(run, st, ViewFee(recs)(f));
    }
    forall k | e in AllocationRule(run, st, recs)(k)
      ensures e.rule == SettlementUniqueMovementAllocation
    {
      assert AllocationRule(run, st, recs)(k) == AllocationExceptions(run, st, ViewAllocation(recs)(k));
    }
  }

  predicate OwnOrderRule(rule: RuleId) {
    rule in {OrderPaymentExists, OrderCollectionMatchesTotal, OrderMaximumOneCapture}
  }

  predicate OwnPayoutRule(rule: RuleId) {
    rule in {SettlementExpectedMovementExists, SettlementAmountMatchesReportedSource, PayoutHeaderMatchesLines}
  }

  lemma OrderRules(run: Run, st: ReportStates, v: OrderView, e: FinancialException)
    requires e in OrderExceptions(run, st, v)
    ensures OwnOrderRule(e.rule)
  {
  }

  lemma PayoutRules(run: Run, st: ReportStates, v: PayoutView, e: FinancialException)
    requires e in PayoutExceptions(run, st, v)
    ensures OwnPayoutRule(e.rule)
  {
    FlatMapMember(DueRule(run, v.lines), v.due, e);
  }

  lemma RowRules(run: Run, st: ReportStates, recs: Records, e: FinancialException)
    ensures forall o :: e in OrderRule(run, st, recs)(o) ==> OwnOrderRule(e.rule)
    ensures forall p :: e in PayoutRule(run, st, recs)(p) ==> OwnPayoutRule(e.rule)
  {
    forall o | e in OrderRule(run, st, recs)(o)
      ensures OwnOrderRule(e.rule)
    {
      assert OrderRule(run, st, recs)(o) == OrderExceptions(run, st, ViewOrder(recs)(o));
      OrderRules(run, st, ViewOrder(recs)(o), e);
    }
    forall p | e in PayoutRule(run, st, recs)(p)
      ensures OwnPayoutRule(e.rule)
    {
      assert PayoutRule(run, st, recs)(p) == PayoutExceptions(run, st, ViewPayout(recs)(p));
      PayoutRules(run, st, ViewPayout(recs)(p), e);
    }
  }

  ghost predicate RaisedForCapture(run: Run, st: ReportStates, recs: Records, e: FinancialException) {
    exists p :: p in CapturedPayments(recs) && Incremental.RaisesForPayment(run, st, recs, p, e)
  }

  ghost predicate RaisedForRefund(run: Run, st: ReportStates, recs: Records, e: FinancialException) {
    exists f :: f in SuccessfulRefunds(recs) && e in RefundLinkRule(run, st, recs)(f)
  }

  ghost predicate RaisedForFee(run: Run, st: ReportStates, recs: Records, e: FinancialException) {
    exists f :: f in recs.fees && e in FeeLinkRule(run, st, recs)(f)
  }

  ghost predicate RaisedForOrder(run: Run, st: ReportStates, recs: Records, e: FinancialException) {
    exists o :: o in recs.orders && e in OrderRule(run, st, recs)(o)
  }

  ghost predicate RaisedForMovement(run: Run, st: ReportStates, recs: Records, e: FinancialException) {
    exists k :: k in AllocatedMovements(recs) && e in AllocationRule(run, st, recs)(k)
  }

  ghost predicate RaisedForPayout(run: Run, st: ReportStates, recs: Records, e: FinancialException) {
    exists p :: p in recs.payouts && e in PayoutRule(run, st, recs)(p)
  }

  /** The pass an exception comes from is told by its rule. */
  lemma PassOf(run: Run, st: ReportStates, recs: Records, e: FinancialException)
    ensures Incremental.HasSource(run, st, recs, e) <==>
      match e.rule
      case PaymentOrderExists => RaisedForCapture(run, st, recs, e)
      case PaymentOrderIsPayable => RaisedForCapture(run, st, recs, e)
      case RefundTotalWithinCapture => RaisedForCapture(run, st, recs, e)
      case FeeProcessingFeeExists => RaisedForCapture(run, st, recs, e)
      case FeeAmountMatchesSchedule => RaisedForCapture(run, st, recs, e)
      case RefundCapturedPaymentExists => RaisedForRefund(run, st, recs, e)
      case RefundCurrencyMatchesPayment => RaisedForRefund(run, st, recs, e)
      case FeeBelongsToCapture => RaisedForFee(run, st, recs, e)
      case OrderPaymentExists => RaisedForOrder(run, st, recs, e)
      case OrderCollectionMatchesTotal => RaisedForOrder(run, st, recs, e)
      case OrderMaximumOneCapture => RaisedForOrder(run, st, recs, e)
      case SettlementUniqueMovementAllocation => RaisedForMovement(run, st, recs, e)
      case SettlementExpectedMovementExists => RaisedForPayout(run, st, recs, e)
      case SettlementAmountMatchesReportedSource => RaisedForPayout(run, st, recs, e)
      case PayoutHeaderMatchesLines => RaisedForPayout(run, st, recs, e)
      case _ => false
  {
    forall p
      ensures Incremental.RaisesForPayment(run, st, recs, p, e) ==>
        e.rule in {PaymentOrderExists, PaymentOrderIsPayable, RefundTotalWithinCapture, FeeProcessingFeeExists,
                   FeeAmountMatchesSchedule}
    {
      CaptureRules(run, st, recs, p, e);
    }
    AttachedRules(run, st, recs, e);
    RowRules(run, st, recs, e);
  }

  // ---- Evidence and lookups ----

  lemma FeeRefsSeen(rs: seq<FinancialRecord>, id: string)
    ensures (set f | f in FeesOf(Split(rs), id) :: FeeRef(f)) == Cited(FeesFor(id), rs)
  {
    FeesSeen(rs, id);
    var shown := set f | f in FeesOf(Split(rs), id) :: FeeRef(f);
    forall x | x in Cited(FeesFor(id), rs)
      ensures x in shown
    {
      var r :| r in rs && FeesFor(id)(r) && x == RecordReference(KeyOf(r));
      assert r == FeeRecord(r.fee) && r.fee in FeesOf(Split(rs), id) && x == FeeRef(r.fee);
    }
    forall x | x in shown
      ensures x in Cited(FeesFor(id), rs)
    {
      var f :| f in FeesOf(Split(rs), id) && x == FeeRef(f);
      assert FeesFor(id)(FeeRecord(f)) && x == RecordReference(KeyOf(FeeRecord(f)));
    }
  }

  lemma RefundRefsSeen(rs: seq<FinancialRecord>, id: string)
    ensures (set f | f in RefundsOf(Split(rs), id) :: RefundRef(f)) == Cited(RefundsFor(id), rs)
  {
    RefundsSeen(rs, id);
    var shown := set f | f in RefundsOf(Split(rs), id) :: RefundRef(f);
    forall x | x in Cited(RefundsFor(id), rs)
      ensures x in shown
    {
      var r :| r in rs && RefundsFor(id)(r) && x == RecordReference(KeyOf(r));
      assert r == RefundRecord(r.refund) && r.refund in RefundsOf(Split(rs), id) && x == RefundRef(r.refund);
    }
    forall x | x in shown
      ensures x in Cited(RefundsFor(id), rs)
    {
      var f :| f in RefundsOf(Split(rs), id) && x == RefundRef(f);
      assert RefundsFor(id)(RefundRecord(f)) && x == RecordReference(KeyOf(RefundRecord(f)));
    }
  }

  lemma OrderSeen(rs: seq<FinancialRecord>, id: string)
    ensures var found := Lookup(OrderId, Split(rs).orders, id);
      (found.None? <==> forall o :: OrderRecord(o) in rs ==> o.orderId != id) &&
      (found.Some? ==> OrderRecord(found.value) in rs && found.value.orderId == id)
  {
    LookupMember(OrderId, Split(rs).orders, id);
    forall o: Order
      ensures o in Split(rs).orders <==> OrderRecord(o) in rs
    {
      SplitContains(rs, OrderRecord(o));
    }
  }

  lemma PaymentSeen(rs: seq<FinancialRecord>, id: string)
    requires UniqueIdentities(rs)
    ensures var found := Lookup(PaymentId, Split(rs).payments, id);
      (found.None? <==> forall p :: PaymentRecord(p) in rs ==> p.paymentId != id) &&
      (found.Some? ==> PaymentRecord(found.value) in rs && found.value.paymentId == id) &&
      forall p :: PaymentRecord(p) in rs && p.paymentId == id ==> found == Some(p)
  {
    LookupMember(PaymentId, Split(rs).payments, id);
    forall p: Payment
      ensures p in Split(rs).payments <==> PaymentRecord(p) in rs
    {
      SplitContains(rs, PaymentRecord(p));
    }
    forall p: Payment | PaymentRecord(p) in rs && p.paymentId == id
      ensures Lookup(PaymentId, Split(rs).payments, id) == Some(p)
    {
      assert p in Split(rs).payments && PaymentId(p) == id;
      SameIdentitySameRecord(rs, PaymentRecord(p), PaymentRecord(Lookup(PaymentId, Split(rs).payments, id).value));
    }
  }

  lemma CapturedSeen(rs: seq<FinancialRecord>, p: Payment)
    ensures p in CapturedPayments(Split(rs)) <==> PaymentRecord(p) in rs && p.status == Captured
  {
    FilterMember(IsCaptured, Split(rs).payments, p);
    SplitContains(rs, PaymentRecord(p));
  }

  lemma SucceededSeen(rs: seq<FinancialRecord>, f: Refund)
    ensures f in SuccessfulRefunds(Split(rs)) <==> RefundRecord(f) in rs && f.status == Succeeded
  {
    FilterMember(IsSucceeded, Split(rs).refunds, f);
    SplitContains(rs, RefundRecord(f));
  }

  lemma SamePayment(rs: seq<FinancialRecord>, p: Payment, q: Payment)
    requires UniqueIdentities(rs) && PaymentRecord(p) in rs && PaymentRecord(q) in rs && p.paymentId == q.paymentId
    ensures p == q
  {
    SameIdentitySameRecord(rs, PaymentRecord(p), PaymentRecord(q));
  }

  lemma SameRefund(rs: seq<FinancialRecord>, f: Refund, g: Refund)
    requires UniqueIdentities(rs) && RefundRecord(f) in rs && RefundRecord(g) in rs && f.refundId == g.refundId
    ensures f == g
  {
    SameIdentitySameRecord(rs, RefundRecord(f), RefundRecord(g));
  }

  lemma SameFee(rs: seq<FinancialRecord>, f: Fee, g: Fee)
    requires UniqueIdentities(rs) && FeeRecord(f) in rs && FeeRecord(g) in rs && f.feeId == g.feeId
    ensures f == g
  {
    SameIdentitySameRecord(rs, FeeRecord(f), FeeRecord(g));
  }

  lemma SameOrder(rs: seq<FinancialRecord>, o: Order, q: Order)
    requires UniqueIdentities(rs) && OrderRecord(o) in rs && OrderRecord(q) in rs && o.orderId == q.orderId
    ensures o == q
  {
    SameIdentitySameRecord(rs, OrderRecord(o), OrderRecord(q));
  }

  lemma SamePayout(rs: seq<FinancialRecord>, p: Payout, q: Payout)
    requires UniqueIdentities(rs) && PayoutRecord(p) in rs && PayoutRecord(q) in rs && p.payoutId == q.payoutId
    ensures p == q
  {
    SameIdentitySameRecord(rs, PayoutRecord(p), PayoutRecord(q));
  }

  lemma NoFees(rs: seq<FinancialRecord>, id: string)
    ensures FeesOf(Split(rs), id) == [] <==> forall f :: FeeRecord(f) in rs ==> f.paymentId != id
  {
    FeesSeen(rs, id);
    var fs := FeesOf(Split(rs), id);
    assert fs != [] ==> fs[0] in fs;
  }

  /** The fee as the calculation gives it. */
  function FeeDue(p: Payment): int {
    match CalculateFee(p.paymentMethod, p.amount, p.currency) case Success(fee) => fee case Failure(_) => 0
  }

  /** The scheduled fee of a capture whose fee can be calculated. */
  lemma FeeSeen(p: Payment)
    requires FeeCalculable(p)
    ensures CalculateFee(p.paymentMethod, p.amount, p.currency) == Success(PaymentFee(p))
  {
    FeeAccepted(p.paymentMethod, p.amount, p.currency);
  }

  lemma ExcessForm(run: Run, st: ReportStates, v: CaptureView, e: FinancialException)
    ensures e in ExcessRefundExceptions(run, st, v) <==>
      AllComplete(st, {Payments, Refunds}) && CaptureRefunded(v) > v.payment.amount &&
      e == Shown(run, RefundTotalWithinCapture, ExcessRefund, Of(PaymentType, v.payment.paymentId),
                 Some(v.payment.amount), Some(CaptureRefunded(v)),
                 {PaymentRef(v.payment)} + set r | r in v.refunds :: RefundRef(r))
  {
  }

  lemma RefundsOfCapture(rs: seq<FinancialRecord>, p: Payment)
    ensures var v := ViewCapture(Split(rs))(p);
      v.payment == p && CaptureRefunded(v) == Total(RefundsFor(p.paymentId), rs) &&
      (set f | f in v.refunds :: RefundRef(f)) == Cited(RefundsFor(p.paymentId), rs)
  {
    var v := ViewCapture(Split(rs))(p);
    assert v.refunds == RefundsOf(Split(rs), p.paymentId) && v.payment == p;
    RefundsSeen(rs, p.paymentId);
    RefundRefsSeen(rs, p.paymentId);
  }

  lemma MissingFeeInView(run: Run, st: ReportStates, v: CaptureView, e: FinancialException)
    ensures e in FeeAmountExceptions(run, st, v) && e.rule == FeeProcessingFeeExists <==>
      AllComplete(st, {Payments, Fees}) && v.fees == [] &&
      e == Shown(run, FeeProcessingFeeExists, MissingFee, Of(PaymentType, v.payment.paymentId),
                 Some(CaptureExpectedFee(v)), Some(0), {PaymentRef(v.payment)})
  {
  }

  ghost predicate NoFeeOf(rs: seq<FinancialRecord>, id: string) { forall f :: FeeRecord(f) in rs ==> f.paymentId != id }

  lemma FeesOfCapture(rs: seq<FinancialRecord>, p: Payment)
    requires FeeCalculable(p)
    ensures var v := ViewCapture(Split(rs))(p);
      v.payment == p && (v.fees == [] <==> NoFeeOf(rs, p.paymentId)) &&
      CaptureReportedFee(v) == Total(FeesFor(p.paymentId), rs) &&
      (set f | f in v.fees :: FeeRef(f)) == Cited(FeesFor(p.paymentId), rs) && CaptureExpectedFee(v) == FeeDue(p)
  {
    var v := ViewCapture(Split(rs))(p);
    assert v.fees == FeesOf(Split(rs), p.paymentId) && v.payment == p;
    FeesSeen(rs, p.paymentId);
    FeeRefsSeen(rs, p.paymentId);
    FeeSeen(p);
    NoFees(rs, p.paymentId);
  }

  lemma SameLineRefs(rs: seq<FinancialRecord>, ls: seq<SettlementLine>, p: FinancialRecord -> bool)
    requires forall r :: r in rs && p(r) ==> r.LineRecord? && r.line in ls
    requires forall l :: l in ls ==> LineRecord(l) in rs && p(LineRecord(l))
    ensures (set l | l in ls :: LineRef(l)) == Cited(p, rs)
  {
    var shown := set l | l in ls :: LineRef(l);
    forall x | x in Cited(p, rs)
      ensures x in shown
    {
      var r :| r in rs && p(r) && x == RecordReference(KeyOf(r));
      assert r == LineRecord(r.line) && r.line in ls && x == LineRef(r.line);
    }
    forall x | x in shown
      ensures x in Cited(p, rs)
    {
      var l :| l in ls && x == LineRef(l);
      assert x == RecordReference(KeyOf(LineRecord(l)));
    }
  }
}
