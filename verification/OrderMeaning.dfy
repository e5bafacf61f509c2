/** The order in which a result lists its movements, exceptions and reports. */
module OrderMeaning {
  import opened Sequences
  import opened Contracts
  import opened Rules
  import opened Ledger
  import opened Reconciliation

  /** Captures come before fees and fees before refunds. */
  predicate KindBefore(a: MovementType, b: MovementType) {
    (a == CaptureMovement && b != CaptureMovement) || (a == FeeMovement && b == RefundMovement)
  }

  /** By day, then by kind, then by id. */
  predicate MovementBefore(m: ExpectedMovement, n: ExpectedMovement) {
    m.availableOn < n.availableOn ||
    (m.availableOn == n.availableOn && (KindBefore(m.kind, n.kind) || (m.kind == n.kind && StringLess(m.id, n.id))))
  }

  lemma MovementKeyRead(m: ExpectedMovement, n: ExpectedMovement)
    ensures KeyLess(MovementKey(m), MovementKey(n)) <==> MovementBefore(m, n)
  {
    var a, b := MovementKey(m), MovementKey(n);
    FirstDecides(a, b);
    FirstDecides(a[1..], b[1..]);
    assert a[1..][1..] == [S(m.id)] && b[1..][1..] == [S(n.id)];
    LastDecides(S(m.id), S(n.id));
  }

  /** Codes are ranked by their names: CAPTURE_FOR_NON_PAYABLE_ORDER first, UNEXPECTED_FEE last. */
  lemma CodesByName()
    ensures CodeRank(CaptureForNonPayableOrder) < CodeRank(ConflictingSourceVersion) <
      CodeRank(DuplicateSettlementMovement) < CodeRank(ExcessRefund) < CodeRank(FeeMismatch) < CodeRank(MissingFee) <
      CodeRank(MissingPayment) < CodeRank(MissingSettlementLine) < CodeRank(MultipleCapture) <
      CodeRank(OrphanPayment) < CodeRank(OrphanRefund) < CodeRank(PaymentAmountMismatch) <
      CodeRank(PayoutTotalMismatch) < CodeRank(RefundCurrencyMismatch) < CodeRank(SettlementLineAmountMismatch) <
      CodeRank(SourceReportInvalid) < CodeRank(SourceReportMissing) < CodeRank(UnexpectedFee)
  {
  }

  /** Subjects of one code are ranked by the name of their kind and then by their id. */
  predicate SubjectBefore(s: Subject, t: Subject) {
    match (s, t)
    case (RecordSubject(j), RecordSubject(k)) => RecordKindBefore(j.kind, k.kind) ||
      (j.kind == k.kind && StringLess(j.id, k.id))
    case (SettlementMovementSubject(j, x), SettlementMovementSubject(k, y)) => KindBefore(j, k) ||
      (j == k && StringLess(x, y))
    case (ExpectedMovementSubject(j, x), ExpectedMovementSubject(k, y)) => KindBefore(j, k) ||
      (j == k && StringLess(x, y))
    case (ExpectedMovementSubject(_, _), _) => true
    case (RecordSubject(_), SettlementMovementSubject(_, _)) => true
    case (RecordSubject(_), SourceReportSubject(_, _)) => true
    case (SettlementMovementSubject(_, _), SourceReportSubject(_, _)) => true
    case _ => false
  }

  /** FEE, ORDER, PAYMENT, PAYOUT, REFUND, SETTLEMENT_LINE. */
  predicate RecordKindBefore(a: EntityType, b: EntityType) {
    (a == FeeType && b != FeeType) || (a == OrderType && b != FeeType && b != OrderType) ||
    (a == PaymentType && (b == PayoutType || b == RefundType || b == SettlementLineType)) ||
    (a == PayoutType && (b == RefundType || b == SettlementLineType)) || (a == RefundType && b == SettlementLineType)
  }

  lemma KindRead(a: MovementType, b: MovementType)
    ensures KindOrder(a) < KindOrder(b) <==> KindBefore(a, b)
    ensures KindOrder(a) == KindOrder(b) <==> a == b
  {
  }

  lemma RecordKindRead(a: EntityType, b: EntityType)
    ensures SubjectRank(a) < SubjectRank(b) <==> RecordKindBefore(a, b)
    ensures SubjectRank(a) == SubjectRank(b) <==> a == b
    ensures 0 < SubjectRank(a) < 7
  {
  }

  /** The key of a subject is followed by the rank of a rule. */
  lemma SubjectRead(s: Subject, t: Subject, x: Key, y: Key)
    requires SubjectBefore(s, t)
    ensures KeyLess(SubjectKey(s) + x, SubjectKey(t) + y)
  {
    var a, b := SubjectKey(s) + x, SubjectKey(t) + y;
    FirstDecides(a, b);
    match (s, t) {
      case (RecordSubject(j), RecordSubject(k)) =>
        RecordKindRead(j.kind, k.kind);
        FirstDecides(a[1..], b[1..]);
      case (SettlementMovementSubject(j, _), SettlementMovementSubject(k, _)) =>
        KindRead(j, k);
        FirstDecides(a[1..], b[1..]);
        FirstDecides(a[2..], b[2..]);
        assert a[1..][1..] == a[2..] && b[1..][1..] == b[2..];
      case (ExpectedMovementSubject(j, _), ExpectedMovementSubject(k, _)) =>
        KindRead(j, k);
        FirstDecides(a[1..], b[1..]);
        FirstDecides(a[2..], b[2..]);
        assert a[1..][1..] == a[2..] && b[1..][1..] == b[2..];
      case (RecordSubject(j), _) => RecordKindRead(j.kind, j.kind);
      case (_, RecordSubject(k)) => RecordKindRead(k.kind, k.kind);
      case _ =>
    }
  }

  /** Rules are ranked by their names: canonicalization first, source last. */
  lemma RulesByName()
    ensures RuleRank(SameVersionConflictRule) < RuleRank(FeeAmountMatchesSchedule) < RuleRank(FeeBelongsToCapture) <
      RuleRank(FeeProcessingFeeExists) < RuleRank(OrderCollectionMatchesTotal) < RuleRank(OrderMaximumOneCapture) <
      RuleRank(OrderPaymentExists) < RuleRank(PaymentOrderExists) < RuleRank(PaymentOrderIsPayable) <
      RuleRank(PayoutHeaderMatchesLines) < RuleRank(RefundCapturedPaymentExists) <
      RuleRank(RefundCurrencyMatchesPayment) < RuleRank(RefundTotalWithinCapture) <
      RuleRank(SettlementAmountMatchesReportedSource) < RuleRank(SettlementExpectedMovementExists) <
      RuleRank(SettlementUniqueMovementAllocation) < RuleRank(ReportCompletenessRule)
  {
  }

  /** By code, then by subject, then by rule. */
  predicate ExceptionBefore(e: FinancialException, f: FinancialException) {
    CodeRank(e.code) < CodeRank(f.code) ||
    (e.code == f.code && SubjectBefore(e.subject, f.subject)) ||
    (e.code == f.code && e.subject == f.subject && RuleRank(e.rule) < RuleRank(f.rule))
  }

  lemma ExceptionRead(e: FinancialException, f: FinancialException)
    requires ExceptionBefore(e, f)
    ensures KeyLess(ExceptionKey(e), ExceptionKey(f))
  {
    var a, b := SubjectKey(e.subject) + [N(RuleRank(e.rule))], SubjectKey(f.subject) + [N(RuleRank(f.rule))];
    assert ExceptionKey(e) == [N(CodeRank(e.code))] + a && ExceptionKey(f) == [N(CodeRank(f.code))] + b;
    assert ExceptionKey(e)[1..] == a && ExceptionKey(f)[1..] == b;
    FirstDecides(ExceptionKey(e), ExceptionKey(f));
    if e.code == f.code && SubjectBefore(e.subject, f.subject) {
      SubjectRead(e.subject, f.subject, [N(RuleRank(e.rule))], [N(RuleRank(f.rule))]);
    } else if e.code == f.code {
      LastDecides(N(RuleRank(e.rule)), N(RuleRank(f.rule)));
      CommonPrefix(SubjectKey(e.subject), [N(RuleRank(e.rule))], [N(RuleRank(f.rule))]);
    }
  }

  lemma {:induction false} CommonPrefix(p: Key, a: Key, b: Key)
    requires KeyLess(a, b)
    ensures KeyLess(p + a, p + b)
  {
    if p != [] {
      CommonPrefix(p[1..], a, b);
      assert (p + a)[1..] == p[1..] + a && (p + b)[1..] == p[1..] + b;
    } else {
      assert p + a == a && p + b == b;
    }
  }

  /** By day, then the reports of mockpay by name, then the orders report. */
  predicate ReportBefore(a: ReportStatus, b: ReportStatus) {
    a.day < b.day ||
    (a.day == b.day && ((a.report != Orders && b.report == Orders) ||
     (a.report == Fees && b.report != Fees) ||
     (a.report == Payments && (b.report == Payouts || b.report == Refunds || b.report == SettlementLines)) ||
     (a.report == Payouts && (b.report == Refunds || b.report == SettlementLines)) ||
     (a.report == Refunds && b.report == SettlementLines)))
  }

  lemma ReportRead(c: CompletenessResult, d: CompletenessResult)
    requires ReportBefore(c.status, d.status)
    ensures KeyLess(StatusKey(c), StatusKey(d))
  {
    var a, b := StatusKey(c), StatusKey(d);
    FirstDecides(a, b);
    FirstDecides(a[1..], b[1..]);
    assert a[1..][1..] == [a[2]] && b[1..][1..] == [b[2]];
    LastDecides(a[2], b[2]);
  }

  ghost predicate MovementsOrdered(ms: seq<ExpectedMovement>) {
    forall i, j :: 0 <= i < j < |ms| ==> !MovementBefore(ms[j], ms[i])
  }

  ghost predicate ExceptionsOrdered(es: seq<FinancialException>) {
    forall i, j :: 0 <= i < j < |es| ==> !ExceptionBefore(es[j], es[i])
  }

  ghost predicate ReportsOrdered(rs: seq<ReportStatus>) {
    forall i, j :: 0 <= i < j < |rs| ==> !ReportBefore(rs[j], rs[i])
  }

  /** Nothing in a result is listed before something that comes before it. */
  lemma ListsInOrder(run: Run, rs: seq<FinancialRecord>, conflicts: seq<Conflict>, cs: seq<CompletenessResult>)
    requires ResultFor(run, rs, conflicts, cs).Success?
    ensures var r := ResultFor(run, rs, conflicts, cs).value;
      MovementsOrdered(r.movements) && ExceptionsOrdered(r.exceptions) && ReportsOrdered(r.completeness)
  {
    var st, recs := StatesOf(Sort(StatusKey, cs)), Split(rs);
    var raw := FlatMap(CompletenessExceptions(run), Sort(StatusKey, cs)) + FlatMap(ConflictExceptions(run), conflicts)
               + RecordExceptions(run, st, recs);
    MovementsListed(recs);
    ExceptionsListed(raw);
    ReportsListed(cs);
  }

  lemma MovementsListed(recs: Records)
    ensures MovementsOrdered(Movements(recs))
  {
    var ms := Movements(recs);
    SortSorted(MovementKey, FlatMap(MovementsOfCapture(recs), CapturedPayments(recs))
               + Map(RefundMovementOf, SuccessfulRefunds(recs)));
    forall i, j | 0 <= i < j < |ms|
      ensures !MovementBefore(ms[j], ms[i])
    {
      MovementKeyRead(ms[j], ms[i]);
    }
  }

  lemma ExceptionsListed(raw: seq<FinancialException>)
    ensures ExceptionsOrdered(Published(raw))
  {
    var es := Published(raw);
    SortSorted(ExceptionKey, KeepLast(ExceptionId, raw));
    forall i, j | 0 <= i < j < |es|
      ensures !ExceptionBefore(es[j], es[i])
    {
      if ExceptionBefore(es[j], es[i]) {
        ExceptionRead(es[j], es[i]);
      }
    }
  }

  lemma ReportsListed(cs: seq<CompletenessResult>)
    ensures ReportsOrdered(Map(StatusOf, Sort(StatusKey, cs)))
  {
    var sorted := Sort(StatusKey, cs);
    SortSorted(StatusKey, cs);
    forall i, j | 0 <= i < j < |sorted|
      ensures !ReportBefore(sorted[j].status, sorted[i].status)
    {
      if ReportBefore(sorted[j].status, sorted[i].status) {
        ReportRead(sorted[j], sorted[i]);
      }
    }
    assert forall i :: 0 <= i < |sorted| ==> Map(StatusOf, sorted)[i] == sorted[i].status;
  }

  /** Rejected rows come by entity type, then by source id with unknown ids first, then by reason. */
  lemma QuarantineRead(a: QuarantinedRecord, b: QuarantinedRecord)
    ensures KeyLess(QuarantineKey(a), QuarantineKey(b)) <==>
      var x, y := if a.sourceId == None then "" else a.sourceId.value, if b.sourceId == None then ""
        else b.sourceId.value;
      StringLess(a.entityType, b.entityType) || (a.entityType == b.entityType && StringLess(x, y)) ||
      (a.entityType == b.entityType && x == y && StringLess(a.reasonCode, b.reasonCode))
  {
    var k, l := QuarantineKey(a), QuarantineKey(b);
    FirstDecides(k, l);
    FirstDecides(k[1..], l[1..]);
    assert k[1..][1..] == [S(a.reasonCode)] && l[1..][1..] == [S(b.reasonCode)];
    LastDecides(S(a.reasonCode), S(b.reasonCode));
  }
}
