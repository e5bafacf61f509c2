/** What a rebuild makes of the stored receipts, on their columns. */
module RebuildMeaning {
  import opened Sequences
  import opened Contracts
  import opened Rules
  import opened Ledger
  import opened Reconciliation
  import opened Canonicalize
  import CM = CanonicalMeaning
  import opened Exceptions
  import opened Rebuild

  /** Which check a receipt fails first. */
  lemma ChecksInFull(r: StoredReceipt)
    ensures RowError(r) == Some(BlankReason) <==>
      r.state.Quarantined? && forall i :: 0 <= i < |r.state.reason| ==> Blank(r.state.reason[i])
    ensures RowError(r) == Some(UncommittedEvidence) <==> !r.state.Quarantined? && r.status != Committed
    ensures RowError(r) == Some(UnresolvedReceipt) <==> r.state == Unresolved && r.status == Committed
    ensures RowError(r) == Some(ContractViolation) <==> r.state.Resolved? && r.status == Committed && r.parsed == None
    ensures RowError(r) == Some(SourceIdMismatch) <==>
      r.state.Resolved? && r.status == Committed && r.parsed.Some? && !BearsId(r.parsed.value, r.key.id)
    ensures RowError(r) == Some(SourceVersionMismatch) <==>
      r.state.Resolved? && r.status == Committed && r.parsed.Some? && BearsId(r.parsed.value, r.key.id) &&
      !CM.AtVersion(r.parsed.value, r.version)
  {
    if r.parsed.Some? {
      CM.VersionRead(r.parsed.value, r.version);
    }
  }

  predicate BearsId(a: FinancialRecord, id: string) {
    (a.OrderRecord? && a.order.orderId == id) || (a.PaymentRecord? && a.payment.paymentId == id) ||
    (a.RefundRecord? && a.refund.refundId == id) || (a.FeeRecord? && a.fee.feeId == id) ||
    (a.LineRecord? && a.line.lineId == id) || (a.PayoutRecord? && a.payout.payoutId == id)
  }

  /** The receipt brings the envelope. */
  predicate Brings(hash: FinancialRecord -> string, r: StoredReceipt, e: Envelope) {
    (r.status == Committed || r.status == FailedBatch) && !r.state.Quarantined? && r.parsed == Some(e.record) &&
    r.receiptId == e.receiptId && hash(e.record) == e.payloadHash
  }

  /** The evidence of a table: the parsed payloads of the receipts of finalized batches that were not quarantined. */
  lemma EvidenceInFull(hash: FinancialRecord -> string, table: seq<StoredReceipt>, e: Envelope)
    requires Rebuild.Readable(table)
    ensures e in Received(hash, table) <==> exists r :: r in table && Brings(hash, r, e)
  {
    forall r | r in table && Finalized(r) && !r.state.Quarantined?
      ensures r.parsed.Some?
    {
      assert RowError(r).None?;
    }
    if r :| r in table && Brings(hash, r, e) {
      assert IsEvidence(r) && MakeEnvelope(hash, r) == e;
    }
    if e in Received(hash, table) {
      var r :| r in table && IsEvidence(r) && MakeEnvelope(hash, r) == e;
      assert Brings(hash, r, e);
    }
  }

  // ---- The exceptions of a rebuilt run ----

  /** `e`, citing the contents in conflict instead of the receipts that brought them. */
  predicate CitesContents(e: FinancialException, c: Conflict, f: FinancialException) {
    e.subject == RecordSubject(c.key) &&
    f.runId == e.runId && f.rule == e.rule && f.code == e.code && f.subject == e.subject && f.expected == e.expected &&
    f.actual == e.actual && f.variance == e.variance && f.detectedAt == e.detectedAt &&
    f.support == set h | h in c.hashes :: VariantReference(c.key, c.version, h)
  }

  ghost predicate Counterpart(conflicts: seq<Conflict>, e: FinancialException, f: FinancialException) {
    if e.code == ConflictingSourceVersion then exists c :: c in conflicts && CitesContents(e, c, f) else f == e
  }

  ghost predicate SameButEvidence(conflicts: seq<Conflict>, a: ReconciliationResult, b: ReconciliationResult) {
    b.run == a.run && b.contractVersion == a.contractVersion && b.transactions == a.transactions &&
    b.movements == a.movements && b.payouts == a.payouts && b.completeness == a.completeness &&
    |b.exceptions| == |a.exceptions| &&
    forall i :: 0 <= i < |a.exceptions| ==> Counterpart(conflicts, a.exceptions[i], b.exceptions[i])
  }

  /** The references of all the receipts. */
  ghost function ReferencesOf(u: set<Envelope>): map<string, Reference>
    requires ReceiptsAgree(u)
  {
    map e | e in u :: e.receiptId := VariantReference(IdentityOf(e), SourceVersion(e), e.payloadHash)
  }

  /** A rebuild succeeds exactly when reconciliation of the canonical records does, and returns the same result but for
      the evidence of conflicts: the exceptions correspond one to one, in order. */
  lemma OutcomeInFull(u: set<Envelope>, c: CanonicalizationResult, run: Run, cs: seq<CompletenessResult>)
    requires ReceiptsAgree(u) && IsCanonicalization(u, c)
    ensures var plain, o := ResultFor(run, c.records, c.conflicts, cs), Outcome(run, c, cs);
      (plain.Failure? ==> o == Failure(NotReconcilable(plain.error))) &&
      (plain.Success? ==> o.Success? && SameButEvidence(c.conflicts, plain.value, o.value))
  {
    var plain := ResultFor(run, c.records, c.conflicts, cs);
    if plain.Success? {
      var m := ReferencesOf(u);
      ReconciledStable(run, u, c, m, cs, plain.value);
      forall i | 0 <= i < |plain.value.exceptions|
        ensures Counterpart(c.conflicts, plain.value.exceptions[i], Stabilized(m)(plain.value.exceptions[i]))
      {
        CounterpartOf(run, u, c, m, cs, plain.value, plain.value.exceptions[i]);
      }
    }
  }

  lemma CounterpartOf(run: Run, u: set<Envelope>, c: CanonicalizationResult, m: map<string, Reference>,
                      cs: seq<CompletenessResult>, plain: ReconciliationResult, e: FinancialException)
    requires IsCanonicalization(u, c) && References(m, u) && e in plain.exceptions
    requires ResultFor(run, c.records, c.conflicts, cs) == Success(plain)
    ensures Counterpart(c.conflicts, e, Stabilized(m)(e))
  {
    if e.code == ConflictingSourceVersion {
      var x := ConflictBehind(run, c, cs, plain, e);
      assert ConflictOf(u, x);
      CitedVariants(u, m, x);
      assert e.support == CitedBy(x);
      assert Stabilized(m)(e) == e.(support := VariantsOf(x));
      assert CitesContents(e, x, Stabilized(m)(e));
    } else {
      assert !IsConflictException(e);
      assert Stabilized(m)(e) == e;
    }
  }

  lemma ConflictBehind(run: Run, c: CanonicalizationResult, cs: seq<CompletenessResult>, plain: ReconciliationResult,
                       e: FinancialException) returns (x: Conflict)
    requires ResultFor(run, c.records, c.conflicts, cs) == Success(plain) && e in plain.exceptions
    requires e.code == ConflictingSourceVersion
    ensures x in c.conflicts && e in ConflictExceptions(run)(x)
  {
    var sorted := Sort(StatusKey, cs);
    var a, b, r := FlatMap(CompletenessExceptions(run), sorted), FlatMap(ConflictExceptions(run), c.conflicts),
      RecordExceptions(run, StatesOf(sorted), Split(c.records));
    CompletenessFromRules(run, sorted);
    RecordExceptionsFromRules(run, StatesOf(sorted), Split(c.records));
    PublishedFrom(a + b + r, e);
    assert IsConflictException(e);
    assert e in b;
    FlatMapMember(ConflictExceptions(run), c.conflicts, e);
    x :| x in c.conflicts && e in ConflictExceptions(run)(x);
  }
}
