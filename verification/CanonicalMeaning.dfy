/** What canonicalization decides, on the fields of the received records. */
module CanonicalMeaning {
  import opened Sequences
  import opened Contracts
  import opened Canonicalize

  /** The two records are versions of one source entity. */
  predicate SameEntity(a: FinancialRecord, b: FinancialRecord) {
    match (a, b)
    case (OrderRecord(x), OrderRecord(y)) => x.orderId == y.orderId
    case (PaymentRecord(x), PaymentRecord(y)) => x.paymentId == y.paymentId
    case (RefundRecord(x), RefundRecord(y)) => x.refundId == y.refundId
    case (FeeRecord(x), FeeRecord(y)) => x.feeId == y.feeId
    case (LineRecord(x), LineRecord(y)) => x.lineId == y.lineId
    case (PayoutRecord(x), PayoutRecord(y)) => x.payoutId == y.payoutId
    case _ => false
  }

  /** The version number that the source gave the record. */
  predicate AtVersion(a: FinancialRecord, n: int) {
    (a.OrderRecord? && a.order.version == n) || (a.PaymentRecord? && a.payment.version == n) ||
    (a.RefundRecord? && a.refund.version == n) || (a.FeeRecord? && a.fee.version == n) ||
    (a.LineRecord? && a.line.version == n) || (a.PayoutRecord? && a.payout.version == n)
  }

  /** `b` is a higher version of the entity of `a`. */
  ghost predicate Corrects(b: FinancialRecord, a: FinancialRecord) {
    SameEntity(a, b) && exists m, n :: AtVersion(a, m) && AtVersion(b, n) && m < n
  }

  ghost predicate SameVersion(a: FinancialRecord, b: FinancialRecord) {
    SameEntity(a, b) && exists n :: AtVersion(a, n) && AtVersion(b, n)
  }

  lemma VersionRead(a: FinancialRecord, n: int)
    ensures AtVersion(a, n) <==> VersionOf(a) == n
  {
  }

  lemma Compared(a: FinancialRecord, b: FinancialRecord)
    ensures SameEntity(a, b) <==> KeyOf(a) == KeyOf(b)
    ensures Corrects(b, a) <==> KeyOf(a) == KeyOf(b) && VersionOf(a) < VersionOf(b)
    ensures SameVersion(a, b) <==> KeyOf(a) == KeyOf(b) && VersionOf(a) == VersionOf(b)
  {
    VersionRead(a, VersionOf(a));
    VersionRead(b, VersionOf(b));
    VersionRead(b, VersionOf(a));
    forall m
      ensures AtVersion(a, m) ==> m == VersionOf(a)
      ensures AtVersion(b, m) ==> m == VersionOf(b)
    {
      VersionRead(a, m);
      VersionRead(b, m);
    }
  }

  /** Some receipt corrects `e`. */
  ghost predicate Superseded(u: set<Envelope>, e: Envelope) {
    exists f :: f in u && Corrects(f.record, e.record)
  }

  /** Some receipt gives the version of `e` another content. */
  ghost predicate Disputed(u: set<Envelope>, e: Envelope) {
    exists f :: f in u && SameVersion(f.record, e.record) && f.payloadHash != e.payloadHash
  }

  /** Some receipt with a smaller id says the same as `e`. */
  ghost predicate Repeated(u: set<Envelope>, e: Envelope) {
    exists f :: f in u && SameVersion(f.record, e.record) && f.payloadHash == e.payloadHash && f != e &&
      !StringLess(e.receiptId, f.receiptId)
  }

  /** The evidence names the receipt, and its entity, version and content. */
  predicate Tells(x: Evidence, e: Envelope) {
    x.receiptId == e.receiptId && x.variant.key == KeyOf(e.record) && AtVersion(e.record, x.variant.version) &&
    x.variant.payloadHash == e.payloadHash
  }

  lemma DispositionRead(u: set<Envelope>, e: Envelope)
    requires e in u
    ensures DispositionIn(u, e) ==
      if Superseded(u, e) then Stale else if Disputed(u, e) then Conflicted
      else if Repeated(u, e) then Duplicate else Accepted
  {
    forall f | f in u
      ensures Corrects(f.record, e.record) <==> IdentityOf(f) == IdentityOf(e) && SourceVersion(e) < SourceVersion(f)
      ensures SameVersion(f.record, e.record) <==>
        IdentityOf(f) == IdentityOf(e) && SourceVersion(e) == SourceVersion(f)
    {
      Compared(e.record, f.record);
      Compared(f.record, e.record);
    }
    SupersededRead(u, e);
    DisputedRead(u, e);
    RepeatedRead(u, e);
  }

  ghost predicate Comparable(u: set<Envelope>, e: Envelope) {
    (forall f :: f in u ==>
       (Corrects(f.record, e.record) <==> IdentityOf(f) == IdentityOf(e) && SourceVersion(e) < SourceVersion(f))) &&
    (forall f :: f in u ==>
       (SameVersion(f.record, e.record) <==> IdentityOf(f) == IdentityOf(e) && SourceVersion(e) == SourceVersion(f)))
  }

  lemma SupersededRead(u: set<Envelope>, e: Envelope)
    requires Comparable(u, e)
    ensures Superseded(u, e) <==> !Winning(u, e)
  {
  }

  lemma DisputedRead(u: set<Envelope>, e: Envelope)
    requires Comparable(u, e)
    ensures Disputed(u, e) <==> Contested(u, e)
  {
  }

  lemma RepeatedRead(u: set<Envelope>, e: Envelope)
    requires Comparable(u, e)
    ensures Repeated(u, e) <==> !First(u, e)
  {
  }

  /** The evidence says of `e` what became of it. */
  ghost predicate Classifies(u: set<Envelope>, x: Evidence, e: Envelope) {
    Tells(x, e) && (x.disposition == Stale <==> Superseded(u, e)) &&
    (x.disposition == Conflicted <==> !Superseded(u, e) && Disputed(u, e)) &&
    (x.disposition == Duplicate <==> !Superseded(u, e) && !Disputed(u, e) && Repeated(u, e)) &&
    (x.disposition == Accepted <==> !Superseded(u, e) && !Disputed(u, e) && !Repeated(u, e))
  }

  lemma ClassifiesRead(u: set<Envelope>, e: Envelope)
    requires e in u
    ensures Classifies(u, EvidenceIn(u)(e), e)
  {
    DispositionRead(u, e);
    VersionRead(e.record, VersionOf(e.record));
    assert EvidenceIn(u)(e) == Evidence(e.receiptId, VariantOf(e), DispositionIn(u, e));
  }

  /** What became of every receipt: it is stale if a higher version of its entity was received; else in conflict if its
      version was received with other content; else accepted if no receipt with a smaller id says the same, and a
      duplicate if one does. No other evidence is listed. */
  lemma EvidenceInFull(u: set<Envelope>, r: CanonicalizationResult)
    requires ReceiptsAgree(u) && IsCanonicalization(u, r)
    ensures forall e :: e in u ==> exists x :: x in r.evidence && Classifies(u, x, e)
    ensures forall x :: x in r.evidence ==> exists e :: e in u && Classifies(u, x, e)
  {
    forall e | e in u
      ensures exists x :: x in r.evidence && Classifies(u, x, e)
    {
      ClassifiesRead(u, e);
      assert ClassifiedIn(u, EvidenceIn(u)(e));
    }
    forall x | x in r.evidence
      ensures exists e :: e in u && Classifies(u, x, e)
    {
      var e :| e in u && EvidenceIn(u)(e) == x;
      ClassifiesRead(u, e);
    }
  }

  /** `x` was received, and every other content received for its entity has a lower version. */
  ghost predicate Uncontested(u: set<Envelope>, x: FinancialRecord) {
    (exists e :: e in u && e.record == x) &&
    forall f :: f in u && SameEntity(f.record, x) ==> f.record == x || Corrects(x, f.record)
  }

  /** The current records: a received record is current exactly when every other content received for its entity has a
      lower version. */
  lemma RecordsInFull(u: set<Envelope>, r: CanonicalizationResult, x: FinancialRecord)
    requires ReceiptsAgree(u) && FaithfulHashes(u) && IsCanonicalization(u, r)
    ensures x in r.records <==> Uncontested(u, x)
  {
    if Uncontested(u, x) {
      var e :| e in u && e.record == x;
      UncontestedTop(u, e);
      var w := FirstOfVariant(u, e);
      UncontestedTop(u, w);
      assert AcceptedRecord(u, x);
    }
    if x in r.records {
      var e :| e in u && e.record == x && DispositionIn(u, e) == Accepted;
      forall f | f in u && SameEntity(f.record, x)
        ensures f.record == x || Corrects(x, f.record)
      {
        Compared(f.record, x);
      }
    }
  }

  lemma UncontestedTop(u: set<Envelope>, e: Envelope)
    requires FaithfulHashes(u) && e in u && Uncontested(u, e.record)
    ensures Winning(u, e) && !Contested(u, e)
    ensures forall w :: w in u && VariantOf(w) == VariantOf(e) ==> w.record == e.record
  {
    forall f | f in u && IdentityOf(f) == IdentityOf(e)
      ensures SourceVersion(f) <= SourceVersion(e) && (SourceVersion(f) == SourceVersion(e) ==> f.record == e.record)
    {
      Compared(f.record, e.record);
    }
  }

  /** `e` is a receipt of the entity `k` at its highest version, which was received with different contents. */
  ghost predicate InDispute(u: set<Envelope>, k: RecordKey, e: Envelope) {
    e in u && KeyOf(e.record) == k && !Superseded(u, e) && Disputed(u, e)
  }

  lemma InDisputeRead(u: set<Envelope>, k: RecordKey, e: Envelope)
    ensures InDispute(u, k, e) <==> WinsConflict(u, k, e)
  {
    if e in u {
      DispositionRead(u, e);
    }
  }

  predicate HashBefore(e: Envelope, f: Envelope) {
    StringLess(e.payloadHash, f.payloadHash) ||
    (e.payloadHash == f.payloadHash && StringLess(e.receiptId, f.receiptId))
  }

  /** Two listed receipt ids belong to receipts `e` and `f` in the order of their contents and then of their ids. */
  ghost predicate ListedAs(u: set<Envelope>, c: Conflict, i: int, j: int, e: Envelope, f: Envelope)
    requires 0 <= i < |c.receiptIds| && 0 <= j < |c.receiptIds|
  {
    InDispute(u, c.key, e) && InDispute(u, c.key, f) && e.receiptId == c.receiptIds[i] &&
    f.receiptId == c.receiptIds[j] && HashBefore(e, f)
  }

  ghost predicate ListedInOrder(u: set<Envelope>, c: Conflict, i: int, j: int)
    requires 0 <= i < |c.receiptIds| && 0 <= j < |c.receiptIds|
  {
    exists e, f :: ListedAs(u, c, i, j, e, f)
  }

  /** The conflict states the disputed version, and exactly the contents and receipts received at it, in order. */
  ghost predicate StatesDispute(u: set<Envelope>, c: Conflict) {
    (forall e :: InDispute(u, c.key, e) ==> AtVersion(e.record, c.version)) &&
    (forall id :: id in c.receiptIds <==> exists e :: InDispute(u, c.key, e) && e.receiptId == id) &&
    (forall h :: h in c.hashes <==> exists e :: InDispute(u, c.key, e) && e.payloadHash == h) &&
    (forall i, j :: 0 <= i < j < |c.receiptIds| ==> ListedInOrder(u, c, i, j)) &&
    (forall i, j :: 0 <= i < j < |c.hashes| ==> StringLess(c.hashes[i], c.hashes[j]))
  }

  /** The conflicts: there is one for an entity exactly when its highest version was received with different contents.
      It states that version and holds exactly the contents and the receipts of that version. */
  lemma ConflictsInFull(u: set<Envelope>, r: CanonicalizationResult, k: RecordKey)
    requires ReceiptsAgree(u) && IsCanonicalization(u, r)
    ensures (exists c :: c in r.conflicts && c.key == k) <==> exists e :: InDispute(u, k, e)
    ensures forall c :: c in r.conflicts ==> StatesDispute(u, c)
  {
    forall e
      ensures InDispute(u, k, e) <==> WinsConflict(u, k, e)
    {
      InDisputeRead(u, k, e);
    }
    if c :| c in r.conflicts && c.key == k {
      var ws :| IsConflict(u, c, ws);
      assert ws[0] in ws && WinsConflict(u, k, ws[0]);
    }
    if e :| InDispute(u, k, e) {
      assert WinsConflict(u, k, e) && HasConflict(r.conflicts, k);
    }
    forall c | c in r.conflicts
      ensures StatesDispute(u, c)
    {
      var ws :| IsConflict(u, c, ws);
      ConflictRead(u, c, ws);
    }
  }

  lemma ConflictRead(u: set<Envelope>, c: Conflict, ws: seq<Envelope>)
    requires IsConflict(u, c, ws)
    ensures StatesDispute(u, c)
  {
    StringKeyOrder(c.hashes);
    forall e
      ensures InDispute(u, c.key, e) <==> e in ws
    {
      InDisputeRead(u, c.key, e);
    }
    ConflictVersion(u, c, ws);
    ConflictReceipts(u, c, ws);
    ConflictOrder(u, c, ws);
    DisputeStated(u, c, ws);
  }

  lemma DisputeStated(u: set<Envelope>, c: Conflict, ws: seq<Envelope>)
    requires forall e :: InDispute(u, c.key, e) <==> e in ws
    requires forall e :: e in ws ==> AtVersion(e.record, c.version)
    requires forall id :: id in c.receiptIds <==> exists e :: e in ws && e.receiptId == id
    requires forall h :: h in c.hashes <==> exists e :: e in ws && e.payloadHash == h
    requires forall i, j :: 0 <= i < j < |c.receiptIds| ==> ListedInOrder(u, c, i, j)
    requires forall i, j :: 0 <= i < j < |c.hashes| ==> StringLess(c.hashes[i], c.hashes[j])
    ensures StatesDispute(u, c)
  {
  }

  lemma ConflictVersion(u: set<Envelope>, c: Conflict, ws: seq<Envelope>)
    requires IsConflict(u, c, ws)
    ensures forall e :: e in ws ==> AtVersion(e.record, c.version)
  {
    forall e | e in ws
      ensures AtVersion(e.record, c.version)
    {
      assert ws[0] in ws && WinsConflict(u, c.key, ws[0]) && WinsConflict(u, c.key, e);
      VersionRead(e.record, c.version);
    }
  }

  lemma ConflictReceipts(u: set<Envelope>, c: Conflict, ws: seq<Envelope>)
    requires IsConflict(u, c, ws)
    ensures forall id :: id in c.receiptIds <==> exists e :: e in ws && e.receiptId == id
    ensures forall h :: h in c.hashes <==> exists e :: e in ws && e.payloadHash == h
  {
    forall id
      ensures id in c.receiptIds <==> exists e :: e in ws && e.receiptId == id
    {
      MapMember(ReceiptIdOf, ws, id);
    }
  }

  lemma ConflictOrder(u: set<Envelope>, c: Conflict, ws: seq<Envelope>)
    requires IsConflict(u, c, ws) && forall e :: InDispute(u, c.key, e) <==> e in ws
    ensures forall i, j :: 0 <= i < j < |c.receiptIds| ==> ListedInOrder(u, c, i, j)
  {
    forall i, j | 0 <= i < j < |c.receiptIds|
      ensures ListedInOrder(u, c, i, j)
    {
      HashReceiptLess(ws[i], ws[j]);
      assert ws[i] in ws && ws[j] in ws;
      assert ListedAs(u, c, i, j, ws[i], ws[j]);
    }
  }

  lemma HashReceiptLess(e: Envelope, f: Envelope)
    requires KeyLess(HashReceiptKey(e), HashReceiptKey(f))
    ensures HashBefore(e, f)
  {
    var a, b := HashReceiptKey(e), HashReceiptKey(f);
    assert a[1..] == [S(e.receiptId)] && b[1..] == [S(f.receiptId)];
    assert KeyLess([S(e.receiptId)], [S(f.receiptId)]) ==> StringLess(e.receiptId, f.receiptId) by {
      assert [S(e.receiptId)][1..] == [] && [S(f.receiptId)][1..] == [];
      assert !KeyLess([], []);
    }
  }

  /** Records are listed by source (mockpay before threadline_shop), then by the name of their kind, then by id. */
  predicate ListedBefore(a: RecordKey, b: RecordKey) {
    (a.kind == b.kind && StringLess(a.id, b.id)) || (a.kind == FeeType && b.kind != FeeType) ||
    (a.kind == PaymentType && b.kind != FeeType && b.kind != PaymentType) ||
    (a.kind == PayoutType && (b.kind == RefundType || b.kind == SettlementLineType || b.kind == OrderType)) ||
    (a.kind == RefundType && (b.kind == SettlementLineType || b.kind == OrderType)) ||
    (a.kind == SettlementLineType && b.kind == OrderType)
  }

  /** The order of the current records and of the conflicts. */
  lemma OutcomesInOrder(u: set<Envelope>, r: CanonicalizationResult)
    requires ReceiptsAgree(u) && IsCanonicalization(u, r)
    ensures forall i, j :: 0 <= i < j < |r.records| ==> ListedBefore(KeyOf(r.records[i]), KeyOf(r.records[j]))
    ensures forall i, j :: 0 <= i < j < |r.conflicts| ==> ListedBefore(r.conflicts[i].key, r.conflicts[j].key)
  {
    forall i, j | 0 <= i < j < |r.records|
      ensures ListedBefore(KeyOf(r.records[i]), KeyOf(r.records[j]))
    {
      IdentityLess(KeyOf(r.records[i]), KeyOf(r.records[j]));
    }
    AtMostOneOutcome(u, r);
    forall i, j | 0 <= i < j < |r.conflicts|
      ensures ListedBefore(r.conflicts[i].key, r.conflicts[j].key)
    {
      PrefixedLess(r.conflicts[i].key, r.conflicts[j].key, [N(r.conflicts[i].version)], [N(r.conflicts[j].version)]);
    }
  }

  lemma PrefixedLess(a: RecordKey, b: RecordKey, x: Key, y: Key)
    requires a != b && KeyLess(IdentityKey(a) + x, IdentityKey(b) + y)
    ensures ListedBefore(a, b)
  {
    var p, q := IdentityKey(a) + x, IdentityKey(b) + y;
    assert p[1..] == [S(a.id)] + x && q[1..] == [S(b.id)] + y;
    assert p[1..][1..] == x && q[1..][1..] == y;
  }

  lemma IdentityLess(a: RecordKey, b: RecordKey)
    requires KeyLess(IdentityKey(a), IdentityKey(b))
    ensures ListedBefore(a, b)
  {
    KeyLessOrder(IdentityKey(a), IdentityKey(a), IdentityKey(a));
    assert IdentityKey(a) + [] == IdentityKey(a) && IdentityKey(b) + [] == IdentityKey(b);
    PrefixedLess(a, b, [], []);
  }
}
