/** Rebuilding a run from stored receipts, and making its conflict evidence independent of deliveries. */
module Rebuild {
  import opened Sequences
  import opened Contracts
  import opened Rules
  import opened Ledger
  import opened Reconciliation
  import opened Canonicalize
  import opened Exceptions
  import opened Publication
  import Reconciler

  datatype BatchStatus = Processing | Committed | FailedBatch

  datatype ReceiptState = Unresolved | Resolved(disposition: Disposition) | Quarantined(reason: string)

  /** A row of `source_receipt` joined with its batch. `parsed` is what the contract parser makes of the raw payload. */
  datatype StoredReceipt = StoredReceipt(receiptId: string, batchId: int, row: int, receivedAt: int, key: RecordKey,
                                         version: int, payloadHash: string,
                                         parsed: Option<FinancialRecord>, state: ReceiptState, status: BatchStatus)

  datatype RebuildError =
    | BlankReason
    | UncommittedEvidence
    | UnresolvedReceipt
    | ContractViolation
    | SourceIdMismatch
    | SourceVersionMismatch
    | ReceiptIdConflict
    | MissingConflictEvidence
    | NotReconcilable(reason: ReconcileError)

  // ---- Receipts to envelopes ----

  predicate Finalized(r: StoredReceipt) {
    r.status == Committed || r.status == FailedBatch
  }

  function FinalizedRow(r: StoredReceipt): bool { Finalized(r) }

  function BatchRowKey(r: StoredReceipt): Key { [N(r.batchId), N(r.row)] }

  /** The first check one receipt fails, if any. */
  function RowError(r: StoredReceipt): Option<RebuildError> {
    if r.state.Quarantined? then (if BlankText(r.state.reason) then Some(BlankReason) else None)
    else if r.status != Committed then Some(UncommittedEvidence)
    else if r.state.Unresolved? then Some(UnresolvedReceipt)
    else if r.parsed.None? then Some(ContractViolation)
    else if KeyOf(r.parsed.value).id != r.key.id then Some(SourceIdMismatch)
    else if VersionOf(r.parsed.value) != r.version then Some(SourceVersionMismatch)
    else None
  }

  predicate IsEvidence(r: StoredReceipt) {
    Finalized(r) && !r.state.Quarantined?
  }

  function MakeEnvelope(hash: FinancialRecord -> string, r: StoredReceipt): Envelope
    requires r.parsed.Some?
  {
    Envelope(r.receiptId, r.parsed.value, hash(r.parsed.value))
  }

  function EnvelopesIn(hash: FinancialRecord -> string): StoredReceipt -> seq<Envelope> {
    (r: StoredReceipt) => if !r.state.Quarantined? && r.parsed.Some? then [MakeEnvelope(hash, r)] else []
  }

  ghost predicate Injective(hash: FinancialRecord -> string) {
    forall x, y :: hash(x) == hash(y) ==> x == y
  }

  /** What ingestion guarantees about the table: unique receipt ids, and a parsed payload that is of the stored
      entity type and hashes to the stored hash. */
  ghost predicate Stored(hash: FinancialRecord -> string, table: seq<StoredReceipt>) {
    DistinctReceipts(table) &&
    (forall r :: r in table && r.parsed.Some? ==>
     KeyOf(r.parsed.value).kind == r.key.kind && r.payloadHash == hash(r.parsed.value))
  }

  /** Every finalized receipt passes its checks. */
  ghost predicate Readable(table: seq<StoredReceipt>) {
    forall r :: r in table && Finalized(r) ==> RowError(r).None?
  }

  /** The envelopes of a readable table. */
  ghost function Received(hash: FinancialRecord -> string, table: seq<StoredReceipt>): set<Envelope>
    requires Readable(table)
  {
    set r | r in table && IsEvidence(r) :: MakeEnvelope(hash, r)
  }

  ghost predicate FirstFailing(receipts: seq<StoredReceipt>, j: int) {
    0 <= j < |receipts| && RowError(receipts[j]).Some? && forall i :: 0 <= i < j ==> RowError(receipts[i]).None?
  }

  /** Sorts the receipts into envelopes and quarantine evidence; none is lost. */
  method ReadRows(hash: FinancialRecord -> string, receipts: seq<StoredReceipt>)
    returns (r: Result<seq<Envelope>, RebuildError>, quarantined: nat)
    ensures r.Success? ==> r.value == FlatMap(EnvelopesIn(hash), receipts) && forall j :: 0 <= j < |receipts| ==>
      RowError(receipts[j]).None?
    ensures r.Success? ==> |r.value| + quarantined == |receipts|
    ensures r.Failure? ==> exists j :: FirstFailing(receipts, j) && RowError(receipts[j]) == Some(r.error)
  {
    var envelopes: seq<Envelope> := [];
    quarantined := 0;
    for i := 0 to |receipts|
      invariant forall j :: 0 <= j < i ==> RowError(receipts[j]).None?
      invariant envelopes == FlatMap(EnvelopesIn(hash), receipts[..i])
      invariant |envelopes| + quarantined == i
    {
      var x := receipts[i];
      var error := RowError(x);
      if error.Some? {
        assert FirstFailing(receipts, i);
        return Failure(error.value), quarantined;
      }
      EnvelopesStep(hash, receipts, i);
      if x.state.Quarantined? {
        quarantined := quarantined + 1;
      } else {
        envelopes := envelopes + [MakeEnvelope(hash, x)];
      }
    }
    assert receipts[..|receipts|] == receipts;
    r := Success(envelopes);
  }

  lemma EnvelopesStep(hash: FinancialRecord -> string, receipts: seq<StoredReceipt>, i: nat)
    requires i < |receipts| && RowError(receipts[i]).None?
    ensures FlatMap(EnvelopesIn(hash), receipts[..i + 1]) ==
      FlatMap(EnvelopesIn(hash), receipts[..i]) + if receipts[i].state.Quarantined? then []
            else [MakeEnvelope(hash, receipts[i])]
  {
    assert receipts[..i + 1] == receipts[..i] + [receipts[i]];
    FlatMapAppend(EnvelopesIn(hash), receipts[..i], receipts[i]);
  }

  method ReadReceipts(hash: FinancialRecord -> string, table: seq<StoredReceipt>)
    returns (r: Result<seq<Envelope>, RebuildError>, quarantined: nat)
    ensures r.Success? ==> Readable(table) && Elements(r.value) == Received(hash, table)
    ensures r.Success? ==> |r.value| + quarantined == |Filter(FinalizedRow, table)|
    ensures r.Failure? ==> exists x :: FirstUnreadable(table, x) && RowError(x) == Some(r.error)
  {
    var receipts := Sort(BatchRowKey, Filter(FinalizedRow, table));
    FinalizedRows(table);
    r, quarantined := ReadRows(hash, receipts);
    if r.Success? {
      AllRead(hash, table, receipts, r.value);
    } else {
      ghost var j :| FirstFailing(receipts, j) && RowError(receipts[j]) == Some(r.error);
      SortSorted(BatchRowKey, Filter(FinalizedRow, table));
      FirstOfSorted(table, receipts, j);
    }
  }

  /** The first finalized receipt, by batch and row, that fails a check. */
  ghost predicate FirstUnreadable(table: seq<StoredReceipt>, x: StoredReceipt) {
    x in table && Finalized(x) && RowError(x).Some? &&
    forall y :: y in table && Finalized(y) && KeyLess(BatchRowKey(y), BatchRowKey(x)) ==> RowError(y).None?
  }

  lemma FirstOfSorted(table: seq<StoredReceipt>, receipts: seq<StoredReceipt>, j: nat)
    requires Sorted(BatchRowKey, receipts) && forall x :: x in receipts <==> x in table && Finalized(x)
    requires FirstFailing(receipts, j)
    ensures FirstUnreadable(table, receipts[j])
  {
    assert receipts[j] in receipts;
    forall y | y in table && Finalized(y) && KeyLess(BatchRowKey(y), BatchRowKey(receipts[j]))
      ensures RowError(y).None?
    {
      assert y in receipts;
      var i :| 0 <= i < |receipts| && receipts[i] == y;
      KeyLessOrder(BatchRowKey(y), BatchRowKey(y), BatchRowKey(y));
    }
  }

  lemma FinalizedRows(table: seq<StoredReceipt>)
    ensures forall x :: x in Sort(BatchRowKey, Filter(FinalizedRow, table)) <==> x in table && Finalized(x)
    ensures |Sort(BatchRowKey, Filter(FinalizedRow, table))| == |Filter(FinalizedRow, table)|
  {
    SortMembers(BatchRowKey, Filter(FinalizedRow, table));
    FilterMembers(FinalizedRow, table);
  }

  lemma AllRead(hash: FinancialRecord -> string, table: seq<StoredReceipt>, receipts: seq<StoredReceipt>,
                envelopes: seq<Envelope>)
    requires forall x :: x in receipts <==> x in table && Finalized(x)
    requires forall j :: 0 <= j < |receipts| ==> RowError(receipts[j]).None?
    requires envelopes == FlatMap(EnvelopesIn(hash), receipts)
    ensures Readable(table) && Elements(envelopes) == Received(hash, table)
  {
    forall x | x in table && Finalized(x)
      ensures RowError(x).None?
    {
      assert x in receipts;
    }
    forall e
      ensures e in envelopes <==> e in Received(hash, table)
    {
      FlatMapMember(EnvelopesIn(hash), receipts, e);
      if e in Received(hash, table) {
        var x :| x in table && IsEvidence(x) && MakeEnvelope(hash, x) == e;
        assert x in receipts && e in EnvelopesIn(hash)(x);
      }
      if e in envelopes {
        var x :| x in receipts && e in EnvelopesIn(hash)(x);
        assert IsEvidence(x);
      }
    }
  }

  // ---- Stable conflict evidence ----

  method EvidenceByReceipt(table: seq<StoredReceipt>, ids: set<string>) returns (m: map<string, Reference>)
    requires DistinctReceipts(table)
    ensures forall id :: id in m <==> id in ids && exists r :: r in table && r.status == Committed && r.receiptId == id
    ensures forall r :: r in table && r.receiptId in m && r.status == Committed ==>
      m[r.receiptId] == VariantReference(r.key, r.version, r.payloadHash)
  {
    m := map[];
    for i := 0 to |table|
      invariant forall id :: id in m <==>
        id in ids && exists j :: 0 <= j < i && table[j].status == Committed && table[j].receiptId == id
      invariant forall j :: 0 <= j < i && table[j].receiptId in m && table[j].status == Committed ==>
        m[table[j].receiptId] == VariantReference(table[j].key, table[j].version, table[j].payloadHash)
    {
      var r := table[i];
      if r.status == Committed && r.receiptId in ids {
        m := m[r.receiptId := VariantReference(r.key, r.version, r.payloadHash)];
      }
    }
    forall r | r in table && r.status == Committed && r.receiptId in ids
      ensures r.receiptId in m
    {
      var j :| 0 <= j < |table| && table[j] == r;
    }
  }

  predicate Covered(m: map<string, Reference>, support: set<Reference>) {
    forall x :: x in support ==> x.ReceiptReference? && x.receiptId in m
  }

  function Replaced(m: map<string, Reference>, support: set<Reference>): set<Reference> {
    set x | x in support && x.ReceiptReference? && x.receiptId in m :: m[x.receiptId]
  }

  function Stabilized(m: map<string, Reference>): FinancialException -> FinancialException {
    (e: FinancialException) => if IsConflictException(e) then e.(support := Replaced(m, e.support)) else e
  }

  method ReplaceConflictEvidence(exceptions: seq<FinancialException>, m: map<string, Reference>)
    returns (r: Result<seq<FinancialException>, RebuildError>)
    ensures r.Success? <==> forall e :: e in exceptions && IsConflictException(e) ==> Covered(m, e.support)
    ensures r == if r.Success? then Success(Map(Stabilized(m), exceptions)) else Failure(MissingConflictEvidence)
  {
    var replaced: seq<FinancialException> := [];
    for i := 0 to |exceptions|
      invariant forall j :: 0 <= j < i && IsConflictException(exceptions[j]) ==> Covered(m, exceptions[j].support)
      invariant replaced == Map(Stabilized(m), exceptions[..i])
    {
      var e := exceptions[i];
      assert exceptions[..i + 1] == exceptions[..i] + [e];
      MapAppend(Stabilized(m), exceptions[..i], e);
      if !IsConflictException(e) {
        replaced := replaced + [e];
        continue;
      }
      if !Covered(m, e.support) {
        assert e in exceptions;
        return Failure(MissingConflictEvidence);
      }
      replaced := replaced + [e.(support := Replaced(m, e.support))];
    }
    assert exceptions[..|exceptions|] == exceptions;
    r := Success(replaced);
  }

  /** A conflict as its variants show it, without naming receipts. */
  function StableConflictExceptions(run: Run): Conflict -> seq<FinancialException> {
    (c: Conflict) =>
      [NewException(run, SameVersionConflictRule, ConflictingSourceVersion, RecordSubject(c.key), None, None,
                    VariantsOf(c))]
  }

  function StableExceptions(run: Run, records: seq<FinancialRecord>, conflicts: seq<Conflict>,
                            completeness: seq<CompletenessResult>): seq<FinancialException> {
    var sorted := Sort(StatusKey, completeness);
    Published(FlatMap(CompletenessExceptions(run), sorted) + FlatMap(StableConflictExceptions(run), conflicts)
              + RecordExceptions(run, StatesOf(sorted), Split(records)))
  }

  /** The rebuilt result as a function of the canonicalization: exceptions cite variants, never receipts. */
  ghost function StableResultFor(run: Run, c: CanonicalizationResult,
                                 completeness: seq<CompletenessResult>): Result<ReconciliationResult, ReconcileError> {
    var r := ResultFor(run, c.records, c.conflicts, completeness);
    if r.Failure? then r
      else Success(r.value.(exceptions := StableExceptions(run, c.records, c.conflicts, completeness)))
  }

  lemma PublishedMap(g: FinancialException -> FinancialException, raw: seq<FinancialException>)
    requires forall e :: e in raw ==> ExceptionId(g(e)) == ExceptionId(e) && ExceptionKey(g(e)) == ExceptionKey(e)
    ensures Map(g, Published(raw)) == Published(Map(g, raw))
  {
    KeepLastMap(ExceptionId, g, raw);
    SortMap(ExceptionKey, g, KeepLast(ExceptionId, raw));
  }

  lemma StabilizedKeepsKeys(m: map<string, Reference>, e: FinancialException)
    ensures ExceptionId(Stabilized(m)(e)) == ExceptionId(e) && ExceptionKey(Stabilized(m)(e)) == ExceptionKey(e)
  {
  }

  /** Every receipt has its variant reference. */
  ghost predicate References(m: map<string, Reference>, u: set<Envelope>) {
    forall e :: e in u ==>
      e.receiptId in m && m[e.receiptId] == VariantReference(IdentityOf(e), SourceVersion(e), e.payloadHash)
  }

  lemma CitedWinner(u: set<Envelope>, m: map<string, Reference>, c: Conflict, ws: seq<Envelope>, i: nat)
    requires IsConflict(u, c, ws) && References(m, u) && i < |ws|
    ensures c.receiptIds[i] in m && m[c.receiptIds[i]] == VariantReference(c.key, c.version, ws[i].payloadHash) &&
      ws[i].payloadHash in c.hashes
  {
    assert ws[i] in ws && WinsConflict(u, c.key, ws[i]) && HashOf(ws[i]) == ws[i].payloadHash;
    assert ws[0] in ws && WinsConflict(u, c.key, ws[0]);
  }

  function CitedBy(c: Conflict): set<Reference> {
    set id | id in c.receiptIds :: ReceiptReference(id)
  }

  function VariantsOf(c: Conflict): set<Reference> {
    set h | h in c.hashes :: VariantReference(c.key, c.version, h)
  }

  lemma CitedVariants(u: set<Envelope>, m: map<string, Reference>, c: Conflict)
    requires ConflictOf(u, c) && References(m, u)
    ensures Replaced(m, CitedBy(c)) == VariantsOf(c)
  {
    var ws :| IsConflict(u, c, ws);
    forall x | x in Replaced(m, CitedBy(c))
      ensures x in VariantsOf(c)
    {
      var r :| r in CitedBy(c) && r.ReceiptReference? && r.receiptId in m && m[r.receiptId] == x;
      var i :| 0 <= i < |c.receiptIds| && c.receiptIds[i] == r.receiptId;
      CitedWinner(u, m, c, ws, i);
    }
    forall x | x in VariantsOf(c)
      ensures x in Replaced(m, CitedBy(c))
    {
      var h :| h in c.hashes && x == VariantReference(c.key, c.version, h);
      var w :| w in ws && HashOf(w) == h;
      var i :| 0 <= i < |ws| && ws[i] == w;
      CitedWinner(u, m, c, ws, i);
      assert ReceiptReference(c.receiptIds[i]) in CitedBy(c);
    }
  }

  lemma StableConflict(run: Run, u: set<Envelope>, m: map<string, Reference>, c: Conflict)
    requires ConflictOf(u, c) && References(m, u)
    ensures Map(Stabilized(m), ConflictExceptions(run)(c)) == StableConflictExceptions(run)(c)
  {
    CitedVariants(u, m, c);
    var e := ConflictExceptions(run)(c)[0];
    assert ConflictExceptions(run)(c) == [e] && e.support == CitedBy(c);
    assert Stabilized(m)(e) == e.(support := VariantsOf(c));
    assert Map(Stabilized(m), [e]) == [Stabilized(m)(e)];
  }

  lemma StablePublished(run: Run, u: set<Envelope>, c: CanonicalizationResult, m: map<string, Reference>,
                        a: seq<FinancialException>, r: seq<FinancialException>)
    requires IsCanonicalization(u, c) && References(m, u) && FromRules(run, a) && FromRules(run, r)
    ensures Map(Stabilized(m), Published(a + FlatMap(ConflictExceptions(run), c.conflicts) + r))
         == Published(a + FlatMap(StableConflictExceptions(run), c.conflicts) + r)
  {
    var raw := a + FlatMap(ConflictExceptions(run), c.conflicts) + r;
    forall e | e in raw
      ensures ExceptionId(Stabilized(m)(e)) == ExceptionId(e) && ExceptionKey(Stabilized(m)(e)) == ExceptionKey(e)
    {
      StabilizedKeepsKeys(m, e);
    }
    PublishedMap(Stabilized(m), raw);
    StableParts(run, u, c, m, a, r);
  }

  lemma StableEvidence(run: Run, u: set<Envelope>, c: CanonicalizationResult, m: map<string, Reference>,
                       completeness: seq<CompletenessResult>)
    requires IsCanonicalization(u, c) && References(m, u)
    ensures var sorted := Sort(StatusKey, completeness);
      Map(Stabilized(m), Published(FlatMap(CompletenessExceptions(run), sorted)
                                   + FlatMap(ConflictExceptions(run), c.conflicts)
                                   + RecordExceptions(run, StatesOf(sorted), Split(c.records))))
      == StableExceptions(run, c.records, c.conflicts, completeness)
  {
    var sorted := Sort(StatusKey, completeness);
    CompletenessFromRules(run, sorted);
    RecordExceptionsFromRules(run, StatesOf(sorted), Split(c.records));
    StablePublished(run, u, c, m, FlatMap(CompletenessExceptions(run), sorted),
                    RecordExceptions(run, StatesOf(sorted), Split(c.records)));
  }

  lemma StableParts(run: Run, u: set<Envelope>, c: CanonicalizationResult, m: map<string, Reference>,
                    a: seq<FinancialException>, r: seq<FinancialException>)
    requires IsCanonicalization(u, c) && References(m, u) && FromRules(run, a) && FromRules(run, r)
    ensures Map(Stabilized(m), a + FlatMap(ConflictExceptions(run), c.conflicts) + r) == a
      + FlatMap(StableConflictExceptions(run), c.conflicts) + r
  {
    var b := FlatMap(ConflictExceptions(run), c.conflicts);
    MapIdentity(Stabilized(m), a);
    MapIdentity(Stabilized(m), r);
    forall x | x in c.conflicts
      ensures Map(Stabilized(m), ConflictExceptions(run)(x)) == StableConflictExceptions(run)(x)
    {
      StableConflict(run, u, m, x);
    }
    MapFlatMap(Stabilized(m), ConflictExceptions(run), StableConflictExceptions(run), c.conflicts);
    MapConcat(Stabilized(m), a, b);
    MapConcat(Stabilized(m), a + b, r);
  }

  // ---- The rebuild ----

  function CitedReceipts(exceptions: seq<FinancialException>): set<string> {
    set e, x | e in exceptions && IsConflictException(e) && x in e.support && x.ReceiptReference? :: x.receiptId
  }

  /** Looking up only the cited receipts replaces the same evidence as looking up every receipt. */
  lemma CitedSuffices(exceptions: seq<FinancialException>, cited: map<string, Reference>, all: map<string, Reference>)
    requires forall e :: e in exceptions && IsConflictException(e) ==> Covered(cited, e.support)
    requires forall id :: id in cited ==> id in all && all[id] == cited[id]
    ensures Map(Stabilized(cited), exceptions) == Map(Stabilized(all), exceptions)
  {
    forall e | e in exceptions
      ensures Stabilized(cited)(e) == Stabilized(all)(e)
    {
      if IsConflictException(e) {
        assert Replaced(cited, e.support) == Replaced(all, e.support);
      }
    }
    MapAgree(Stabilized(cited), Stabilized(all), exceptions);
  }

  lemma ReceivedAgrees(hash: FinancialRecord -> string, table: seq<StoredReceipt>)
    requires Injective(hash) && Stored(hash, table) && Readable(table)
    ensures FaithfulHashes(Received(hash, table)) && ReceiptsAgree(Received(hash, table))
  {
    forall e, f | e in Received(hash, table) && f in Received(hash, table) && e.receiptId == f.receiptId
      ensures e == f
    {
      var x :| x in table && IsEvidence(x) && MakeEnvelope(hash, x) == e;
      var y :| y in table && IsEvidence(y) && MakeEnvelope(hash, y) == f;
      var i :| 0 <= i < |table| && table[i] == x;
      var j :| 0 <= j < |table| && table[j] == y;
    }
  }

  ghost function AllReferences(table: seq<StoredReceipt>): map<string, Reference> {
    if table == [] then map[]
    else
      var r := table[|table| - 1];
      if r.status == Committed
        then AllReferences(table[..|table| - 1])[r.receiptId := VariantReference(r.key, r.version, r.payloadHash)]
      else AllReferences(table[..|table| - 1])
  }

  ghost predicate DistinctReceipts(table: seq<StoredReceipt>) {
    forall i, j :: 0 <= i < j < |table| ==> table[i].receiptId != table[j].receiptId
  }

  lemma {:induction false} AllReferencesHas(table: seq<StoredReceipt>, i: nat)
    requires DistinctReceipts(table) && i < |table| && table[i].status == Committed
    ensures table[i].receiptId in AllReferences(table)
    ensures AllReferences(table)[table[i].receiptId]
      == VariantReference(table[i].key, table[i].version, table[i].payloadHash)
    decreases |table|
  {
    if i < |table| - 1 {
      AllReferencesHas(table[..|table| - 1], i);
      assert table[i].receiptId != table[|table| - 1].receiptId;
    }
  }

  lemma AllReferencesComplete(table: seq<StoredReceipt>)
    requires DistinctReceipts(table)
    ensures forall r :: r in table && r.status == Committed ==>
      r.receiptId in AllReferences(table) &&
      AllReferences(table)[r.receiptId] == VariantReference(r.key, r.version, r.payloadHash)
  {
    forall r | r in table && r.status == Committed
      ensures r.receiptId in AllReferences(table) &&
        AllReferences(table)[r.receiptId] == VariantReference(r.key, r.version, r.payloadHash)
    {
      var i :| 0 <= i < |table| && table[i] == r;
      AllReferencesHas(table, i);
    }
  }

  /** Stored receipts of envelopes are committed, and their stored columns describe the envelope. */
  lemma ReceivedReferences(hash: FinancialRecord -> string, table: seq<StoredReceipt>)
    requires Stored(hash, table) && Readable(table)
    ensures References(AllReferences(table), Received(hash, table))
  {
    AllReferencesComplete(table);
    forall e | e in Received(hash, table)
      ensures e.receiptId in AllReferences(table)
      ensures AllReferences(table)[e.receiptId] == VariantReference(IdentityOf(e), SourceVersion(e), e.payloadHash)
    {
      var x :| x in table && IsEvidence(x) && MakeEnvelope(hash, x) == e;
      assert RowError(x).None?;
      assert IdentityOf(e) == x.key;
    }
  }

  /** What a rebuild returns for a canonicalization of the stored evidence. */
  ghost function Outcome(run: Run, c: CanonicalizationResult,
                         completeness: seq<CompletenessResult>): Result<ReconciliationResult, RebuildError> {
    match StableResultFor(run, c, completeness)
    case Success(x) => Success(x)
    case Failure(e) => Failure(NotReconcilable(e))
  }

  /** Receipts to envelopes, canonicalization, reconciliation, stable conflict evidence. A readable table never
      fails for any reason but the reconciler's own. */
  method BuildCandidate(hash: FinancialRecord -> string, table: seq<StoredReceipt>, run: Run,
                        completeness: seq<CompletenessResult>)
    returns (r: Result<ReconciliationResult, RebuildError>)
    requires Injective(hash) && Stored(hash, table)
    ensures !Readable(table) ==> r.Failure? && exists x :: FirstUnreadable(table, x) && RowError(x) == Some(r.error)
    ensures Readable(table) ==>
      exists c :: IsCanonicalization(Received(hash, table), c) && r == Outcome(run, c, completeness)
  {
    var envelopes, _ := ReadReceipts(hash, table);
    if envelopes.Failure? {
      return Failure(envelopes.error);
    }
    ReceivedAgrees(hash, table);
    ghost var u := Received(hash, table);
    var canonical := Canonicalize.Canonicalize(envelopes.value);
    if canonical.Failure? {
      return Failure(ReceiptIdConflict);
    }
    var c := canonical.value;
    AtMostOneOutcome(u, c);
    var reconciled := Reconciler.Reconcile(run, c.records, c.conflicts, completeness);
    if reconciled.Failure? {
      return Failure(NotReconcilable(reconciled.error));
    }
    var result := reconciled.value;
    ReceivedReferences(hash, table);
    ReconciledStable(run, u, c, AllReferences(table), completeness, result);
    var stable := StabilizeConflictEvidence(table, result.exceptions, AllReferences(table));
    r := if stable.Success? then Success(result.(exceptions := stable.value)) else Failure(MissingConflictEvidence);
  }

  lemma ReconciledStable(run: Run, u: set<Envelope>, c: CanonicalizationResult, all: map<string, Reference>,
                         completeness: seq<CompletenessResult>,
                         result: ReconciliationResult)
    requires IsCanonicalization(u, c) && References(all, u)
    requires ResultFor(run, c.records, c.conflicts, completeness) == Success(result)
    ensures Map(Stabilized(all), result.exceptions) == StableExceptions(run, c.records, c.conflicts, completeness)
    ensures forall e :: e in result.exceptions && IsConflictException(e) ==> Covered(all, e.support)
  {
    StableEvidence(run, u, c, all, completeness);
    forall e | e in result.exceptions && IsConflictException(e)
      ensures Covered(all, e.support)
    {
      ConflictsCovered(run, u, c, all, completeness, e);
    }
  }

  lemma PublishedFrom(raw: seq<FinancialException>, e: FinancialException)
    requires e in Published(raw)
    ensures e in raw
  {
    SortMembers(ExceptionKey, KeepLast(ExceptionId, raw));
    KeepLastEntries(ExceptionId, raw);
  }

  lemma PublishedCovered(run: Run, u: set<Envelope>, c: CanonicalizationResult, all: map<string, Reference>,
                         a: seq<FinancialException>, r: seq<FinancialException>, e: FinancialException)
    requires IsCanonicalization(u, c) && References(all, u) && FromRules(run, a) && FromRules(run, r) &&
      IsConflictException(e)
    requires e in Published(a + FlatMap(ConflictExceptions(run), c.conflicts) + r)
    ensures Covered(all, e.support)
  {
    var b := FlatMap(ConflictExceptions(run), c.conflicts);
    PublishedFrom(a + b + r, e);
    assert e in b;
    FlatMapMember(ConflictExceptions(run), c.conflicts, e);
    var x :| x in c.conflicts && e in ConflictExceptions(run)(x);
    CitesWinners(run, u, all, x);
  }

  lemma ConflictsCovered(run: Run, u: set<Envelope>, c: CanonicalizationResult, all: map<string, Reference>,
                         completeness: seq<CompletenessResult>,
                         e: FinancialException)
    requires IsCanonicalization(u, c) && References(all, u) && IsConflictException(e)
    requires var sorted := Sort(StatusKey, completeness);
      e in Published(FlatMap(CompletenessExceptions(run), sorted) + FlatMap(ConflictExceptions(run), c.conflicts)
                     + RecordExceptions(run, StatesOf(sorted), Split(c.records)))
    ensures Covered(all, e.support)
  {
    var sorted := Sort(StatusKey, completeness);
    CompletenessFromRules(run, sorted);
    RecordExceptionsFromRules(run, StatesOf(sorted), Split(c.records));
    PublishedCovered(run, u, c, all, FlatMap(CompletenessExceptions(run), sorted),
                     RecordExceptions(run, StatesOf(sorted), Split(c.records)), e);
  }

  lemma CitesWinners(run: Run, u: set<Envelope>, all: map<string, Reference>, x: Conflict)
    requires ConflictOf(u, x) && References(all, u)
    ensures forall e :: e in ConflictExceptions(run)(x) ==> Covered(all, e.support)
  {
    var ws :| IsConflict(u, x, ws);
    forall id | id in x.receiptIds
      ensures id in all
    {
      var i :| 0 <= i < |x.receiptIds| && x.receiptIds[i] == id;
      assert ws[i] in ws && WinsConflict(u, x.key, ws[i]) && ReceiptIdOf(ws[i]) == id;
    }
  }

  /** Looks up the cited receipts in the table; nothing is looked up when no conflict is reported. */
  method StabilizeConflictEvidence(table: seq<StoredReceipt>, exceptions: seq<FinancialException>,
                                   ghost all: map<string, Reference>)
    returns (r: Result<seq<FinancialException>, RebuildError>)
    requires DistinctReceipts(table)
    requires all == AllReferences(table)
    requires forall e, x :: e in exceptions && IsConflictException(e) && x in e.support ==> x.ReceiptReference?
    ensures r.Success? <==> forall e :: e in exceptions && IsConflictException(e) ==> Covered(all, e.support)
    ensures r.Success? ==> r.value == Map(Stabilized(all), exceptions)
    ensures r.Failure? ==> r.error == MissingConflictEvidence
  {
    var ids := CitedReceipts(exceptions);
    AllReferencesComplete(table);
    AllReferencesOnly(table);
    if ids == {} {
      Uncited(exceptions, all);
      return Success(exceptions);
    }
    var m := EvidenceByReceipt(table, ids);
    CitedKnown(table, exceptions, m, all);
    r := ReplaceConflictEvidence(exceptions, m);
    if r.Success? {
      CitedSuffices(exceptions, m, all);
    }
  }

  lemma {:induction false} AllReferencesOnly(table: seq<StoredReceipt>)
    ensures forall id :: id in AllReferences(table) ==>
      exists r :: r in table && r.status == Committed && r.receiptId == id
  {
    if table != [] {
      var init, last := table[..|table| - 1], table[|table| - 1];
      AllReferencesOnly(init);
      assert table == init + [last];
      forall id | id in AllReferences(table)
        ensures exists r :: r in table && r.status == Committed && r.receiptId == id
      {
        if id in AllReferences(init) {
          var r :| r in init && r.status == Committed && r.receiptId == id;
          assert r in table;
        } else {
          assert last in table;
        }
      }
    }
  }

  lemma Uncited(exceptions: seq<FinancialException>, all: map<string, Reference>)
    requires CitedReceipts(exceptions) == {}
    requires forall e, x :: e in exceptions && IsConflictException(e) && x in e.support ==> x.ReceiptReference?
    ensures Map(Stabilized(all), exceptions) == exceptions
    ensures forall e :: e in exceptions && IsConflictException(e) ==> e.support == {}
  {
    forall e | e in exceptions && IsConflictException(e)
      ensures e.support == {}
    {
      assert forall x :: x in e.support ==> x.receiptId in CitedReceipts(exceptions);
    }
    forall e | e in exceptions
      ensures Stabilized(all)(e) == e
    {
      if IsConflictException(e) {
        assert Replaced(all, e.support) == {};
      }
    }
    MapIdentity(Stabilized(all), exceptions);
  }

  lemma CitedKnown(table: seq<StoredReceipt>, exceptions: seq<FinancialException>, m: map<string, Reference>,
                   all: map<string, Reference>)
    requires all == AllReferences(table)
    requires DistinctReceipts(table)
    requires forall id :: id in m <==>
      id in CitedReceipts(exceptions) && exists r :: r in table && r.status == Committed && r.receiptId == id
    requires forall r :: r in table && r.receiptId in m && r.status == Committed ==>
      m[r.receiptId] == VariantReference(r.key, r.version, r.payloadHash)
    ensures forall id :: id in m ==> id in all && all[id] == m[id]
    ensures forall e :: e in exceptions && IsConflictException(e) ==>
      (Covered(m, e.support) <==> Covered(all, e.support))
  {
    AllReferencesComplete(table);
    AllReferencesOnly(table);
    forall e | e in exceptions && IsConflictException(e)
      ensures Covered(m, e.support) <==> Covered(all, e.support)
    {
      forall x | x in e.support && x.ReceiptReference?
        ensures x.receiptId in m <==> x.receiptId in all
      {
        assert x.receiptId in CitedReceipts(exceptions);
      }
    }
  }

  // ---- Duplicate safety and arrival-order independence, end to end ----

  ghost function Variants(u: set<Envelope>): set<Variant> {
    set e | e in u :: VariantOf(e)
  }

  /** Two deliveries of the same source history. */
  ghost predicate SameHistory(u: set<Envelope>, v: set<Envelope>) {
    Variants(u) == Variants(v) && FaithfulHashes(u + v) && ReceiptsAgree(u) && ReceiptsAgree(v)
  }

  lemma Counterpart(u: set<Envelope>, v: set<Envelope>, e: Envelope) returns (f: Envelope)
    requires SameHistory(u, v) && e in u
    ensures f in v && VariantOf(f) == VariantOf(e) && f.record == e.record
  {
    assert VariantOf(e) in Variants(v);
    f :| f in v && VariantOf(f) == VariantOf(e);
  }

  lemma SameStanding(u: set<Envelope>, v: set<Envelope>, e: Envelope, f: Envelope)
    requires SameHistory(u, v) && e in u && f in v && VariantOf(e) == VariantOf(f)
    ensures Winning(u, e) <==> Winning(v, f)
    ensures Contested(u, e) <==> Contested(v, f)
  {
    StandingCarries(u, v, e, f);
    StandingCarries(v, u, f, e);
  }

  lemma StandingCarries(u: set<Envelope>, v: set<Envelope>, e: Envelope, f: Envelope)
    requires SameHistory(u, v) && e in u && f in v && VariantOf(e) == VariantOf(f)
    ensures Winning(u, e) ==> Winning(v, f)
    ensures Contested(u, e) ==> Contested(v, f)
  {
    forall g | g in v && Winning(u, e) && IdentityOf(g) == IdentityOf(f)
      ensures SourceVersion(g) <= SourceVersion(f)
    {
      var h := Counterpart(v, u, g);
    }
    if Contested(u, e) {
      var g :| g in u && IdentityOf(g) == IdentityOf(e) && SourceVersion(g) == SourceVersion(e) &&
        g.payloadHash != e.payloadHash;
      var h := Counterpart(u, v, g);
    }
  }

  lemma AcceptedCarries(u: set<Envelope>, v: set<Envelope>, x: FinancialRecord)
    requires SameHistory(u, v) && AcceptedRecord(u, x)
    ensures AcceptedRecord(v, x)
  {
    var e :| e in u && e.record == x && DispositionIn(u, e) == Accepted;
    var f := Counterpart(u, v, e);
    var g := FirstOfVariant(v, f);
    SameStanding(u, v, e, g);
    assert DispositionIn(v, g) == Accepted && g.record == x;
  }

  function Bare(c: Conflict): Conflict { c.(receiptIds := []) }

  lemma WinnerCarries(u: set<Envelope>, v: set<Envelope>, k: RecordKey, e: Envelope) returns (f: Envelope)
    requires SameHistory(u, v) && WinsConflict(u, k, e)
    ensures WinsConflict(v, k, f) && VariantOf(f) == VariantOf(e)
  {
    f := Counterpart(u, v, e);
    SameStanding(u, v, e, f);
  }

  lemma SameHashes(u: set<Envelope>, v: set<Envelope>, c: Conflict, d: Conflict, h: string)
    requires SameHistory(u, v) && ConflictOf(u, c) && ConflictOf(v, d) && c.key == d.key && h in c.hashes
    ensures h in d.hashes
  {
    var cw :| IsConflict(u, c, cw);
    var dw :| IsConflict(v, d, dw);
    var e :| e in cw && HashOf(e) == h;
    var f := WinnerCarries(u, v, c.key, e);
    assert f in dw && HashOf(f) == h;
  }

  lemma SameHashList(u: set<Envelope>, v: set<Envelope>, c: Conflict, d: Conflict)
    requires SameHistory(u, v) && SameHistory(v, u) && ConflictOf(u, c) && ConflictOf(v, d) && c.key == d.key
    ensures c.hashes == d.hashes
  {
    forall h
      ensures h in c.hashes <==> h in d.hashes
    {
      if h in c.hashes {
        SameHashes(u, v, c, d, h);
      }
      if h in d.hashes {
        SameHashes(v, u, d, c, h);
      }
    }
    var cw :| IsConflict(u, c, cw);
    var dw :| IsConflict(v, d, dw);
    StrictlySortedUnique(StringKey, c.hashes, d.hashes);
  }

  lemma ConflictWinner(u: set<Envelope>, c: Conflict) returns (w: Envelope)
    requires ConflictOf(u, c)
    ensures WinsConflict(u, c.key, w)
  {
    var ws :| IsConflict(u, c, ws);
    w := ws[0];
    assert w in ws;
  }

  lemma ConflictCarries(u: set<Envelope>, v: set<Envelope>, r: CanonicalizationResult, s: CanonicalizationResult,
                        c: Conflict) returns (d: Conflict)
    requires SameHistory(u, v) && IsCanonicalization(u, r) && IsCanonicalization(v, s) && c in r.conflicts
    ensures d in s.conflicts && Bare(d) == Bare(c)
  {
    var w := ConflictWinner(u, c);
    var f := WinnerCarries(u, v, c.key, w);
    assert HasConflict(s.conflicts, c.key);
    d :| d in s.conflicts && d.key == c.key;
    assert u + v == v + u;
    SameHashList(u, v, c, d);
    WinnersShareVersion(u, v, c, d);
  }

  lemma WinnersShareVersion(u: set<Envelope>, v: set<Envelope>, c: Conflict, d: Conflict)
    requires SameHistory(u, v) && ConflictOf(u, c) && ConflictOf(v, d) && c.key == d.key
    ensures c.version == d.version
  {
    var cw :| IsConflict(u, c, cw);
    var dw :| IsConflict(v, d, dw);
    assert cw[0] in cw && WinsConflict(u, c.key, cw[0]);
    assert dw[0] in dw && WinsConflict(v, d.key, dw[0]);
    var f := WinnerCarries(u, v, c.key, cw[0]);
    assert SourceVersion(f) == c.version;
    assert Winning(v, f) && Winning(v, dw[0]);
  }

  lemma BareSorted(cs: seq<Conflict>)
    requires StrictlySorted(ConflictKey, cs)
    ensures StrictlySorted(ConflictKey, Map(Bare, cs))
  {
    forall i, j | 0 <= i < j < |cs|
      ensures KeyLess(ConflictKey(Map(Bare, cs)[i]), ConflictKey(Map(Bare, cs)[j]))
    {
      assert ConflictKey(Map(Bare, cs)[i]) == ConflictKey(cs[i]) && ConflictKey(Map(Bare, cs)[j]) == ConflictKey(cs[j]);
    }
  }

  lemma SameBareConflicts(u: set<Envelope>, v: set<Envelope>, r: CanonicalizationResult, s: CanonicalizationResult)
    requires SameHistory(u, v) && IsCanonicalization(u, r) && IsCanonicalization(v, s)
    ensures Map(Bare, r.conflicts) == Map(Bare, s.conflicts)
  {
    BareSorted(r.conflicts);
    BareSorted(s.conflicts);
    forall x
      ensures x in Map(Bare, r.conflicts) <==> x in Map(Bare, s.conflicts)
    {
      MapMember(Bare, r.conflicts, x);
      MapMember(Bare, s.conflicts, x);
      if c :| c in r.conflicts && Bare(c) == x {
        var d := ConflictCarries(u, v, r, s, c);
      }
      if c :| c in s.conflicts && Bare(c) == x {
        var d := ConflictCarries(v, u, s, r, c);
      }
    }
    StrictlySortedUnique(ConflictKey, Map(Bare, r.conflicts), Map(Bare, s.conflicts));
  }

  lemma {:induction false} StableOfBare(run: Run, cs: seq<Conflict>)
    ensures FlatMap(StableConflictExceptions(run), cs) == FlatMap(StableConflictExceptions(run), Map(Bare, cs))
  {
    if cs != [] {
      var init, last := cs[..|cs| - 1], cs[|cs| - 1];
      StableOfBare(run, init);
      assert VariantsOf(last) == VariantsOf(Bare(last));
      assert Map(Bare, cs)[..|cs| - 1] == Map(Bare, init);
    }
  }

  lemma SameRecords(u: set<Envelope>, v: set<Envelope>, r: CanonicalizationResult, s: CanonicalizationResult)
    requires SameHistory(u, v) && IsCanonicalization(u, r) && IsCanonicalization(v, s)
    ensures r.records == s.records
  {
    forall x
      ensures x in r.records <==> x in s.records
    {
      if AcceptedRecord(u, x) {
        AcceptedCarries(u, v, x);
      }
      if AcceptedRecord(v, x) {
        AcceptedCarries(v, u, x);
      }
    }
    StrictlySortedUnique(RecordIdentityKey, r.records, s.records);
  }

  /** The rebuilt transactions, movements, payouts and stable exceptions depend only on which variants were
      received: not on receipt ids, repetition or order. */
  lemma RebuildDependsOnVariants(u: set<Envelope>, v: set<Envelope>, r: CanonicalizationResult,
                                 s: CanonicalizationResult,
                                 run: Run, completeness: seq<CompletenessResult>)
    requires SameHistory(u, v) && IsCanonicalization(u, r) && IsCanonicalization(v, s)
    ensures Outcome(run, r, completeness) == Outcome(run, s, completeness)
  {
    SameRecords(u, v, r, s);
    SameBareConflicts(u, v, r, s);
    StableOfBare(run, r.conflicts);
    StableOfBare(run, s.conflicts);
  }

  /** The variants a table's evidence shows, in its own columns. */
  function StoredVariants(table: seq<StoredReceipt>): set<Variant> {
    set r | r in table && IsEvidence(r) :: Variant(r.key, r.version, r.payloadHash)
  }

  lemma ReceivedVariants(hash: FinancialRecord -> string, table: seq<StoredReceipt>)
    requires Stored(hash, table) && Readable(table)
    ensures Variants(Received(hash, table)) == StoredVariants(table)
  {
    forall r | r in table && IsEvidence(r)
      ensures VariantOf(MakeEnvelope(hash, r)) == Variant(r.key, r.version, r.payloadHash)
    {
      assert RowError(r).None?;
    }
    forall v | v in StoredVariants(table)
      ensures v in Variants(Received(hash, table))
    {
      var r :| r in table && IsEvidence(r) && v == Variant(r.key, r.version, r.payloadHash);
      assert MakeEnvelope(hash, r) in Received(hash, table);
    }
    forall v | v in Variants(Received(hash, table))
      ensures v in StoredVariants(table)
    {
      var e :| e in Received(hash, table) && VariantOf(e) == v;
      var r :| r in table && IsEvidence(r) && e == MakeEnvelope(hash, r);
    }
  }

  /** Two readable tables showing the same variants rebuild to the same candidate, whatever receipts, batches,
      repetitions and order they show them in. */
  method RebuildTwice(hash: FinancialRecord -> string, s: seq<StoredReceipt>, t: seq<StoredReceipt>, run: Run,
                      completeness: seq<CompletenessResult>)
    returns (a: Result<ReconciliationResult, RebuildError>, b: Result<ReconciliationResult, RebuildError>)
    requires Injective(hash) && Stored(hash, s) && Stored(hash, t) && Readable(s) && Readable(t) &&
      StoredVariants(s) == StoredVariants(t)
    ensures a == b
  {
    a := BuildCandidate(hash, s, run, completeness);
    b := BuildCandidate(hash, t, run, completeness);
    ghost var u, v := Received(hash, s), Received(hash, t);
    ghost var c :| IsCanonicalization(u, c) && a == Outcome(run, c, completeness);
    ghost var d :| IsCanonicalization(v, d) && b == Outcome(run, d, completeness);
    SameVariantsSameHistory(hash, s, t);
    RebuildDependsOnVariants(u, v, c, d, run, completeness);
  }

  lemma SameVariantsSameHistory(hash: FinancialRecord -> string, s: seq<StoredReceipt>, t: seq<StoredReceipt>)
    requires Injective(hash) && Stored(hash, s) && Stored(hash, t) && Readable(s) && Readable(t) &&
      StoredVariants(s) == StoredVariants(t)
    ensures SameHistory(Received(hash, s), Received(hash, t))
  {
    ReceivedVariants(hash, s);
    ReceivedVariants(hash, t);
    ReceivedAgrees(hash, s);
    ReceivedAgrees(hash, t);
  }

  lemma CanonicalOrdered(u: set<Envelope>, c: CanonicalizationResult)
    requires ReceiptsAgree(u) && IsCanonicalization(u, c)
    ensures Ordered(Split(c.records))
  {
    AtMostOneOutcome(u, c);
    SplitOrdered(c.records);
  }

  lemma StableConflictsSound(run: Run, conflicts: seq<Conflict>)
    ensures forall e :: e in FlatMap(StableConflictExceptions(run), conflicts) ==> SoundException(run, e)
  {
    forall e | e in FlatMap(StableConflictExceptions(run), conflicts)
      ensures SoundException(run, e)
    {
      FlatMapMember(StableConflictExceptions(run), conflicts, e);
    }
  }

  /** The candidate the recovery worker validates, built from any canonicalization: its arithmetic always holds,
      and it is publishable exactly when no reported fee id collides with a synthetic one. */
  lemma RebuiltPublishable(u: set<Envelope>, c: CanonicalizationResult, run: Run, completeness: seq<CompletenessResult>)
    requires ReceiptsAgree(u) && IsCanonicalization(u, c) && Outcome(run, c, completeness).Success?
    ensures var r := Outcome(run, c, completeness).value;
      (Publishable(r) <==> !SyntheticCollision(Split(c.records))) && ArithmeticHolds(r)
  {
    CanonicalOrdered(u, c);
    var sorted := Sort(StatusKey, completeness);
    StableConflictsSound(run, c.conflicts);
    AssembledSound(Outcome(run, c, completeness).value, run, StatesOf(sorted), Split(c.records),
                   FlatMap(StableConflictExceptions(run), c.conflicts), sorted);
  }
}
