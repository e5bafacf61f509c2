/** The evidence tables and the transaction that ingests one delivery. Each ingestion re-resolves only the
    entities of its own file; the tables still agree with a canonicalization of everything committed. */
module DurableIngestion {
  import opened Sequences
  import opened Contracts
  import opened Canonicalize
  import opened Rebuild

  datatype Resolution = Resolution(winning: int, conflicted: bool, selected: Option<string>)

  /** A parsed row of a delivery, or the reason it is quarantined. */
  datatype DeliveredRow = Invalid(sourceId: string, reason: string) | Parsed(record: FinancialRecord)

  datatype Delivery = Delivery(key: string, kind: EntityType, rows: seq<DeliveredRow>)

  /** The five tables. `versions` maps a variant to the receipt that first showed it. */
  datatype Tables = Tables(batches: map<string, int>, receipts: seq<StoredReceipt>, versions: map<Variant, string>,
                           resolutions: map<RecordKey, Resolution>, requests: map<int, int>)

  datatype Fault = NoFault | AfterEntityResolution | BeforeIngestionCommit | AfterIngestionCommit

  datatype IngestionOutcome =
    | Ingested(batchId: int, requestId: int)
    | Reused(batch: int, request: int)
    | Aborted
    | Unacknowledged

  // ---- Resolution of one entity ----

  function StoredVariant(r: StoredReceipt): Variant { Variant(r.key, r.version, r.payloadHash) }

  predicate EvidenceOf(r: StoredReceipt, k: RecordKey) {
    !r.state.Quarantined? && r.key == k
  }

  /** The winning version of an entity and whether its payloads disagree. */
  ghost predicate IsResolution(variants: set<Variant>, k: RecordKey, res: Resolution) {
    (exists v :: v in variants && v.key == k && v.version == res.winning) &&
    (forall v :: v in variants && v.key == k ==> v.version <= res.winning) &&
    (res.conflicted <==> Disputed(variants, k, res.winning)) &&
    (if res.conflicted then res.selected == None
     else res.selected.Some? && Variant(k, res.winning, res.selected.value) in variants)
  }

  ghost predicate Disputed(variants: set<Variant>, k: RecordKey, version: int) {
    exists g, h :: g != h && Variant(k, version, g) in variants && Variant(k, version, h) in variants
  }

  /** The disposition of a receipt under its entity's resolution: the receipt first seen is the accepted one. */
  function ClassOf(versions: map<Variant, string>, res: Resolution, r: StoredReceipt): Disposition {
    if r.version < res.winning then Stale
    else if res.conflicted then Conflicted
    else if StoredVariant(r) in versions && versions[StoredVariant(r)] == r.receiptId then Accepted
    else Duplicate
  }

  ghost predicate EntityResolved(t: Tables, k: RecordKey) {
    k in t.resolutions && IsResolution(t.versions.Keys, k, t.resolutions[k]) &&
    forall r :: r in t.receipts && EvidenceOf(r, k) ==> r.state == Resolved(ClassOf(t.versions, t.resolutions[k], r))
  }

  // ---- Invariant of the tables ----

  ghost predicate Truthful(hash: FinancialRecord -> string, r: StoredReceipt) {
    if r.state.Quarantined? then r.parsed.None? && !BlankText(r.state.reason)
    else
      r.parsed.Some? && r.key == KeyOf(r.parsed.value) && r.version == VersionOf(r.parsed.value) &&
      r.payloadHash == hash(r.parsed.value)
  }

  /** Every variant of a receipt is known, and was first seen in a receipt of that variant. */
  ghost predicate VersionsKnown(t: Tables) {
    (forall r :: r in t.receipts && !r.state.Quarantined? ==> StoredVariant(r) in t.versions) &&
    (forall v :: v in t.versions ==> FirstSeen(t, v))
  }

  ghost predicate FirstSeen(t: Tables, v: Variant) {
    v in t.versions && exists r ::
    r in t.receipts && !r.state.Quarantined? && StoredVariant(r) == v && r.receiptId == t.versions[v]
  }

  ghost predicate HasVariant(t: Tables, k: RecordKey) {
    exists v :: v in t.versions && v.key == k
  }

  ghost predicate Consistent(hash: FinancialRecord -> string, t: Tables) {
    DistinctReceipts(t.receipts) && (forall r :: r in t.receipts ==> Truthful(hash, r)) && VersionsKnown(t) &&
    EarliestKept(t)
  }

  /** A receipt that repeats the variant of an earlier one is not where the variant was first seen. */
  ghost predicate EarliestKept(t: Tables) {
    forall i, j :: 0 <= i < j < |t.receipts| && Repeats(t.receipts[i], t.receipts[j]) ==> !SeenFirst(t, t.receipts[j])
  }

  predicate Repeats(r: StoredReceipt, s: StoredReceipt) {
    !r.state.Quarantined? && !s.state.Quarantined? && StoredVariant(r) == StoredVariant(s)
  }

  predicate SeenFirst(t: Tables, r: StoredReceipt) {
    StoredVariant(r) in t.versions && t.versions[StoredVariant(r)] == r.receiptId
  }

  ghost predicate Settled(t: Tables) {
    (forall k :: HasVariant(t, k) <==> k in t.resolutions) && (forall k :: HasVariant(t, k) ==> EntityResolved(t, k)) &&
    (forall r :: r in t.receipts ==> r.status == Committed) &&
    (forall key :: key in t.batches ==> t.batches[key] in t.requests)
  }

  // ---- Reclassifying one entity ----

  function RankKey(versions: map<Variant, string>, r: StoredReceipt): Key {
    [N(if StoredVariant(r) in versions && versions[StoredVariant(r)] == r.receiptId then 0 else 1), N(r.receivedAt),
     S(r.receiptId)]
  }

  /** Row number one of its version and payload: first seen before the rest, then by time and id. */
  predicate Leads(versions: map<Variant, string>, receipts: seq<StoredReceipt>, r: StoredReceipt) {
    forall s :: s in receipts && !s.state.Quarantined? && StoredVariant(s) == StoredVariant(r) ==>
      !KeyLess(RankKey(versions, s), RankKey(versions, r))
  }

  lemma LeaderIsFirstSeen(t: Tables, r: StoredReceipt)
    requires DistinctReceipts(t.receipts) && r in t.receipts && !r.state.Quarantined? && FirstSeen(t, StoredVariant(r))
    ensures Leads(t.versions, t.receipts, r) <==> t.versions[StoredVariant(r)] == r.receiptId
  {
    var v := StoredVariant(r);
    var first :| first in t.receipts && !first.state.Quarantined? && StoredVariant(first) == v &&
      first.receiptId == t.versions[v];
    if r.receiptId == t.versions[v] {
      forall s | s in t.receipts && !s.state.Quarantined? && StoredVariant(s) == v
        ensures !KeyLess(RankKey(t.versions, s), RankKey(t.versions, r))
      {
        SameReceipt(t.receipts, s, r);
        RankFirst(t.versions, s, r);
      }
    } else {
      RankOfFirst(t.versions, first, r);
    }
  }

  lemma SameReceipt(receipts: seq<StoredReceipt>, r: StoredReceipt, s: StoredReceipt)
    requires DistinctReceipts(receipts) && r in receipts && s in receipts
    ensures r.receiptId == s.receiptId ==> r == s
  {
    var i :| 0 <= i < |receipts| && receipts[i] == r;
    var j :| 0 <= j < |receipts| && receipts[j] == s;
  }

  lemma RankFirst(versions: map<Variant, string>, s: StoredReceipt, r: StoredReceipt)
    requires StoredVariant(r) in versions && versions[StoredVariant(r)] == r.receiptId &&
      StoredVariant(s) == StoredVariant(r)
    requires s.receiptId == r.receiptId ==> s == r
    ensures !KeyLess(RankKey(versions, s), RankKey(versions, r))
  {
    KeyLessOrder(RankKey(versions, r), RankKey(versions, r), RankKey(versions, r));
  }

  lemma RankOfFirst(versions: map<Variant, string>, first: StoredReceipt, r: StoredReceipt)
    requires StoredVariant(first) in versions && versions[StoredVariant(first)] == first.receiptId
    requires StoredVariant(r) == StoredVariant(first) && r.receiptId != first.receiptId
    ensures KeyLess(RankKey(versions, first), RankKey(versions, r))
  {
  }

  /** `r` with the disposition its entity's resolution gives it; receipts of other entities are not touched. */
  function Reclassified(versions: map<Variant, string>, k: RecordKey, res: Resolution,
                        r: StoredReceipt): StoredReceipt {
    if EvidenceOf(r, k) then r.(state := Resolved(ClassOf(versions, res, r))) else r
  }

  function ReclassifyAll(versions: map<Variant, string>, k: RecordKey,
                         res: Resolution): StoredReceipt -> StoredReceipt {
    (r: StoredReceipt) => Reclassified(versions, k, res, r)
  }

  function HashesAt(versions: map<Variant, string>, k: RecordKey, version: int): set<string> {
    set v | v in versions && v.key == k && v.version == version :: v.payloadHash
  }

  method FindResolution(versions: map<Variant, string>, k: RecordKey) returns (res: Resolution)
    requires exists v :: v in versions && v.key == k
    ensures IsResolution(versions.Keys, k, res)
  {
    var numbers := set v | v in versions && v.key == k :: v.version;
    ghost var some :| some in versions && some.key == k;
    assert some.version in numbers;
    var winning := MaxVersion(numbers);
    assert forall v :: v in versions.Keys && v.key == k ==> v.version in numbers;
    var hashes := HashesAt(versions, k, winning);
    ghost var top :| top in versions && top.key == k && top.version == winning;
    assert top.payloadHash in hashes && top == Variant(k, winning, top.payloadHash);
    HashesMeaning(versions, k, winning);
    if |hashes| > 1 {
      TwoHashes(hashes);
      res := Resolution(winning, true, None);
    } else {
      OneHash(hashes);
      var h :| h in hashes;
      res := Resolution(winning, false, Some(h));
    }
  }

  lemma HashesMeaning(versions: map<Variant, string>, k: RecordKey, version: int)
    ensures forall h :: h in HashesAt(versions, k, version) <==> Variant(k, version, h) in versions.Keys
  {
    forall h
      ensures h in HashesAt(versions, k, version) <==> Variant(k, version, h) in versions.Keys
    {
      if h in HashesAt(versions, k, version) {
        var v :| v in versions && v.key == k && v.version == version && v.payloadHash == h;
        assert v == Variant(k, version, h);
      }
    }
  }

  lemma TwoHashes(s: set<string>)
    requires |s| > 1
    ensures exists g, h :: g != h && g in s && h in s
  {
    var g :| g in s;
    assert |s - {g}| == |s| - 1;
    var h :| h in s - {g};
  }

  lemma OneHash(s: set<string>)
    requires |s| <= 1
    ensures forall g, h :: g in s && h in s ==> g == h
  {
    forall g, h | g in s && h in s
      ensures g == h
    {
      if g != h {
        assert {g, h} <= s && |{g, h}| == 2;
        SubsetCount({g, h}, s);
      }
    }
  }

  method ReclassifyReceipts(t: Tables, k: RecordKey, res: Resolution) returns (receipts: seq<StoredReceipt>)
    requires DistinctReceipts(t.receipts) && VersionsKnown(t)
    ensures receipts == Map(ReclassifyAll(t.versions, k, res), t.receipts)
  {
    receipts := [];
    for i := 0 to |t.receipts|
      invariant receipts == Map(ReclassifyAll(t.versions, k, res), t.receipts[..i])
    {
      var r := t.receipts[i];
      assert t.receipts[..i + 1] == t.receipts[..i] + [r];
      MapAppend(ReclassifyAll(t.versions, k, res), t.receipts[..i], r);
      if EvidenceOf(r, k) {
        LeaderIsFirstSeen(t, r);
        var disposition :=
          if r.version < res.winning then Stale
          else if res.conflicted then Conflicted
          else if Leads(t.versions, t.receipts, r) then Accepted
          else Duplicate;
        receipts := receipts + [r.(state := Resolved(disposition))];
      } else {
        receipts := receipts + [r];
      }
    }
    assert t.receipts[..|t.receipts|] == t.receipts;
  }

  ghost predicate Resolvable(t: Tables, k: RecordKey) {
    DistinctReceipts(t.receipts) && VersionsKnown(t) && HasVariant(t, k)
  }

  /** Re-resolves one entity from its version history and reclassifies all of its receipts. */
  method ResolveEntity(t: Tables, k: RecordKey) returns (after: Tables, res: Resolution)
    requires Resolvable(t, k)
    ensures IsResolution(t.versions.Keys, k, res)
    ensures after == t.(resolutions := t.resolutions[k := res],
                        receipts := Map(ReclassifyAll(t.versions, k, res), t.receipts))
  {
    res := FindResolution(t.versions, k);
    var receipts := ReclassifyReceipts(t, k, res);
    after := t.(resolutions := t.resolutions[k := res], receipts := receipts);
  }

  // ---- The entity that was resolved, and the others ----

  /** `after` differs from `before` only in state and status, receipt by receipt. */
  ghost predicate SameColumns(before: seq<StoredReceipt>, after: seq<StoredReceipt>) {
    |after| == |before| && forall i :: 0 <= i < |before| ==>
      Columns(after[i]) == Columns(before[i]) &&
      (after[i].state == before[i].state || !(after[i].state.Quarantined? || before[i].state.Quarantined?))
  }

  lemma SameColumnsConsistent(hash: FinancialRecord -> string, t: Tables, after: Tables)
    requires Consistent(hash, t) && after.versions == t.versions && SameColumns(t.receipts, after.receipts)
    ensures Consistent(hash, after)
  {
    SameColumnsTruthful(hash, t.receipts, after.receipts);
    SameColumnsKnown(t, after);
    SameColumnsEarliest(t, after);
    forall i, j | 0 <= i < j < |after.receipts|
      ensures after.receipts[i].receiptId != after.receipts[j].receiptId
    {
      assert Columns(after.receipts[i]) == Columns(t.receipts[i]) &&
        Columns(after.receipts[j]) == Columns(t.receipts[j]);
    }
  }

  lemma SameColumnsEarliest(t: Tables, after: Tables)
    requires EarliestKept(t) && after.versions == t.versions && SameColumns(t.receipts, after.receipts)
    ensures EarliestKept(after)
  {
    forall i, j | 0 <= i < j < |after.receipts| && Repeats(after.receipts[i], after.receipts[j])
      ensures !SeenFirst(after, after.receipts[j])
    {
      assert Columns(after.receipts[i]) == Columns(t.receipts[i]) &&
        Columns(after.receipts[j]) == Columns(t.receipts[j]);
      assert Repeats(t.receipts[i], t.receipts[j]);
    }
  }

  lemma SameColumnsTruthful(hash: FinancialRecord -> string, before: seq<StoredReceipt>, after: seq<StoredReceipt>)
    requires SameColumns(before, after) && forall r :: r in before ==> Truthful(hash, r)
    ensures forall r :: r in after ==> Truthful(hash, r)
  {
    forall r | r in after
      ensures Truthful(hash, r)
    {
      var i :| 0 <= i < |after| && after[i] == r;
      assert Columns(after[i]) == Columns(before[i]) && before[i] in before;
    }
  }

  lemma ColumnsCarry(before: seq<StoredReceipt>, after: seq<StoredReceipt>, r: StoredReceipt) returns (s: StoredReceipt)
    requires SameColumns(before, after) && r in before
    ensures s in after && Columns(s) == Columns(r) && (s.state.Quarantined? <==> r.state.Quarantined?)
    ensures s.receiptId == r.receiptId && StoredVariant(s) == StoredVariant(r)
  {
    var i :| 0 <= i < |before| && before[i] == r;
    s := after[i];
  }

  lemma ColumnsReflect(before: seq<StoredReceipt>, after: seq<StoredReceipt>)
    requires SameColumns(before, after)
    ensures SameColumns(after, before)
  {
  }

  lemma SameFirstSeen(t: Tables, after: Tables, v: Variant)
    requires FirstSeen(t, v) && after.versions == t.versions && SameColumns(t.receipts, after.receipts)
    ensures FirstSeen(after, v)
  {
    var first :| first in t.receipts && !first.state.Quarantined? && StoredVariant(first) == v &&
      first.receiptId == t.versions[v];
    var s := ColumnsCarry(t.receipts, after.receipts, first);
  }

  lemma SameColumnsKnown(t: Tables, after: Tables)
    requires VersionsKnown(t) && after.versions == t.versions && SameColumns(t.receipts, after.receipts)
    ensures VersionsKnown(after)
  {
    ColumnsReflect(t.receipts, after.receipts);
    forall r | r in after.receipts && !r.state.Quarantined?
      ensures StoredVariant(r) in after.versions
    {
      var s := ColumnsCarry(after.receipts, t.receipts, r);
    }
    forall v | v in after.versions
      ensures FirstSeen(after, v)
    {
      SameFirstSeen(t, after, v);
    }
  }

  lemma ResolvedNow(t: Tables, k: RecordKey, res: Resolution)
    requires IsResolution(t.versions.Keys, k, res)
    ensures EntityResolved(t.(resolutions := t.resolutions[k := res],
                              receipts := Map(ReclassifyAll(t.versions, k, res), t.receipts)), k)
  {
    var f := ReclassifyAll(t.versions, k, res);
    forall r | r in Map(f, t.receipts) && EvidenceOf(r, k)
      ensures r.state == Resolved(ClassOf(t.versions, res, r))
    {
      MapMember(f, t.receipts, r);
      var before :| before in t.receipts && f(before) == r;
      assert EvidenceOf(before, k);
    }
  }

  lemma OthersStay(t: Tables, j: RecordKey, k: RecordKey, res: Resolution)
    requires EntityResolved(t, j) && j != k
    ensures EntityResolved(t.(resolutions := t.resolutions[k := res],
                              receipts := Map(ReclassifyAll(t.versions, k, res), t.receipts)), j)
  {
    var f := ReclassifyAll(t.versions, k, res);
    forall r | r in Map(f, t.receipts) && EvidenceOf(r, j)
      ensures r.state == Resolved(ClassOf(t.versions, t.resolutions[j], r))
    {
      MapMember(f, t.receipts, r);
      var before :| before in t.receipts && f(before) == r;
      assert !EvidenceOf(before, k);
    }
  }

  // ---- Receiving the rows ----

  /** The columns of a receipt that never change once it is inserted. */
  function Columns(r: StoredReceipt): StoredReceipt { r.(state := Unresolved, status := Processing) }

  function NewReceipt(hash: FinancialRecord -> string, d: Delivery, batchId: int, number: int, receivedAt: int,
                      id: string, row: DeliveredRow): StoredReceipt {
    match row
    case Invalid(sourceId, reason) =>
      StoredReceipt(id, batchId, number, receivedAt, RecordKey(d.kind, sourceId), 0, "", None, Quarantined(reason),
                    Processing)
    case Parsed(record) =>
      StoredReceipt(id, batchId, number, receivedAt, KeyOf(record), VersionOf(record), hash(record), Some(record),
                    Unresolved, Processing)
  }

  /** Fresh receipt ids, one per row, and rows as the parser of the delivery's entity type returns them. */
  ghost predicate Deliverable(t: Tables, d: Delivery, ids: seq<string>) {
    |ids| == |d.rows| && NoRepeats(ids) && (forall r :: r in t.receipts ==> r.receiptId !in ids) &&
    forall row :: row in d.rows ==>
      (row.Invalid? ==> !BlankText(row.reason)) && (row.Parsed? ==> KeyOf(row.record).kind == d.kind)
  }

  /** `after` holds the first `n` rows of the delivery, unresolved, besides the tables before it. */
  ghost predicate RowsReceived(hash: FinancialRecord -> string, t: Tables, after: Tables, d: Delivery, batchId: int,
                               at: int, ids: seq<string>,
                           n: nat, touched: set<RecordKey>)
    requires n <= |d.rows| == |ids|
  {
    after.receipts == t.receipts
    + seq(n, i requires 0 <= i < n => NewReceipt(hash, d, batchId, i + 1, at, ids[i], d.rows[i])) &&
    after.batches == t.batches && after.resolutions == t.resolutions && after.requests == t.requests &&
    (forall v :: v in t.versions ==> v in after.versions && after.versions[v] == t.versions[v]) &&
    (forall v :: v in after.versions && v !in t.versions ==> v.key in touched)
  }

  lemma AddReceipt(hash: FinancialRecord -> string, t: Tables, r: StoredReceipt, versions: map<Variant, string>)
    requires Consistent(hash, t) && Truthful(hash, r) && forall s :: s in t.receipts ==> s.receiptId != r.receiptId
    requires versions == if r.state.Quarantined? ||
      StoredVariant(r) in t.versions then t.versions else t.versions[StoredVariant(r) := r.receiptId]
    ensures Consistent(hash, t.(receipts := t.receipts + [r], versions := versions))
  {
    var after := t.(receipts := t.receipts + [r], versions := versions);
    AddedEarliest(hash, t, r, versions);
    forall v | v in after.versions
      ensures FirstSeen(after, v)
    {
      if v in t.versions {
        var first :| first in t.receipts && !first.state.Quarantined? && StoredVariant(first) == v &&
          first.receiptId == t.versions[v];
        assert first in after.receipts;
      } else {
        assert r in after.receipts;
      }
    }
    forall i, j | 0 <= i < j < |after.receipts|
      ensures after.receipts[i].receiptId != after.receipts[j].receiptId
    {
      assert i < |t.receipts| ==> t.receipts[i] in t.receipts;
    }
  }

  lemma AddedEarliest(hash: FinancialRecord -> string, t: Tables, r: StoredReceipt, versions: map<Variant, string>)
    requires Consistent(hash, t) && forall s :: s in t.receipts ==> s.receiptId != r.receiptId
    requires versions == if r.state.Quarantined? ||
      StoredVariant(r) in t.versions then t.versions else t.versions[StoredVariant(r) := r.receiptId]
    ensures EarliestKept(t.(receipts := t.receipts + [r], versions := versions))
  {
    var after := t.(receipts := t.receipts + [r], versions := versions);
    forall i, j | 0 <= i < j < |after.receipts| && Repeats(after.receipts[i], after.receipts[j])
      ensures !SeenFirst(after, after.receipts[j])
    {
      assert t.receipts[i] in t.receipts && after.receipts[i] == t.receipts[i];
      assert FirstSeen(t, StoredVariant(t.receipts[i]));
    }
  }

  /** Inserts every row: a quarantined receipt, or an unresolved one and, if it is new, its variant. */
  method InsertReceipts(hash: FinancialRecord -> string, t: Tables, d: Delivery, batchId: int, at: int,
                        ids: seq<string>)
    returns (after: Tables, touched: set<RecordKey>)
    requires Consistent(hash, t) && Deliverable(t, d, ids)
    ensures RowsReceived(hash, t, after, d, batchId, at, ids, |d.rows|, touched) && Consistent(hash, after)
    ensures touched == set i | 0 <= i < |d.rows| && d.rows[i].Parsed? :: KeyOf(d.rows[i].record)
  {
    after, touched := t, {};
    for i := 0 to |d.rows|
      invariant RowsReceived(hash, t, after, d, batchId, at, ids, i, touched) && Consistent(hash, after)
      invariant touched == set j | 0 <= j < i && d.rows[j].Parsed? :: KeyOf(d.rows[j].record)
    {
      var r := NewReceipt(hash, d, batchId, i + 1, at, ids[i], d.rows[i]);
      var versions := after.versions;
      if d.rows[i].Parsed? && StoredVariant(r) !in versions {
        versions := versions[StoredVariant(r) := ids[i]];
      }
      InsertStep(hash, t, after, d, batchId, at, ids, i, touched, r, versions);
      after := after.(receipts := after.receipts + [r], versions := versions);
      if d.rows[i].Parsed? {
        touched := touched + {KeyOf(d.rows[i].record)};
      }
    }
  }

  lemma InsertStep(hash: FinancialRecord -> string, t: Tables, before: Tables, d: Delivery, batchId: int, at: int,
                   ids: seq<string>, i: nat,
                   touched: set<RecordKey>, r: StoredReceipt, versions: map<Variant, string>)
    requires Deliverable(t, d, ids) && i < |ids| && RowsReceived(hash, t, before, d, batchId, at, ids, i, touched) &&
      Consistent(hash, before)
    requires r == NewReceipt(hash, d, batchId, i + 1, at, ids[i], d.rows[i])
    requires versions == if d.rows[i].Invalid? ||
      StoredVariant(r) in before.versions then before.versions else before.versions[StoredVariant(r) := ids[i]]
    ensures var after := before.(receipts := before.receipts + [r], versions := versions);
      Consistent(hash, after) &&
      RowsReceived(hash, t, after, d, batchId, at, ids, i + 1, touched + if d.rows[i].Parsed?
                   then {KeyOf(d.rows[i].record)} else {})
  {
    NewReceiptTruthful(hash, t, d, batchId, i + 1, at, ids, i);
    FreshReceipt(t, before.receipts, hash, d, batchId, at, ids, i);
    AddReceipt(hash, before, r, versions);
    RowsStep(hash, t, before, d, batchId, at, ids, i, touched, r, versions);
  }

  lemma NewReceiptTruthful(hash: FinancialRecord -> string, t: Tables, d: Delivery, batchId: int, number: int, at: int,
                           ids: seq<string>, i: nat)
    requires Deliverable(t, d, ids) && i < |ids|
    ensures Truthful(hash, NewReceipt(hash, d, batchId, number, at, ids[i], d.rows[i]))
  {
    assert d.rows[i] in d.rows;
  }

  lemma RowsStep(hash: FinancialRecord -> string, t: Tables, before: Tables, d: Delivery, batchId: int, at: int,
                 ids: seq<string>, i: nat,
                 touched: set<RecordKey>, r: StoredReceipt, versions: map<Variant, string>)
    requires i < |d.rows| == |ids| && RowsReceived(hash, t, before, d, batchId, at, ids, i, touched)
    requires r == NewReceipt(hash, d, batchId, i + 1, at, ids[i], d.rows[i])
    requires versions == if d.rows[i].Invalid? ||
      StoredVariant(r) in before.versions then before.versions else before.versions[StoredVariant(r) := ids[i]]
    ensures RowsReceived(hash, t, before.(receipts := before.receipts + [r], versions := versions), d, batchId, at, ids,
                         i + 1,
                         touched + if d.rows[i].Parsed? then {KeyOf(d.rows[i].record)} else {})
  {
  }

  lemma FreshReceipt(t: Tables, receipts: seq<StoredReceipt>, hash: FinancialRecord -> string, d: Delivery,
                     batchId: int, at: int,
                     ids: seq<string>, i: nat)
    requires Deliverable(t, d, ids) && i < |ids|
    requires receipts == t.receipts
      + seq(i, j requires 0 <= j < i => NewReceipt(hash, d, batchId, j + 1, at, ids[j], d.rows[j]))
    ensures forall s :: s in receipts ==> s.receiptId != ids[i]
  {
    forall s | s in receipts
      ensures s.receiptId != ids[i]
    {
      var j :| 0 <= j < |receipts| && receipts[j] == s;
      if j < |t.receipts| {
        assert s in t.receipts && ids[i] in ids;
      } else {
        assert s.receiptId == ids[j - |t.receipts|];
      }
    }
  }

  lemma UntouchedResolved(hash: FinancialRecord -> string, t: Tables, after: Tables, d: Delivery, batchId: int, at: int,
                          ids: seq<string>,
                          touched: set<RecordKey>, k: RecordKey)
    requires |d.rows| == |ids| && RowsReceived(hash, t, after, d, batchId, at, ids, |d.rows|, touched)
    requires touched == set i | 0 <= i < |d.rows| && d.rows[i].Parsed? :: KeyOf(d.rows[i].record)
    requires k !in touched && EntityResolved(t, k)
    ensures EntityResolved(after, k)
  {
    SameVariantsOf(t, after, touched, k);
    forall j | |t.receipts| <= j < |after.receipts|
      ensures !EvidenceOf(after.receipts[j], k)
    {
      var i := j - |t.receipts|;
      assert after.receipts[j] == NewReceipt(hash, d, batchId, i + 1, at, ids[i], d.rows[i]);
    }
    forall r | r in after.receipts && EvidenceOf(r, k)
      ensures r.state == Resolved(ClassOf(after.versions, after.resolutions[k], r))
    {
      var j :| 0 <= j < |after.receipts| && after.receipts[j] == r;
      assert r in t.receipts;
    }
  }

  lemma SameVariantsOf(t: Tables, after: Tables, touched: set<RecordKey>, k: RecordKey)
    requires forall v :: v in t.versions ==> v in after.versions && after.versions[v] == t.versions[v]
    requires forall v :: v in after.versions && v !in t.versions ==> v.key in touched
    requires k !in touched
    ensures forall v: Variant :: v.key == k ==> (v in t.versions <==> v in after.versions)
    ensures forall res :: IsResolution(t.versions.Keys, k, res) ==> IsResolution(after.versions.Keys, k, res)
    ensures HasVariant(t, k) <==> HasVariant(after, k)
  {
    forall res | IsResolution(t.versions.Keys, k, res)
      ensures IsResolution(after.versions.Keys, k, res)
    {
      var top :| top in t.versions.Keys && top.key == k && top.version == res.winning;
      assert top in after.versions.Keys;
      SameDispute(t.versions.Keys, after.versions.Keys, k, res.winning);
    }
  }

  lemma SameDispute(a: set<Variant>, b: set<Variant>, k: RecordKey, version: int)
    requires forall v: Variant :: v.key == k ==> (v in a <==> v in b)
    ensures Disputed(a, k, version) <==> Disputed(b, k, version)
  {
    if g, h :| g != h && Variant(k, version, g) in a && Variant(k, version, h) in a {
      assert Variant(k, version, g) in b && Variant(k, version, h) in b;
    }
    if g, h :| g != h && Variant(k, version, g) in b && Variant(k, version, h) in b {
      assert Variant(k, version, g) in a && Variant(k, version, h) in a;
    }
  }

  /** `after` differs from `before` only in the dispositions of receipts that are not quarantined. */
  ghost predicate OnlyStates(before: seq<StoredReceipt>, after: seq<StoredReceipt>) {
    |after| == |before| && forall i :: 0 <= i < |before| ==>
      after[i] == before[i].(state := after[i].state) &&
        (after[i].state == before[i].state || !(after[i].state.Quarantined? || before[i].state.Quarantined?))
  }

  lemma OnlyStatesColumns(before: seq<StoredReceipt>, after: seq<StoredReceipt>)
    requires OnlyStates(before, after)
    ensures SameColumns(before, after)
  {
  }

  /** `after` is `t` with some entities resolved. */
  ghost predicate Resolving(t: Tables, after: Tables) {
    after == t.(receipts := after.receipts, resolutions := after.resolutions) && OnlyStates(t.receipts, after.receipts)
  }

  /** The entities still to be resolved are the touched ones not yet done. */
  ghost predicate Progress(t: Tables, touched: set<RecordKey>, done: set<RecordKey>, after: Tables) {
    Resolving(t, after) && (forall k :: k in after.resolutions ==> HasVariant(t, k)) &&
    forall k :: HasVariant(t, k) && (k in done || k !in touched) ==> EntityResolved(after, k)
  }

  /** Re-resolves exactly the touched entities; with the others already resolved, all are. */
  method ResolveTouched(ghost hash: FinancialRecord -> string, t: Tables, touched: set<RecordKey>)
    returns (after: Tables)
    requires Consistent(hash, t) && (forall k :: k in touched ==> HasVariant(t, k)) && Progress(t, touched, {}, t)
    ensures Progress(t, touched, touched, after)
  {
    forall j, k | j in touched && k in touched && IdentityKey(j) == IdentityKey(k)
      ensures j == k
    {
      IdentityKeyInjective(j, k);
    }
    var order := SortedList(IdentityKey, touched);
    after := t;
    for i := 0 to |order|
      invariant Progress(t, touched, Elements(order[..i]), after)
    {
      assert order[i] in order && Elements(order[..i + 1]) == Elements(order[..i]) + {order[i]};
      StillReady(hash, t, after, order[i]);
      ghost var before := after;
      var next, res := ResolveEntity(after, order[i]);
      after := next;
      ProgressStep(t, touched, Elements(order[..i]), before, after, order[i], res);
    }
    assert order[..|order|] == order && Elements(order) == touched;
  }

  lemma ProgressStep(t: Tables, touched: set<RecordKey>, done: set<RecordKey>, before: Tables, after: Tables,
                     k: RecordKey, res: Resolution)
    requires Progress(t, touched, done, before) && HasVariant(t, k) && IsResolution(before.versions.Keys, k, res)
    requires after == before.(resolutions := before.resolutions[k := res],
                              receipts := Map(ReclassifyAll(before.versions, k, res), before.receipts))
    ensures Progress(t, touched, done + {k}, after)
  {
    ResolvedStates(t, before, after, k, res);
    ResolvedStep(before, after, k, res);
  }

  lemma StillReady(hash: FinancialRecord -> string, t: Tables, before: Tables, k: RecordKey)
    requires Consistent(hash, t) && HasVariant(t, k) && Resolving(t, before)
    ensures Resolvable(before, k)
  {
    OnlyStatesColumns(t.receipts, before.receipts);
    SameColumnsConsistent(hash, t, before);
  }

  lemma ResolvedStates(t: Tables, before: Tables, after: Tables, k: RecordKey, res: Resolution)
    requires Resolving(t, before)
    requires after == before.(resolutions := before.resolutions[k := res],
                              receipts := Map(ReclassifyAll(before.versions, k, res), before.receipts))
    ensures Resolving(t, after)
  {
    forall i | 0 <= i < |after.receipts|
      ensures after.receipts[i] == t.receipts[i].(state := after.receipts[i].state)
      ensures after.receipts[i].state == t.receipts[i].state ||
        !(after.receipts[i].state.Quarantined? || t.receipts[i].state.Quarantined?)
    {
      assert after.receipts[i] == Reclassified(before.versions, k, res, before.receipts[i]);
    }
  }

  lemma ResolvedStep(before: Tables, after: Tables, k: RecordKey, res: Resolution)
    requires IsResolution(before.versions.Keys, k, res)
    requires after == before.(resolutions := before.resolutions[k := res],
                              receipts := Map(ReclassifyAll(before.versions, k, res), before.receipts))
    ensures forall j :: EntityResolved(before, j) || j == k ==> EntityResolved(after, j)
  {
    forall j | EntityResolved(before, j) || j == k
      ensures EntityResolved(after, j)
    {
      if j == k {
        ResolvedNow(before, k, res);
      } else {
        OthersStay(before, j, k, res);
      }
    }
  }

  // ---- Commit ----

  function CommitRow(batchId: int): StoredReceipt -> StoredReceipt {
    (r: StoredReceipt) => if r.batchId == batchId then r.(status := Committed) else r
  }

  lemma StatusOnly(t: Tables, after: Tables, batchId: int)
    requires after.versions == t.versions && after.resolutions == t.resolutions &&
      after.receipts == Map(CommitRow(batchId), t.receipts)
    ensures SameColumns(t.receipts, after.receipts)
    ensures forall k :: EntityResolved(t, k) ==> EntityResolved(after, k)
  {
    forall k | EntityResolved(t, k)
      ensures EntityResolved(after, k)
    {
      forall r | r in after.receipts && EvidenceOf(r, k)
        ensures r.state == Resolved(ClassOf(after.versions, after.resolutions[k], r))
      {
        MapMember(CommitRow(batchId), t.receipts, r);
        var before :| before in t.receipts && CommitRow(batchId)(before) == r;
        assert EvidenceOf(before, k);
      }
    }
  }

  lemma AllCommitted(before: seq<StoredReceipt>, added: seq<StoredReceipt>, resolved: seq<StoredReceipt>, batchId: int)
    requires OnlyStates(before + added, resolved)
    requires (forall r :: r in before ==> r.status == Committed) && forall r :: r in added ==> r.batchId == batchId
    ensures forall r :: r in Map(CommitRow(batchId), resolved) ==> r.status == Committed
  {
    forall r | r in Map(CommitRow(batchId), resolved)
      ensures r.status == Committed
    {
      var i :| 0 <= i < |resolved| && Map(CommitRow(batchId), resolved)[i] == r;
      assert resolved[i] == (before + added)[i].(state := resolved[i].state);
      if i < |before| {
        assert (before + added)[i] in before;
      } else {
        assert (before + added)[i] in added;
      }
    }
  }

  function NewReceipts(hash: FinancialRecord -> string, d: Delivery, batchId: int, at: int,
                       ids: seq<string>): seq<StoredReceipt>
    requires |ids| == |d.rows|
  {
    seq(|d.rows|, i requires 0 <= i < |d.rows| => NewReceipt(hash, d, batchId, i + 1, at, ids[i], d.rows[i]))
  }

  /** The durable evidence store. */
  class EvidenceStore {
    const hash: FinancialRecord -> string
    var tables: Tables

    ghost predicate Valid()
      reads this
    {
      Consistent(hash, tables) && Settled(tables)
    }

    constructor (hash: FinancialRecord -> string)
      ensures Valid() && this.hash == hash && tables == Tables(map[], [], map[], map[], map[])
    {
      this.hash := hash;
      tables := Tables(map[], [], map[], map[], map[]);
    }

    /** One delivery in one transaction. A known delivery is answered from the tables; a fault before the commit
        leaves them unchanged; a fault after it loses only the acknowledgement. */
    method Ingest(d: Delivery, batchId: int, requestId: int, at: int, ids: seq<string>, fault: Fault)
      returns (r: IngestionOutcome)
      requires Valid() && Deliverable(tables, d, ids) && batchId !in tables.requests
      requires forall x :: x in tables.receipts ==> x.batchId != batchId
      modifies this
      ensures Valid()
      ensures d.key in old(tables).batches ==>
        tables == old(tables) && r == Reused(tables.batches[d.key], tables.requests[tables.batches[d.key]])
      ensures d.key !in old(tables).batches && fault in {AfterEntityResolution, BeforeIngestionCommit} ==>
        tables == old(tables) && r == Aborted
      ensures d.key !in old(tables).batches && fault in {NoFault, AfterIngestionCommit} ==>
        SameColumns(old(tables).receipts + NewReceipts(hash, d, batchId, at, ids), tables.receipts) &&
        tables.batches == old(tables).batches[d.key := batchId] &&
          tables.requests == old(tables).requests[batchId := requestId] &&
        r == if fault == NoFault then Ingested(batchId, requestId) else Unacknowledged
    {
      if d.key in tables.batches {
        var existing := tables.batches[d.key];
        return Reused(existing, tables.requests[existing]);
      }
      var received, touched := InsertReceipts(hash, tables, d, batchId, at, ids);
      Touched(hash, tables, received, d, batchId, at, ids, touched);
      var resolved := ResolveTouched(hash, received, touched);
      if fault == AfterEntityResolution || fault == BeforeIngestionCommit {
        return Aborted;
      }
      var committed := resolved.(receipts := Map(CommitRow(batchId), resolved.receipts),
                                 batches := resolved.batches[d.key := batchId],
                                   requests := resolved.requests[batchId := requestId]);
      CommittedValid(hash, tables, received, resolved, committed, d, batchId, requestId, at, ids, touched);
      tables := committed;
      r := if fault == AfterIngestionCommit then Unacknowledged else Ingested(batchId, requestId);
    }
  }

  lemma Touched(hash: FinancialRecord -> string, t: Tables, received: Tables, d: Delivery, batchId: int, at: int,
                ids: seq<string>, touched: set<RecordKey>)
    requires Consistent(hash, t) && Settled(t) && Consistent(hash, received)
    requires |d.rows| == |ids| && RowsReceived(hash, t, received, d, batchId, at, ids, |d.rows|, touched)
    requires touched == set i | 0 <= i < |d.rows| && d.rows[i].Parsed? :: KeyOf(d.rows[i].record)
    ensures forall k :: k in touched ==> HasVariant(received, k)
    ensures Progress(received, touched, {}, received)
  {
    forall k | k in touched
      ensures HasVariant(received, k)
    {
      var i :| 0 <= i < |d.rows| && d.rows[i].Parsed? && KeyOf(d.rows[i].record) == k;
      RowHasVariant(hash, t, received, d, batchId, at, ids, touched, i);
    }
    forall k | HasVariant(received, k) && k !in touched
      ensures EntityResolved(received, k)
    {
      SameVariantsOf(t, received, touched, k);
      UntouchedResolved(hash, t, received, d, batchId, at, ids, touched, k);
    }
    forall k | k in received.resolutions
      ensures HasVariant(received, k)
    {
      var v :| v in t.versions && v.key == k;
      assert v in received.versions;
    }
  }

  lemma RowHasVariant(hash: FinancialRecord -> string, t: Tables, received: Tables, d: Delivery, batchId: int, at: int,
                      ids: seq<string>,
                      touched: set<RecordKey>, i: nat)
    requires VersionsKnown(received) && |d.rows| == |ids| &&
      RowsReceived(hash, t, received, d, batchId, at, ids, |d.rows|, touched)
    requires i < |d.rows| && d.rows[i].Parsed?
    ensures HasVariant(received, KeyOf(d.rows[i].record))
  {
    var r := received.receipts[|t.receipts| + i];
    assert r == NewReceipt(hash, d, batchId, i + 1, at, ids[i], d.rows[i]) && r in received.receipts;
    assert StoredVariant(r) in received.versions && StoredVariant(r).key == KeyOf(d.rows[i].record);
  }

  lemma SameColumnsTransitive(a: seq<StoredReceipt>, b: seq<StoredReceipt>, c: seq<StoredReceipt>)
    requires SameColumns(a, b) && SameColumns(b, c)
    ensures SameColumns(a, c)
  {
  }

  lemma AllResolved(received: Tables, resolved: Tables, committed: Tables, touched: set<RecordKey>)
    requires Progress(received, touched, touched, resolved)
    requires committed.versions == resolved.versions && committed.resolutions == resolved.resolutions
    requires forall k :: EntityResolved(resolved, k) ==> EntityResolved(committed, k)
    ensures forall k :: HasVariant(committed, k) <==> k in committed.resolutions
    ensures forall k :: HasVariant(committed, k) ==> EntityResolved(committed, k)
  {
    forall k
      ensures HasVariant(committed, k) <==> HasVariant(received, k)
    {
    }
    forall k | HasVariant(received, k)
      ensures EntityResolved(committed, k)
    {
      assert EntityResolved(resolved, k);
    }
  }

  lemma CommittedValid(hash: FinancialRecord -> string, t: Tables, received: Tables, resolved: Tables,
                       committed: Tables, d: Delivery,
                       batchId: int, requestId: int, at: int, ids: seq<string>, touched: set<RecordKey>)
    requires Settled(t) && |d.rows| == |ids| && RowsReceived(hash, t, received, d, batchId, at, ids, |d.rows|, touched)
    requires Consistent(hash, received) && Resolving(received, resolved)
    requires Progress(received, touched, touched, resolved)
    requires committed == resolved.(receipts := Map(CommitRow(batchId), resolved.receipts),
                                    batches := resolved.batches[d.key := batchId],
                                      requests := resolved.requests[batchId := requestId])
    ensures Consistent(hash, committed) && Settled(committed)
    ensures SameColumns(t.receipts + NewReceipts(hash, d, batchId, at, ids), committed.receipts)
  {
    AllReceived(hash, t, received, d, batchId, at, ids, touched);
    CommittedColumns(hash, received, resolved, committed, batchId);
    CommittedSettled(t, NewReceipts(hash, d, batchId, at, ids), received, resolved, committed, d.key, batchId,
                     requestId, touched);
  }

  lemma AllReceived(hash: FinancialRecord -> string, t: Tables, received: Tables, d: Delivery, batchId: int, at: int,
                    ids: seq<string>,
                    touched: set<RecordKey>)
    requires |d.rows| == |ids| && RowsReceived(hash, t, received, d, batchId, at, ids, |d.rows|, touched)
    ensures received.receipts == t.receipts + NewReceipts(hash, d, batchId, at, ids)
    ensures received.batches == t.batches && received.requests == t.requests
    ensures forall r :: r in NewReceipts(hash, d, batchId, at, ids) ==> r.batchId == batchId
  {
  }

  lemma CommittedColumns(hash: FinancialRecord -> string, received: Tables, resolved: Tables, committed: Tables,
                         batchId: int)
    requires Consistent(hash, received) && Resolving(received, resolved)
    requires committed.versions == resolved.versions && committed.resolutions == resolved.resolutions
    requires committed.receipts == Map(CommitRow(batchId), resolved.receipts)
    ensures Consistent(hash, committed) && SameColumns(received.receipts, committed.receipts)
  {
    OnlyStatesColumns(received.receipts, resolved.receipts);
    StatusOnly(resolved, committed, batchId);
    SameColumnsTransitive(received.receipts, resolved.receipts, committed.receipts);
    SameColumnsConsistent(hash, received, committed);
  }

  lemma CommittedSettled(t: Tables, added: seq<StoredReceipt>, received: Tables, resolved: Tables, committed: Tables,
                         key: string,
                         batchId: int, requestId: int, touched: set<RecordKey>)
    requires Settled(t) && received.receipts == t.receipts + added && received.batches == t.batches &&
      received.requests == t.requests
    requires Progress(received, touched, touched, resolved) && forall r :: r in added ==> r.batchId == batchId
    requires committed == resolved.(receipts := Map(CommitRow(batchId), resolved.receipts),
                                    batches := resolved.batches[key := batchId],
                                      requests := resolved.requests[batchId := requestId])
    ensures Settled(committed)
  {
    StatusOnly(resolved, committed, batchId);
    AllResolved(received, resolved, committed, touched);
    AllCommitted(t.receipts, added, resolved.receipts, batchId);
  }

  // ---- Agreement with a canonicalization of everything committed ----

  lemma StoredEvidence(hash: FinancialRecord -> string, t: Tables, r: StoredReceipt)
    requires Consistent(hash, t) && Settled(t) && r in t.receipts && !r.state.Quarantined?
    ensures StoredVariant(r) in t.versions && HasVariant(t, r.key) && EntityResolved(t, r.key)
    ensures r.state == Resolved(ClassOf(t.versions, t.resolutions[r.key], r)) &&
      r.version <= t.resolutions[r.key].winning
  {
    assert StoredVariant(r) in t.versions;
    assert HasVariant(t, r.key);
    assert EvidenceOf(r, r.key);
    assert StoredVariant(r).version <= t.resolutions[r.key].winning;
  }

  lemma ReadableReceipt(hash: FinancialRecord -> string, r: StoredReceipt)
    requires Truthful(hash, r) && r.status == Committed && (r.state.Quarantined? || r.state.Resolved?)
    ensures RowError(r).None?
  {
  }

  lemma ReceiptResolved(hash: FinancialRecord -> string, t: Tables, r: StoredReceipt)
    requires Consistent(hash, t) && Settled(t) && r in t.receipts
    ensures Truthful(hash, r) && r.status == Committed && (r.state.Quarantined? || r.state.Resolved?)
  {
    if !r.state.Quarantined? {
      StoredEvidence(hash, t, r);
    }
  }

  /** The rebuild never meets a receipt it cannot read: what it requires of the table, ingestion guarantees. */
  lemma StoreReadable(hash: FinancialRecord -> string, t: Tables)
    requires Consistent(hash, t) && Settled(t)
    ensures Stored(hash, t.receipts) && Readable(t.receipts)
  {
    forall r | r in t.receipts
      ensures RowError(r).None? &&
        (r.parsed.Some? ==> KeyOf(r.parsed.value).kind == r.key.kind && r.payloadHash == hash(r.parsed.value))
    {
      ReceiptResolved(hash, t, r);
      ReadableReceipt(hash, r);
    }
  }

  ghost function CommittedEvidence(hash: FinancialRecord -> string, t: Tables): set<Envelope>
    requires Readable(t.receipts)
  {
    Received(hash, t.receipts)
  }

  lemma EnvelopeOf(hash: FinancialRecord -> string, t: Tables, r: StoredReceipt)
    requires Consistent(hash, t) && Settled(t) && Readable(t.receipts) && r in t.receipts && !r.state.Quarantined?
    ensures r.parsed.Some? && MakeEnvelope(hash, r) in CommittedEvidence(hash, t) &&
      VariantOf(MakeEnvelope(hash, r)) == StoredVariant(r)
  {
    assert Finalized(r) && IsEvidence(r);
  }

  lemma ReceiptOf(hash: FinancialRecord -> string, t: Tables, e: Envelope) returns (r: StoredReceipt)
    requires Consistent(hash, t) && Settled(t) && Readable(t.receipts) && e in CommittedEvidence(hash, t)
    ensures r in t.receipts && !r.state.Quarantined? && r.parsed.Some? && e == MakeEnvelope(hash, r) &&
      StoredVariant(r) == VariantOf(e)
  {
    r :| r in t.receipts && IsEvidence(r) && MakeEnvelope(hash, r) == e;
  }

  /** The version history is exactly the set of variants received. */
  lemma VersionsAreVariants(hash: FinancialRecord -> string, t: Tables)
    requires Consistent(hash, t) && Settled(t) && Readable(t.receipts)
    ensures Variants(CommittedEvidence(hash, t)) == t.versions.Keys
  {
    forall v
      ensures v in Variants(CommittedEvidence(hash, t)) <==> v in t.versions.Keys
    {
      if v in Variants(CommittedEvidence(hash, t)) {
        var e :| e in CommittedEvidence(hash, t) && VariantOf(e) == v;
        var r := ReceiptOf(hash, t, e);
        StoredEvidence(hash, t, r);
      }
      if v in t.versions {
        assert FirstSeen(t, v);
        var r :| r in t.receipts && !r.state.Quarantined? && StoredVariant(r) == v && r.receiptId == t.versions[v];
        EnvelopeOf(hash, t, r);
      }
    }
  }

  /** `u` shows exactly the variants in `vs`. */
  lemma WinningIn(u: set<Envelope>, vs: set<Variant>, res: Resolution, e: Envelope)
    requires Variants(u) == vs && e in u && IsResolution(vs, IdentityOf(e), res)
    ensures Winning(u, e) <==> SourceVersion(e) == res.winning
    ensures SourceVersion(e) <= res.winning
  {
    assert VariantOf(e) in vs;
    var top :| top in vs && top.key == IdentityOf(e) && top.version == res.winning;
    var w :| w in u && VariantOf(w) == top;
    forall f | f in u && IdentityOf(f) == IdentityOf(e)
      ensures SourceVersion(f) <= res.winning
    {
      assert VariantOf(f) in vs;
    }
  }

  lemma ContestedIn(u: set<Envelope>, vs: set<Variant>, res: Resolution, e: Envelope)
    requires Variants(u) == vs && e in u && IsResolution(vs, IdentityOf(e), res) && SourceVersion(e) == res.winning
    ensures Contested(u, e) <==> res.conflicted
  {
    var k := IdentityOf(e);
    assert VariantOf(e) in vs;
    if Contested(u, e) {
      var f :| f in u && IdentityOf(f) == k && SourceVersion(f) == SourceVersion(e) && f.payloadHash != e.payloadHash;
      assert VariantOf(f) in vs && VariantOf(f) == Variant(k, res.winning, f.payloadHash) &&
        VariantOf(e) == Variant(k, res.winning, e.payloadHash);
    }
    if res.conflicted {
      var g, h :| g != h && Variant(k, res.winning, g) in vs && Variant(k, res.winning, h) in vs;
      var other := if g == e.payloadHash then h else g;
      var f :| f in u && VariantOf(f) == Variant(k, res.winning, other);
      assert IdentityOf(f) == k && SourceVersion(f) == SourceVersion(e) && f.payloadHash != e.payloadHash;
    }
  }

  /** A stored disposition agrees with the canonical one up to the choice of the accepted representative. */
  predicate SameClass(a: Disposition, b: Disposition) {
    a == b || (a in {Accepted, Duplicate} && b in {Accepted, Duplicate})
  }

  lemma DispositionAgrees(hash: FinancialRecord -> string, t: Tables, r: StoredReceipt)
    requires Consistent(hash, t) && Settled(t) && Readable(t.receipts) && r in t.receipts && !r.state.Quarantined? &&
      r.parsed.Some?
    ensures r.state.Resolved? &&
      SameClass(r.state.disposition, DispositionIn(CommittedEvidence(hash, t), MakeEnvelope(hash, r)))
  {
    var e, res := MakeEnvelope(hash, r), t.resolutions[r.key];
    StoredEvidence(hash, t, r);
    EnvelopeOf(hash, t, r);
    VersionsAreVariants(hash, t);
    WinningIn(CommittedEvidence(hash, t), t.versions.Keys, res, e);
    if r.version == res.winning {
      ContestedIn(CommittedEvidence(hash, t), t.versions.Keys, res, e);
    }
  }

  // ---- Resolutions and counts ----

  /** The receipts of a variant that the store holds under a disposition. */
  ghost function StoredAs(t: Tables, v: Variant, d: Disposition): set<string> {
    set r | r in t.receipts && r.state == Resolved(d) && StoredVariant(r) == v :: r.receiptId
  }

  /** The receipts of a variant that a canonicalization puts under a disposition. */
  ghost function ClassifiedAs(c: CanonicalizationResult, v: Variant, d: Disposition): set<string> {
    set x | x in c.evidence && x.variant == v && x.disposition == d :: x.receiptId
  }

  ghost function AllOf(t: Tables, v: Variant): set<string> {
    set r | r in t.receipts && !r.state.Quarantined? && StoredVariant(r) == v :: r.receiptId
  }

  lemma EvidenceEntry(hash: FinancialRecord -> string, t: Tables, c: CanonicalizationResult, x: Evidence)
    returns (r: StoredReceipt)
    requires Consistent(hash, t) && Settled(t) && Readable(t.receipts) &&
      IsCanonicalization(CommittedEvidence(hash, t), c) && x in c.evidence
    ensures r in t.receipts && !r.state.Quarantined? && r.parsed.Some? && StoredVariant(r) == x.variant &&
      r.receiptId == x.receiptId
    ensures x.disposition == DispositionIn(CommittedEvidence(hash, t), MakeEnvelope(hash, r))
  {
    var u := CommittedEvidence(hash, t);
    assert ClassifiedIn(u, x);
    var e :| e in u && EvidenceIn(u)(e) == x;
    r := ReceiptOf(hash, t, e);
  }

  lemma EntryOf(hash: FinancialRecord -> string, t: Tables, c: CanonicalizationResult, r: StoredReceipt)
    returns (x: Evidence)
    requires Consistent(hash, t) && Settled(t) && Readable(t.receipts) &&
      IsCanonicalization(CommittedEvidence(hash, t), c)
    requires r in t.receipts && !r.state.Quarantined? && r.parsed.Some?
    ensures x in c.evidence && x.variant == StoredVariant(r) && x.receiptId == r.receiptId
    ensures x.disposition == DispositionIn(CommittedEvidence(hash, t), MakeEnvelope(hash, r))
  {
    var u := CommittedEvidence(hash, t);
    EnvelopeOf(hash, t, r);
    x := EvidenceIn(u)(MakeEnvelope(hash, r));
    assert ClassifiedIn(u, x);
  }

  /** Stale and conflicted receipts are the very same receipts on both sides. */
  lemma SameStaleAndConflicted(hash: FinancialRecord -> string, t: Tables, c: CanonicalizationResult, v: Variant,
                               d: Disposition)
    requires Consistent(hash, t) && Settled(t) && Readable(t.receipts) &&
      IsCanonicalization(CommittedEvidence(hash, t), c)
    requires d == Stale || d == Conflicted
    ensures StoredAs(t, v, d) == ClassifiedAs(c, v, d)
  {
    forall id | id in StoredAs(t, v, d)
      ensures id in ClassifiedAs(c, v, d)
    {
      var r :| r in t.receipts && r.state == Resolved(d) && StoredVariant(r) == v && r.receiptId == id;
      assert Truthful(hash, r);
      DispositionAgrees(hash, t, r);
      var x := EntryOf(hash, t, c, r);
    }
    forall id | id in ClassifiedAs(c, v, d)
      ensures id in StoredAs(t, v, d)
    {
      var x :| x in c.evidence && x.variant == v && x.disposition == d && x.receiptId == id;
      var r := EvidenceEntry(hash, t, c, x);
      DispositionAgrees(hash, t, r);
    }
  }

  /** Both sides choose at most one accepted receipt per variant, and choose one for the same variants. */
  lemma OneAcceptedEach(hash: FinancialRecord -> string, t: Tables, c: CanonicalizationResult, v: Variant)
    requires Injective(hash) && Consistent(hash, t) && Settled(t) && Readable(t.receipts) &&
      IsCanonicalization(CommittedEvidence(hash, t), c)
    ensures |StoredAs(t, v, Accepted)| == |ClassifiedAs(c, v, Accepted)| <= 1
    ensures StoredAs(t, v, Accepted) <= AllOf(t, v) && ClassifiedAs(c, v, Accepted) <= AllOf(t, v)
  {
    StoredAccepted(hash, t, v);
    ClassifiedAccepted(hash, t, c, v);
    StoreReadable(hash, t);
    ReceivedAgrees(hash, t.receipts);
    if id :| id in StoredAs(t, v, Accepted) {
      AcceptedCarriesOver(hash, t, c, v);
      assert StoredAs(t, v, Accepted) == {id};
      var other :| other in ClassifiedAs(c, v, Accepted);
      assert ClassifiedAs(c, v, Accepted) == {other};
    } else if id :| id in ClassifiedAs(c, v, Accepted) {
      AcceptedCarriesBack(hash, t, c, v);
    }
  }

  lemma StoredReceiptOf(t: Tables, v: Variant, d: Disposition, id: string) returns (r: StoredReceipt)
    requires id in StoredAs(t, v, d)
    ensures r in t.receipts && r.state == Resolved(d) && StoredVariant(r) == v && r.receiptId == id && id in AllOf(t, v)
  {
    r :| r in t.receipts && r.state == Resolved(d) && StoredVariant(r) == v && r.receiptId == id;
  }

  lemma AcceptedIsFirstSeen(hash: FinancialRecord -> string, t: Tables, r: StoredReceipt)
    requires Consistent(hash, t) && Settled(t) && r in t.receipts && r.state == Resolved(Accepted)
    ensures StoredVariant(r) in t.versions && r.receiptId == t.versions[StoredVariant(r)]
  {
    StoredEvidence(hash, t, r);
    ClassAccepted(t.versions, t.resolutions[r.key], r);
  }

  lemma ClassAccepted(versions: map<Variant, string>, res: Resolution, r: StoredReceipt)
    ensures ClassOf(versions, res, r) == Accepted ==>
      StoredVariant(r) in versions && versions[StoredVariant(r)] == r.receiptId
    ensures ClassOf(versions, res, r) in {Accepted, Duplicate} <==> r.version >= res.winning && !res.conflicted
  {
  }

  lemma StoredMember(hash: FinancialRecord -> string, t: Tables, v: Variant, id: string)
    requires Consistent(hash, t) && Settled(t) && id in StoredAs(t, v, Accepted)
    ensures id in AllOf(t, v) && v in t.versions && id == t.versions[v]
  {
    var r := StoredReceiptOf(t, v, Accepted, id);
    AcceptedIsFirstSeen(hash, t, r);
  }

  lemma StoredAccepted(hash: FinancialRecord -> string, t: Tables, v: Variant)
    requires Consistent(hash, t) && Settled(t)
    ensures forall a, b :: a in StoredAs(t, v, Accepted) && b in StoredAs(t, v, Accepted) ==> a == b
    ensures StoredAs(t, v, Accepted) <= AllOf(t, v)
  {
    var accepted := StoredAs(t, v, Accepted);
    forall a, b | a in accepted && b in accepted
      ensures a == b
    {
      StoredMember(hash, t, v, a);
      StoredMember(hash, t, v, b);
    }
    forall a | a in accepted
      ensures a in AllOf(t, v)
    {
      StoredMember(hash, t, v, a);
    }
  }

  lemma ClassifiedMember(hash: FinancialRecord -> string, t: Tables, c: CanonicalizationResult, v: Variant, id: string)
    returns (e: Envelope)
    requires Consistent(hash, t) && Settled(t) && Readable(t.receipts) &&
      IsCanonicalization(CommittedEvidence(hash, t), c)
    requires id in ClassifiedAs(c, v, Accepted)
    ensures e in CommittedEvidence(hash, t) && VariantOf(e) == v && First(CommittedEvidence(hash, t), e) &&
      e.receiptId == id && id in AllOf(t, v)
  {
    var x :| x in c.evidence && x.variant == v && x.disposition == Accepted && x.receiptId == id;
    var r := EvidenceEntry(hash, t, c, x);
    EnvelopeOf(hash, t, r);
    e := MakeEnvelope(hash, r);
  }

  lemma ClassifiedAccepted(hash: FinancialRecord -> string, t: Tables, c: CanonicalizationResult, v: Variant)
    requires Consistent(hash, t) && Settled(t) && Readable(t.receipts) &&
      IsCanonicalization(CommittedEvidence(hash, t), c)
    ensures forall a, b :: a in ClassifiedAs(c, v, Accepted) && b in ClassifiedAs(c, v, Accepted) ==> a == b
    ensures ClassifiedAs(c, v, Accepted) <= AllOf(t, v)
  {
    var u, accepted := CommittedEvidence(hash, t), ClassifiedAs(c, v, Accepted);
    forall a, b | a in accepted && b in accepted
      ensures a == b
    {
      var e := ClassifiedMember(hash, t, c, v, a);
      var f := ClassifiedMember(hash, t, c, v, b);
      FirstIsUnique(u, e, f);
    }
    forall a | a in accepted
      ensures a in AllOf(t, v)
    {
      var e := ClassifiedMember(hash, t, c, v, a);
    }
  }

  lemma FirstIsUnique(u: set<Envelope>, e: Envelope, f: Envelope)
    requires e in u && f in u && First(u, e) && First(u, f) && VariantOf(e) == VariantOf(f)
    ensures e == f
  {
    StringLessOrder(e.receiptId, f.receiptId, e.receiptId);
  }

  lemma AcceptedCarriesOver(hash: FinancialRecord -> string, t: Tables, c: CanonicalizationResult, v: Variant)
    requires Consistent(hash, t) && Settled(t) && Readable(t.receipts) &&
      IsCanonicalization(CommittedEvidence(hash, t), c)
    requires ReceiptsAgree(CommittedEvidence(hash, t)) && StoredAs(t, v, Accepted) != {}
    ensures ClassifiedAs(c, v, Accepted) != {}
  {
    var id :| id in StoredAs(t, v, Accepted);
    var r := StoredReceiptOf(t, v, Accepted, id);
    EnvelopeOf(hash, t, r);
    DispositionAgrees(hash, t, r);
    var w := FirstAccepted(CommittedEvidence(hash, t), MakeEnvelope(hash, r));
    var s := ReceiptOf(hash, t, w);
    var x := EntryOf(hash, t, c, s);
    assert x.receiptId in ClassifiedAs(c, v, Accepted);
  }

  lemma FirstAccepted(u: set<Envelope>, e: Envelope) returns (w: Envelope)
    requires ReceiptsAgree(u) && e in u && DispositionIn(u, e) in {Accepted, Duplicate}
    ensures w in u && VariantOf(w) == VariantOf(e) && DispositionIn(u, w) == Accepted
  {
    w := FirstOfVariant(u, e);
    assert Winning(u, w) && !Contested(u, w);
  }

  lemma AcceptedCarriesBack(hash: FinancialRecord -> string, t: Tables, c: CanonicalizationResult, v: Variant)
    requires Consistent(hash, t) && Settled(t) && Readable(t.receipts) &&
      IsCanonicalization(CommittedEvidence(hash, t), c)
    requires ClassifiedAs(c, v, Accepted) != {}
    ensures StoredAs(t, v, Accepted) != {}
  {
    var id :| id in ClassifiedAs(c, v, Accepted);
    var x :| x in c.evidence && x.variant == v && x.disposition == Accepted && x.receiptId == id;
    var r := EvidenceEntry(hash, t, c, x);
    DispositionAgrees(hash, t, r);
    FirstSeenAccepted(hash, t, v, r);
  }

  /** When a receipt of the variant is accepted or a duplicate, the one first seen is accepted. */
  lemma FirstSeenAccepted(hash: FinancialRecord -> string, t: Tables, v: Variant, r: StoredReceipt)
    requires Consistent(hash, t) && Settled(t) && r in t.receipts && StoredVariant(r) == v
    requires r.state.Resolved? && r.state.disposition in {Accepted, Duplicate}
    ensures StoredAs(t, v, Accepted) != {}
  {
    StoredEvidence(hash, t, r);
    ClassAccepted(t.versions, t.resolutions[r.key], r);
    var s := FirstReceipt(hash, t, v);
    StoredEvidence(hash, t, s);
    SameClassOf(t.versions, t.resolutions[r.key], r, s);
    assert s.receiptId in StoredAs(t, v, Accepted);
  }

  lemma FirstReceipt(hash: FinancialRecord -> string, t: Tables, v: Variant) returns (s: StoredReceipt)
    requires Consistent(hash, t) && v in t.versions
    ensures s in t.receipts && !s.state.Quarantined? && StoredVariant(s) == v && s.receiptId == t.versions[v]
  {
    assert FirstSeen(t, v);
    s :| s in t.receipts && !s.state.Quarantined? && StoredVariant(s) == v && s.receiptId == t.versions[v];
  }

  lemma SameClassOf(versions: map<Variant, string>, res: Resolution, r: StoredReceipt, s: StoredReceipt)
    requires StoredVariant(s) == StoredVariant(r) && r.version >= res.winning && !res.conflicted
    requires StoredVariant(s) in versions && versions[StoredVariant(s)] == s.receiptId
    ensures s.key == r.key && ClassOf(versions, res, s) == Accepted
  {
  }

  /** What is neither stale, conflicted nor accepted is a duplicate. */
  lemma DuplicatesAreTheRest(hash: FinancialRecord -> string, t: Tables, c: CanonicalizationResult, v: Variant)
    requires Consistent(hash, t) && Settled(t) && Readable(t.receipts) &&
      IsCanonicalization(CommittedEvidence(hash, t), c)
    requires ReceiptsAgree(CommittedEvidence(hash, t))
    ensures StoredAs(t, v, Duplicate)
      == AllOf(t, v) - StoredAs(t, v, Stale) - StoredAs(t, v, Conflicted) - StoredAs(t, v, Accepted)
    ensures ClassifiedAs(c, v, Duplicate)
      == AllOf(t, v) - ClassifiedAs(c, v, Stale) - ClassifiedAs(c, v, Conflicted) - ClassifiedAs(c, v, Accepted)
  {
    StoredRest(hash, t, v);
    ClassifiedRest(hash, t, c, v);
  }

  lemma StoredRest(hash: FinancialRecord -> string, t: Tables, v: Variant)
    requires Consistent(hash, t) && Settled(t)
    ensures StoredAs(t, v, Duplicate)
      == AllOf(t, v) - StoredAs(t, v, Stale) - StoredAs(t, v, Conflicted) - StoredAs(t, v, Accepted)
  {
    forall id
      ensures id in StoredAs(t, v, Duplicate) <==>
        id in AllOf(t, v) && id !in StoredAs(t, v, Stale) && id !in StoredAs(t, v, Conflicted) &&
        id !in StoredAs(t, v, Accepted)
    {
      if r :| r in t.receipts && !r.state.Quarantined? && StoredVariant(r) == v && r.receiptId == id {
        StoredEvidence(hash, t, r);
        OneStoredState(t, v, r);
      }
    }
  }

  lemma OneStoredState(t: Tables, v: Variant, r: StoredReceipt)
    requires DistinctReceipts(t.receipts) && r in t.receipts && r.state.Resolved? && StoredVariant(r) == v
    ensures forall d :: r.receiptId in StoredAs(t, v, d) <==> d == r.state.disposition
  {
    forall d
      ensures r.receiptId in StoredAs(t, v, d) <==> d == r.state.disposition
    {
      if r.receiptId in StoredAs(t, v, d) {
        var s :| s in t.receipts && s.state == Resolved(d) && StoredVariant(s) == v && s.receiptId == r.receiptId;
        SameReceipt(t.receipts, r, s);
      }
    }
  }

  lemma ClassifiedRest(hash: FinancialRecord -> string, t: Tables, c: CanonicalizationResult, v: Variant)
    requires Consistent(hash, t) && Settled(t) && Readable(t.receipts) &&
      IsCanonicalization(CommittedEvidence(hash, t), c)
    requires ReceiptsAgree(CommittedEvidence(hash, t))
    ensures ClassifiedAs(c, v, Duplicate)
      == AllOf(t, v) - ClassifiedAs(c, v, Stale) - ClassifiedAs(c, v, Conflicted) - ClassifiedAs(c, v, Accepted)
  {
    EvidenceConserved(CommittedEvidence(hash, t), c);
    forall id
      ensures id in ClassifiedAs(c, v, Duplicate) <==>
        id in AllOf(t, v) && id !in ClassifiedAs(c, v, Stale) && id !in ClassifiedAs(c, v, Conflicted) &&
        id !in ClassifiedAs(c, v, Accepted)
    {
      if r :| r in t.receipts && !r.state.Quarantined? && StoredVariant(r) == v && r.receiptId == id {
        assert Truthful(hash, r);
        var x := EntryOf(hash, t, c, r);
        OneClass(c, v, x);
      }
      if x :| x in c.evidence && x.variant == v && x.receiptId == id {
        var r := EvidenceEntry(hash, t, c, x);
      }
    }
  }

  lemma OneClass(c: CanonicalizationResult, v: Variant, x: Evidence)
    requires forall i, j :: 0 <= i < j < |c.evidence| ==> c.evidence[i].receiptId != c.evidence[j].receiptId
    requires x in c.evidence && x.variant == v
    ensures forall d :: x.receiptId in ClassifiedAs(c, v, d) <==> d == x.disposition
  {
    forall d
      ensures x.receiptId in ClassifiedAs(c, v, d) <==> d == x.disposition
    {
      if x.receiptId in ClassifiedAs(c, v, d) {
        var y :| y in c.evidence && y.variant == v && y.disposition == d && y.receiptId == x.receiptId;
        var i :| 0 <= i < |c.evidence| && c.evidence[i] == x;
        var j :| 0 <= j < |c.evidence| && c.evidence[j] == y;
      }
    }
  }

  /** Per variant and disposition, the store counts exactly the receipts a canonicalization of all committed
      evidence counts, although each ingestion looked only at its own entities. */
  lemma CountsMatchCanonicalization(hash: FinancialRecord -> string, t: Tables, c: CanonicalizationResult, v: Variant,
                                    d: Disposition)
    requires Injective(hash) && Consistent(hash, t) && Settled(t) && Readable(t.receipts) &&
      IsCanonicalization(CommittedEvidence(hash, t), c)
    ensures |StoredAs(t, v, d)| == |ClassifiedAs(c, v, d)|
  {
    SameStaleAndConflicted(hash, t, c, v, Stale);
    SameStaleAndConflicted(hash, t, c, v, Conflicted);
    OneAcceptedEach(hash, t, c, v);
    StoreReadable(hash, t);
    ReceivedAgrees(hash, t.receipts);
    DuplicatesAreTheRest(hash, t, c, v);
    var rest := AllOf(t, v) - StoredAs(t, v, Stale) - StoredAs(t, v, Conflicted);
    if d == Duplicate {
      AcceptedInRest(hash, t, c, v, rest);
      RemovedCount(rest, StoredAs(t, v, Accepted));
      RemovedCount(rest, ClassifiedAs(c, v, Accepted));
    }
  }

  lemma RemovedCount<T>(a: set<T>, b: set<T>)
    requires b <= a
    ensures |a - b| == |a| - |b|
  {
  }

  lemma AcceptedInRest(hash: FinancialRecord -> string, t: Tables, c: CanonicalizationResult, v: Variant,
                       rest: set<string>)
    requires DistinctReceipts(t.receipts) && Readable(t.receipts) && ReceiptsAgree(CommittedEvidence(hash, t))
    requires IsCanonicalization(CommittedEvidence(hash, t), c)
    requires StoredAs(t, v, Stale) == ClassifiedAs(c, v, Stale) &&
      StoredAs(t, v, Conflicted) == ClassifiedAs(c, v, Conflicted)
    requires StoredAs(t, v, Accepted) <= AllOf(t, v) && ClassifiedAs(c, v, Accepted) <= AllOf(t, v)
    requires rest == AllOf(t, v) - StoredAs(t, v, Stale) - StoredAs(t, v, Conflicted)
    ensures StoredAs(t, v, Accepted) <= rest && ClassifiedAs(c, v, Accepted) <= rest
  {
    forall id | id in StoredAs(t, v, Accepted)
      ensures id in rest
    {
      StoredApart(t, v, id);
    }
    EvidenceConserved(CommittedEvidence(hash, t), c);
    forall id | id in ClassifiedAs(c, v, Accepted)
      ensures id in rest
    {
      ClassifiedApart(c, v, id);
    }
  }

  lemma StoredApart(t: Tables, v: Variant, id: string)
    requires DistinctReceipts(t.receipts) && id in StoredAs(t, v, Accepted)
    ensures id !in StoredAs(t, v, Stale) && id !in StoredAs(t, v, Conflicted)
  {
    var r :| r in t.receipts && r.state == Resolved(Accepted) && StoredVariant(r) == v && r.receiptId == id;
    OneStoredState(t, v, r);
  }

  lemma ClassifiedApart(c: CanonicalizationResult, v: Variant, id: string)
    requires forall i, j :: 0 <= i < j < |c.evidence| ==> c.evidence[i].receiptId != c.evidence[j].receiptId
    requires id in ClassifiedAs(c, v, Accepted)
    ensures id !in ClassifiedAs(c, v, Stale) && id !in ClassifiedAs(c, v, Conflicted)
  {
    var x :| x in c.evidence && x.variant == v && x.disposition == Accepted && x.receiptId == id;
    OneClass(c, v, x);
  }

  /** The stored resolution of an entity is the canonical outcome: the same winning version, the same verdict,
      and for an accepted entity the hash of its canonical record. */
  lemma ResolutionMatchesCanonicalization(hash: FinancialRecord -> string, t: Tables, c: CanonicalizationResult,
                                          k: RecordKey)
    requires Injective(hash) && Consistent(hash, t) && Settled(t) && Readable(t.receipts) &&
      IsCanonicalization(CommittedEvidence(hash, t), c)
    ensures k in t.resolutions <==> exists e :: e in CommittedEvidence(hash, t) && IdentityOf(e) == k
    ensures k in t.resolutions ==>
      var res := t.resolutions[k];
      if res.conflicted then exists x :: InConflict(c, x, k) && x.version == res.winning
      else exists x :: Current(c, x, k) && VersionOf(x) == res.winning && res.selected == Some(hash(x))
  {
    VersionsAreVariants(hash, t);
    StoreReadable(hash, t);
    ReceivedAgrees(hash, t.receipts);
    var u := CommittedEvidence(hash, t);
    if e :| e in u && IdentityOf(e) == k {
      assert VariantOf(e) in t.versions;
      assert HasVariant(t, k);
    }
    if k in t.resolutions {
      assert HasVariant(t, k) && EntityResolved(t, k);
      OutcomeMatches(u, t.versions.Keys, c, k, t.resolutions[k]);
      if !t.resolutions[k].conflicted {
        SelectedMatches(hash, t, c, k);
      }
    }
  }

  lemma WinnerOf(u: set<Envelope>, vs: set<Variant>, k: RecordKey, res: Resolution) returns (w: Envelope)
    requires Variants(u) == vs && IsResolution(vs, k, res)
    ensures w in u && IdentityOf(w) == k && SourceVersion(w) == res.winning && Winning(u, w) &&
      (Contested(u, w) <==> res.conflicted)
  {
    var top :| top in vs && top.key == k && top.version == res.winning;
    w :| w in u && VariantOf(w) == top;
    WinningIn(u, vs, res, w);
    ContestedIn(u, vs, res, w);
  }

  lemma ConflictMatches(u: set<Envelope>, c: CanonicalizationResult, k: RecordKey, w: Envelope)
    requires IsCanonicalization(u, c) && WinsConflict(u, k, w)
    ensures exists x :: InConflict(c, x, k) && x.version == SourceVersion(w)
  {
    var x :| x in c.conflicts && x.key == k;
    var ws :| IsConflict(u, x, ws);
    assert w in ws && ws[0] in ws && WinsConflict(u, k, ws[0]);
    assert InConflict(c, x, k) && x.version == SourceVersion(w);
  }

  lemma OutcomeMatches(u: set<Envelope>, vs: set<Variant>, c: CanonicalizationResult, k: RecordKey, res: Resolution)
    requires Variants(u) == vs && IsResolution(vs, k, res) && IsCanonicalization(u, c) && ReceiptsAgree(u)
    ensures exists e :: e in u && IdentityOf(e) == k
    ensures res.conflicted ==> exists x :: InConflict(c, x, k) && x.version == res.winning
    ensures !res.conflicted ==> exists x :: Current(c, x, k) && VersionOf(x) == res.winning
  {
    var w := WinnerOf(u, vs, k, res);
    if res.conflicted {
      ConflictMatches(u, c, k, w);
    } else {
      var a := FirstOfVariant(u, w);
      assert Winning(u, a) && !Contested(u, a);
      assert Current(c, a.record, k) && VersionOf(a.record) == res.winning;
    }
  }

  lemma SelectedMatches(hash: FinancialRecord -> string, t: Tables, c: CanonicalizationResult, k: RecordKey)
    requires Consistent(hash, t) && Settled(t) && Readable(t.receipts) &&
      IsCanonicalization(CommittedEvidence(hash, t), c)
    requires Variants(CommittedEvidence(hash, t)) == t.versions.Keys && k in t.resolutions && EntityResolved(t, k) &&
      !t.resolutions[k].conflicted
    ensures forall x :: Current(c, x, k) && VersionOf(x) == t.resolutions[k].winning ==>
      t.resolutions[k].selected == Some(hash(x))
  {
    forall x | Current(c, x, k) && VersionOf(x) == t.resolutions[k].winning
      ensures t.resolutions[k].selected == Some(hash(x))
    {
      assert AcceptedRecord(CommittedEvidence(hash, t), x);
      CurrentVariant(hash, t, x);
      assert Variant(k, t.resolutions[k].winning, t.resolutions[k].selected.value) in t.versions.Keys;
    }
  }

  lemma CurrentVariant(hash: FinancialRecord -> string, t: Tables, x: FinancialRecord)
    requires Consistent(hash, t) && Settled(t) && Readable(t.receipts) && AcceptedRecord(CommittedEvidence(hash, t), x)
    requires Variants(CommittedEvidence(hash, t)) == t.versions.Keys
    ensures Variant(KeyOf(x), VersionOf(x), hash(x)) in t.versions.Keys
  {
    var e :| e in CommittedEvidence(hash, t) && e.record == x &&
      DispositionIn(CommittedEvidence(hash, t), e) == Accepted;
    var r := ReceiptOf(hash, t, e);
    EnvelopeHash(hash, t, r);
    assert VariantOf(e) in Variants(CommittedEvidence(hash, t));
  }

  lemma EnvelopeHash(hash: FinancialRecord -> string, t: Tables, r: StoredReceipt)
    requires Consistent(hash, t) && r in t.receipts && !r.state.Quarantined? && r.parsed.Some?
    ensures MakeEnvelope(hash, r).payloadHash == hash(MakeEnvelope(hash, r).record)
  {
    assert Truthful(hash, r);
  }
}
