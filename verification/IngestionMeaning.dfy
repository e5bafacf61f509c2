/** What the evidence tables hold after any number of deliveries, on their columns. */
module IngestionMeaning {
  import opened Sequences
  import opened Contracts
  import opened Canonicalize
  import CM = CanonicalMeaning
  import opened Rebuild
  import RM = RebuildMeaning
  import opened DurableIngestion

  /** Everything about a receipt but what was made of it. */
  predicate SameReceiptColumns(r: StoredReceipt, s: StoredReceipt) {
    s.receiptId == r.receiptId && s.batchId == r.batchId && s.row == r.row && s.receivedAt == r.receivedAt &&
    s.key == r.key && s.version == r.version && s.payloadHash == r.payloadHash && s.parsed == r.parsed
  }

  /** `s` is the receipt of the `i`-th row of the delivery: rows are numbered from one; a row the parser rejects is
      quarantined with its reason and keeps no record. */
  predicate ReceiptOfRow(hash: FinancialRecord -> string, d: Delivery, batchId: int, at: int, id: string, i: nat,
                         s: StoredReceipt)
    requires i < |d.rows|
  {
    s.receiptId == id && s.batchId == batchId && s.row == i + 1 && s.receivedAt == at && s.key.kind == d.kind &&
    match d.rows[i]
    case Invalid(sourceId, _) => s.key.id == sourceId && s.parsed == None && s.state.Quarantined?
    case Parsed(record) =>
      RM.BearsId(record, s.key.id) && CM.AtVersion(record, s.version) && s.payloadHash == hash(record) &&
      s.parsed == Some(record) && !s.state.Quarantined?
  }

  /** What a committed delivery leaves in the receipt table: the receipts before it, and one for each of its rows. */
  lemma RowsInFull(hash: FinancialRecord -> string, t: Tables, d: Delivery, batchId: int, at: int, ids: seq<string>,
                   after: seq<StoredReceipt>)
    requires Deliverable(t, d, ids) && SameColumns(t.receipts + NewReceipts(hash, d, batchId, at, ids), after)
    ensures |after| == |t.receipts| + |d.rows|
    ensures forall i :: 0 <= i < |t.receipts| ==> SameReceiptColumns(t.receipts[i], after[i])
    ensures forall i :: 0 <= i < |d.rows| ==> ReceiptOfRow(hash, d, batchId, at, ids[i], i, after[|t.receipts| + i])
  {
    var whole := t.receipts + NewReceipts(hash, d, batchId, at, ids);
    forall i | 0 <= i < |whole|
      ensures SameReceiptColumns(whole[i], after[i]) && (after[i].state.Quarantined? <==> whole[i].state.Quarantined?)
    {
      assert Columns(after[i]) == Columns(whole[i]);
    }
    forall i | 0 <= i < |t.receipts|
      ensures SameReceiptColumns(t.receipts[i], after[i])
    {
      assert whole[i] == t.receipts[i];
    }
    forall i | 0 <= i < |d.rows|
      ensures ReceiptOfRow(hash, d, batchId, at, ids[i], i, after[|t.receipts| + i])
    {
      assert whole[|t.receipts| + i] == NewReceipt(hash, d, batchId, i + 1, at, ids[i], d.rows[i]);
      RowShape(hash, d, batchId, at, ids[i], i);
    }
  }

  lemma RowShape(hash: FinancialRecord -> string, d: Delivery, batchId: int, at: int, id: string, i: nat)
    requires i < |d.rows| && (d.rows[i].Parsed? ==> KeyOf(d.rows[i].record).kind == d.kind)
    ensures ReceiptOfRow(hash, d, batchId, at, id, i, NewReceipt(hash, d, batchId, i + 1, at, id, d.rows[i]))
  {
    match d.rows[i]
    case Invalid(_, _) =>
    case Parsed(record) => CM.VersionRead(record, VersionOf(record));
  }

  /** Receipts that count: they were parsed. */
  predicate Counts(r: StoredReceipt) { !r.state.Quarantined? }

  /** The table holds a receipt of a higher version of the entity of `r`. */
  ghost predicate Outdated(t: Tables, r: StoredReceipt) {
    exists s :: s in t.receipts && Counts(s) && s.key == r.key && s.version > r.version
  }

  /** The table holds a receipt of the version of `r` with another content. */
  ghost predicate Contradicted(t: Tables, r: StoredReceipt) {
    exists s :: s in t.receipts && Counts(s) && s.key == r.key && s.version == r.version &&
      s.payloadHash != r.payloadHash
  }

  /** The table holds an earlier receipt that says the same as the `i`-th. */
  ghost predicate SeenBefore(t: Tables, i: nat)
    requires i < |t.receipts|
  {
    exists j :: 0 <= j < i && Counts(t.receipts[j]) && t.receipts[j].key == t.receipts[i].key &&
      t.receipts[j].version == t.receipts[i].version && t.receipts[j].payloadHash == t.receipts[i].payloadHash
  }

  /** What became of every receipt, however the deliveries were cut and whichever entities each one touched: stale if
      the table holds a higher version; else in conflict if it holds other content of that version; else accepted if no
      earlier receipt says the same and a duplicate if one does. A quarantined receipt stays quarantined. */
  lemma StatesInFull(hash: FinancialRecord -> string, t: Tables, i: nat)
    requires Consistent(hash, t) && Settled(t) && i < |t.receipts|
    ensures var r := t.receipts[i];
      r.status == Committed && (r.state.Quarantined? ==> r.parsed == None) &&
      (!r.state.Quarantined? ==>
         r.state == Resolved(if Outdated(t, r) then Stale else if Contradicted(t, r) then Conflicted
                             else if SeenBefore(t, i) then Duplicate else Accepted))
  {
    var r := t.receipts[i];
    assert r in t.receipts;
    if !r.state.Quarantined? {
      StoredEvidence(hash, t, r);
      VersionsShown(hash, t, r.key);
      OutdatedRead(t, r);
      if !Outdated(t, r) {
        ContradictedRead(t, r);
        FirstRead(hash, t, i);
      }
    }
  }

  /** The variants of an entity are those its receipts show. */
  ghost predicate Shows(t: Tables, v: Variant) {
    exists s ::
    s in t.receipts && Counts(s) && s.key == v.key && s.version == v.version && s.payloadHash == v.payloadHash
  }

  lemma VersionsShown(hash: FinancialRecord -> string, t: Tables, k: RecordKey)
    requires Consistent(hash, t)
    ensures forall v :: v in t.versions <==> Shows(t, v)
  {
    forall v
      ensures v in t.versions <==> Shows(t, v)
    {
      if Shows(t, v) {
        var s :| s in t.receipts && Counts(s) && s.key == v.key && s.version == v.version &&
          s.payloadHash == v.payloadHash;
        assert StoredVariant(s) == v;
      }
      if v in t.versions {
        assert FirstSeen(t, v);
      }
    }
  }

  lemma OutdatedRead(t: Tables, r: StoredReceipt)
    requires r in t.receipts && Counts(r) && r.key in t.resolutions && forall v :: v in t.versions <==> Shows(t, v)
    requires IsResolution(t.versions.Keys, r.key, t.resolutions[r.key])
    ensures Outdated(t, r) <==> r.version < t.resolutions[r.key].winning
  {
    var winning := t.resolutions[r.key].winning;
    var top :| top in t.versions.Keys && top.key == r.key && top.version == winning;
    assert Shows(t, top);
    if s :| s in t.receipts && Counts(s) && s.key == r.key && s.version > r.version {
      assert Shows(t, StoredVariant(s));
    }
  }

  lemma ContradictedRead(t: Tables, r: StoredReceipt)
    requires r in t.receipts && Counts(r) && r.key in t.resolutions && forall v :: v in t.versions <==> Shows(t, v)
    requires IsResolution(t.versions.Keys, r.key, t.resolutions[r.key]) && r.version == t.resolutions[r.key].winning
    ensures Contradicted(t, r) <==> t.resolutions[r.key].conflicted
  {
    if Contradicted(t, r) {
      var s :| s in t.receipts && Counts(s) && s.key == r.key && s.version == r.version &&
        s.payloadHash != r.payloadHash;
      assert Shows(t, Variant(r.key, r.version, s.payloadHash)) && Shows(t, Variant(r.key, r.version, r.payloadHash));
    }
    if t.resolutions[r.key].conflicted {
      var g, h :| g != h && Variant(r.key, r.version, g) in t.versions.Keys &&
        Variant(r.key, r.version, h) in t.versions.Keys;
      assert Shows(t, Variant(r.key, r.version, g)) && Shows(t, Variant(r.key, r.version, h));
    }
  }

  lemma FirstRead(hash: FinancialRecord -> string, t: Tables, i: nat)
    requires Consistent(hash, t) && i < |t.receipts| && Counts(t.receipts[i])
    ensures SeenBefore(t, i) <==> t.versions[StoredVariant(t.receipts[i])] != t.receipts[i].receiptId
  {
    var r := t.receipts[i];
    assert r in t.receipts && FirstSeen(t, StoredVariant(r));
    if SeenBefore(t, i) {
      var j :| 0 <= j < i && Counts(t.receipts[j]) && t.receipts[j].key == r.key &&
        t.receipts[j].version == r.version && t.receipts[j].payloadHash == r.payloadHash;
      assert Repeats(t.receipts[j], r) && !SeenFirst(t, r);
    }
    if t.versions[StoredVariant(r)] != r.receiptId {
      NotFirstSeen(t, i);
    }
  }

  lemma NotFirstSeen(t: Tables, i: nat)
    requires EarliestKept(t) && i < |t.receipts| && Counts(t.receipts[i]) && FirstSeen(t, StoredVariant(t.receipts[i]))
    requires t.versions[StoredVariant(t.receipts[i])] != t.receipts[i].receiptId
    ensures SeenBefore(t, i)
  {
    var r := t.receipts[i];
    var first :| first in t.receipts && !first.state.Quarantined? && StoredVariant(first) == StoredVariant(r) &&
      first.receiptId == t.versions[StoredVariant(r)];
    var j :| 0 <= j < |t.receipts| && t.receipts[j] == first;
    assert Repeats(r, first) && SeenFirst(t, first) && first != r;
    assert j < i && Counts(t.receipts[j]);
  }

  /** The resolution of an entity: there is one exactly when a receipt of the entity counts; it holds the highest
      version, whether its contents differ, and the content if they do not. */
  lemma ResolutionsInFull(hash: FinancialRecord -> string, t: Tables, k: RecordKey)
    requires Consistent(hash, t) && Settled(t)
    ensures k in t.resolutions <==> exists r :: r in t.receipts && Counts(r) && r.key == k
    ensures forall r :: r in t.receipts && Counts(r) && r.key == k && !Outdated(t, r) ==>
      t.resolutions[k].winning == r.version && (t.resolutions[k].conflicted <==> Contradicted(t, r)) &&
      t.resolutions[k].selected == if Contradicted(t, r) then None else Some(r.payloadHash)
  {
    VersionsShown(hash, t, k);
    if r :| r in t.receipts && Counts(r) && r.key == k {
      assert Shows(t, StoredVariant(r));
      assert HasVariant(t, k);
    }
    if k in t.resolutions {
      assert HasVariant(t, k);
      var v :| v in t.versions && v.key == k;
      assert Shows(t, v);
    }
    forall r | r in t.receipts && Counts(r) && r.key == k && !Outdated(t, r)
      ensures t.resolutions[k].winning == r.version && (t.resolutions[k].conflicted <==> Contradicted(t, r))
      ensures t.resolutions[k].selected == if Contradicted(t, r) then None else Some(r.payloadHash)
    {
      StoredEvidence(hash, t, r);
      OutdatedRead(t, r);
      ContradictedRead(t, r);
      SelectedRead(t, r);
    }
  }

  lemma SelectedRead(t: Tables, r: StoredReceipt)
    requires r in t.receipts && Counts(r) && r.key in t.resolutions && forall v :: v in t.versions <==> Shows(t, v)
    requires IsResolution(t.versions.Keys, r.key, t.resolutions[r.key]) && r.version == t.resolutions[r.key].winning
    requires t.resolutions[r.key].conflicted <==> Contradicted(t, r)
    ensures t.resolutions[r.key].selected == if Contradicted(t, r) then None else Some(r.payloadHash)
  {
    if !Contradicted(t, r) {
      var v := Variant(r.key, r.version, t.resolutions[r.key].selected.value);
      assert v in t.versions && Shows(t, v);
    }
  }
}
